# A Dafny model of the SkyWalking dashboard's small rules

The dashboard is a React/dva single-page application. Its logic lives in
small pure rules tangled into UI code, and this project lifts those rules out
as functions over immutable values and proves what they promise:

- **Duration panel** (`DurationPanel`, with `Clock`). This is the time-range
  picker:
  - its two shortcut catalogs;
  - the restore-on-mount rule that reads the `selectedLabel` and `timesstep`
    keys of the browser store;
  - form submission and the merge done by `select`;
  - the form mirror of the selection and the `disabledDate` predicate.

  "Now" is a parameter, and the store is a value passed in and returned.
- **Topology screen** (`Topology`):
  - the three-stage graph filter: nodes that match a pattern, then the calls
    touching them, then the endpoints of those calls;
  - the per-type node count;
  - the application-selection handler.
- **Models** (`AlarmContactModel`, `ApplicationManagerModel`,
  `ServiceReferenceMetricModel`, with `ModelKit`):
  - the reducers, as state transitions that also return their pop-ups;
  - the guards of the mutation effects;
  - the history subscriptions that seed the search variables;
  - the default search values.
- **Request helper** (`Request`). Given the result of `fetch` as a value, it
  covers:
  - how the options and headers are built;
  - the status check;
  - the choice between reading text and reading JSON;
  - the GraphQL error pop-ups;
  - which error page a failure leads to.
- **List screens** (`ListScreen`, `AlarmContactScreen`,
  `ApplicationManagerScreen`, `ServiceReferenceMetricScreen`):
  - the pager and the row-number column;
  - paging written on a table change;
  - search and fetch conditions;
  - the editor dialogs' open and OK handlers;
  - the caller/provider pickers.

  Each screen handler returns the actions it dispatches.

JavaScript values are modelled by `Values.Value`, with JavaScript truthiness
and loose `== ''` written out. Plain objects are records (`map<string,
Value>`), and a missing key reads as `undefined`. A moment is `Valid(ms)` or
`Invalid`. The `YYYY/MM/DD` text is day truncation.

The model follows the code as written; in particular:

- With no stored label, mount selects no shortcut at all. It does not fall
  back to the first one: the inner `else` cannot be reached.
- A `timesstep` that is not JSON makes mount throw (`CorruptTimesstep`). It
  does not fall back.
- All `"` characters are stripped from both labels, not only surrounding
  ones.
- A persisted range restored on mount is merged over the current selection.
  It therefore keeps that selection's `label`, and its own label is not
  absent.
- A submit sets `label: null` only when a range was picked.
- A mutation answer that lacks `data` still reaches the add reducer, which
  throws.

## Model

| member | source | states |
|---|---|---|
| DurationPanel.ShortcutSelection | src/components/Duration/Panel/index.js:49-129 | a catalog entry's window is evaluated when read: `to` is now and `from` is now minus the entry's span, at every instant, and the entry carries its label and no step |
| DurationPanel.CatalogWindowsEndNow | src/components/Duration/Panel/index.js:54-129 | every entry of both catalogs yields a non-empty window that ends now |
| DurationPanel.StripQuotes | src/components/Duration/Panel/index.js:138 | the normalised label contains no `"`, keeps every other character of the stored text in its original order, and contains nothing else |
| DurationPanel.LastMatch | src/components/Duration/Panel/index.js:137-147 | the index found is a matching entry with no matching entry after it, and none is found exactly when no entry matches |
| DurationPanel.RestoredShortcut | src/components/Duration/Panel/index.js:135-157 | a day-catalog match overrides a short-catalog match, the last match in a catalog wins, and with no match the first short entry is used |
| DurationPanel.ScanCatalog | src/components/Duration/Panel/index.js:137-147 | one overwriting forward scan ends on the last matching entry, and keeps its starting index exactly when nothing matches |
| DurationPanel.ScanCatalogs | src/components/Duration/Panel/index.js:136-153 | the two overwriting forward scans end on the entry `RestoredShortcut` describes, and switch to the day catalog exactly when a day entry matches |
| DurationPanel.DayMatchRestores | src/components/Duration/Panel/index.js:142-152 | a label whose last match is day entry k restores day entry k, whatever the short catalog holds |
| DurationPanel.PlainLabelsMatch | src/components/Duration/Panel/index.js:143 | labels without quotes match exactly when they are equal |
| DurationPanel.SevenDayEntryRestored | src/components/Duration/Panel/index.js:99-104 | the stored label 过去7天 restores the seven-day entry of the day catalog |
| DurationPanel.SevenDayLabelRestores | src/components/Duration/Panel/index.js:99-104 | the restored seven-day entry is a window from seven days before now up to now |
| DurationPanel.SameStripSameMatch | src/components/Duration/Panel/index.js:138-143 | two stored labels that agree once quotes are stripped find the same last match in every catalog |
| DurationPanel.QuotedLabelRestoresSame | src/components/Duration/Panel/index.js:138-143 | a stored label wrapped in quotes restores the same shortcut as the bare label |
| DurationPanel.LoadRange | src/components/Duration/Panel/index.js:134 | reading `timesstep` throws exactly on text that is not JSON, and yields a range exactly when it holds an encoded range (never for the `null` a click writes or an empty value) |
| DurationPanel.Merge | src/components/Duration/Panel/index.js:203 | every property of the new fields wins and every other property of the current selection is kept |
| DurationPanel.MergeIdempotent | src/components/Duration/Panel/index.js:201-207 | selecting the same fields twice is the same as selecting them once |
| DurationPanel.Mount | src/components/Duration/Panel/index.js:131-167 | mount emits the restored shortcut only when a label is stored, and the persisted range (merged over the current selection) last and only when it is stored; it fails exactly on a corrupt store |
| DurationPanel.NoLabelNoShortcut | src/components/Duration/Panel/index.js:148-156 | with no stored label no shortcut is emitted, so the fallback to the first shortcut cannot happen |
| DurationPanel.RangeWinsOverLabel | src/components/Duration/Panel/index.js:158-166 | with both a label and a range stored, the shortcut is emitted first and the range decides the final window, parsed from its day texts |
| DurationPanel.Select | src/components/Duration/Panel/index.js:201-207 | `select` emits the merged selection, and overwrites the persisted range with null exactly for kind 2, leaving the label key alone |
| DurationPanel.ClickShortcut | src/components/Duration/Panel/index.js:201-207 | a click on a catalog entry replaces the window by the entry's (ending now, starting the span before), sets its label, keeps the current step, and clears the persisted range |
| DurationPanel.ClickThenMountFollowsLabel | src/components/Duration/Panel/index.js:204-206 | after a shortcut click the next mount skips the range and follows the stored label alone |
| DurationPanel.BuildSubmission | src/components/Duration/Panel/index.js:177-192 | falsy fields are dropped; a picked range gives `from`/`to` at the picked instants, day texts for both ends and `label: null`; a truthy step is copied; missing parts persist as blank texts and '' |
| DurationPanel.Submit | src/components/Duration/Panel/index.js:172-199 | submit always persists the range record, then selects the built selection merged over the current one |
| DurationPanel.SubmitThenMount | src/components/Duration/Panel/index.js:182-193 | a submitted range comes back on the next mount truncated to the day, with the submitted step or '' |
| DurationPanel.SubmitWithoutRangeRestoresInvalid | src/components/Duration/Panel/index.js:178-193 | submitting only a step persists blank dates, and the next mount restores invalid moments |
| DurationPanel.MirrorFields | src/components/Duration/Panel/index.js:28-43 | no selection sets no fields; a selection without a label and without `from` or `to` throws, since the missing function is called; otherwise `step` is always mirrored and the range field is set to the evaluated `[from, to]` exactly when the selection has no label |
| DurationPanel.StepOnlySubmitBreaksMirror | src/components/Duration/Panel/index.js:28-43 | a submit with a step but no range, made before any selection exists, yields an unlabelled selection with no `from`, and mirroring it into the form throws |
| DurationPanel.SubmitThenMirror | src/components/Duration/Panel/index.js:194-198 | after submitting a range and a step, the form mirrors exactly what was submitted |
| DurationPanel.ShortcutBoundsAgainstPicker | src/components/Duration/Panel/index.js:169-171 | a shortcut's start is never a disabled day and its end (now) always is, since `disabledDate` rejects present instants at or after now |
| DurationPanel.DisabledDate | src/components/Duration/Panel/index.js:169-171 | only a present, valid moment can be disabled; now itself is disabled and every earlier moment is not |
| DurationPanel.DisabledDaysAreLater | src/components/Duration/Panel/index.js:169-171 | the disabled days are a suffix: a day later than a disabled one is disabled, and a day enabled now stays enabled as time passes |
| Clock.FormatThenParse | src/components/Duration/Panel/index.js:160-163 | formatting an instant as a day and parsing it back gives the start of that day |
| Topology.Filter | src/routes/Topology/Topology.js:106-120 | with no pattern list the topology is returned unchanged; the filter never adds nodes or calls |
| Topology.KeptCalls | src/routes/Topology/Topology.js:111-114 | kept calls are exactly the input calls with an end at a node whose name matches some pattern |
| Topology.KeptNodes | src/routes/Topology/Topology.js:116-118 | kept nodes are exactly the input nodes that are an end of a kept call |
| Topology.FilterKeepsOrder | src/routes/Topology/Topology.js:111-119 | output nodes and calls are order-preserving subsequences of the input lists |
| Topology.EmptyPatternsKeepNothing | src/routes/Topology/Topology.js:108-118 | a present but empty pattern list keeps no node and no call |
| Topology.MatchIsNotEnough | src/routes/Topology/Topology.js:116-118 | a matching node no call touches is dropped, and a non-matching neighbour of a matching node is kept |
| Topology.BumpTallies | src/routes/Topology/Topology.js:141-145 | counting one more node keeps the tally exact: a seen type is incremented in place, a new type is appended with count 1 |
| Topology.BumpSeenTallies | src/routes/Topology/Topology.js:141-142 | a node of a type already in the map increments that type's count in place, and the histogram stays exact |
| Topology.BumpNewTallies | src/routes/Topology/Topology.js:143-144 | a node of a type not yet in the map appends it with count 1 after the types seen so far, and the histogram stays exact |
| Topology.CountTypes | src/routes/Topology/Topology.js:138-150 | one entry per distinct node type in first-seen order, each count the number of nodes of that type, and the counts sum to the node count |
| Topology.FirstSeenTypesExact | src/routes/Topology/Topology.js:139-148 | the first-seen type list has no repeats and holds exactly the types that occur |
| Topology.SelectedApplication | src/routes/Topology/Topology.js:87-99 | a truthy appInfo is stored as it is, and every falsy one as null |
| Topology.SelectionIdempotent | src/routes/Topology/Topology.js:87-99 | handing the stored value back in stores it unchanged |
| Request.CheckStatus | src/utils/request.js:31-44 | a response passes exactly when its status is 2xx; otherwise the error is named by the status and carries 'No resource' for 404, 'Server error' for 500 and the status text otherwise, after an error pop-up with the status and url |
| Request.Prepare | src/utils/request.js:53-66 | credentials default to 'include' unless the caller gives them; only POST and PUT get headers and a JSON body; caller headers override the two defaults, and `auth-token` overrides the caller's |
| Request.BodyKindFor | src/utils/request.js:71-74 | the body is read as text exactly for DELETE or a 204, as JSON otherwise |
| Request.CallerCannotForgeToken | src/utils/request.js:58-64 | for a POST or PUT, an `auth-token` header from the caller changes nothing: the options are those prepared without it, carrying the login user's token |
| Request.TokenOnlyForJsonVerbs | src/utils/request.js:58-64 | two tokens give the same options exactly when the verb is not POST or PUT, or the tokens are equal |
| Request.TextBodiesAreNotParsed | src/utils/request.js:70-75 | a 2xx answer to a DELETE, or a 204, resolves to its text with no pop-up and stays, whether or not the text is JSON |
| Request.JsonBodiesMustParse | src/utils/request.js:70-75 | any other 2xx answer resolves exactly when its body is JSON |
| Request.ErrorNotices | src/utils/request.js:78-83 | one error pop-up per GraphQL error, in order, with that error's message |
| Request.Route | src/utils/request.js:87-106 | 403 goes to the 403 page, 500 to 504 to the 500 page, 404 to 421 to the 404 page, and 401 clears the authority and goes to the 401 page; any other status or a name that is not a status stays |
| Request.Request | src/utils/request.js:68-107 | the request resolves to a value exactly when a 2xx response was read, and every failure resolves to undefined; only a non-2xx status can lead to an error page; a JSON result is returned unchanged with its error pop-ups; a non-2xx answer shows its status pop-up and goes where its status routes; a network failure, or a 2xx body that is not JSON, shows nothing and stays |
| Request.ErrorsBecomeNotices | src/utils/request.js:76-86 | a 2xx JSON answer with GraphQL errors is returned unchanged, with exactly one pop-up per error |
| Request.UnnamedFailuresStay | src/utils/request.js:87-107 | a network failure or a body that is not JSON leaves the page where it is |
| ListScreen.RenderPage | src/routes/ServiceReferenceMetric/ServiceReferenceMetric.js:205-215 | no pager exactly when total is below 1; otherwise page and size come from the saved paging, or are 1 and 20 |
| ListScreen.ToTableChange | src/routes/ServiceReferenceMetric/ServiceReferenceMetric.js:227-232 | a size change goes to page 1 with the new size, and a page change keeps the size it is given |
| ListScreen.WithPaging | src/routes/ServiceReferenceMetric/ServiceReferenceMetric.js:240-247 | the saved values are the old values with only `paging` replaced, by the new page, size and needTotal true |
| ListScreen.SizeChangeRestartsAtFirstPage | src/routes/AlarmContact/AlarmContact.js:119-124 | after a size change, the pager shows page 1 at the new size, whatever page was showing |
| ListScreen.PageChangeKeepsSize | src/routes/applicationManager/applicationManager.js:118-120 | after a page change, the pager shows the new page at the size it already showed |
| ListScreen.PagesContiguous | src/routes/AlarmContact/AlarmContact.js:159 | the first row of the next page is numbered right after the last row of this page |
| ListScreen.RowNumberPlacement | src/routes/applicationManager/applicationManager.js:156 | on a proper page every row number is at least 1, and it gives back the page and the position it was shown at |
| ListScreen.RowOfPlacement | src/routes/ServiceReferenceMetric/ServiceReferenceMetric.js:267 | every positive number is the row number of exactly one position of one page |
| ListScreen.RowNumbersDistinct | src/routes/AlarmContact/AlarmContact.js:159 | two rows of pages of the same size share a number only when they are the same row of the same page |
| ListScreen.Validate | src/routes/ServiceReferenceMetric/ServiceReferenceMetric.js:312-313 | the form's values are handed on exactly when every required field is filled in |
| ListScreen.ValidateOne | src/routes/ServiceReferenceMetric/ServiceReferenceMetric.js:312-313 | a form with one required field passes exactly when that field is filled in |
| ListScreen.ValidateUnion | src/routes/ServiceReferenceMetric/ServiceReferenceMetric.js:312-313 | a form passes two groups of rules together exactly when it passes each group on its own |
| ListScreen.DurationInput | src/routes/ServiceReferenceMetric/ServiceReferenceMetric.js:258 | reading `values.duration.input` throws exactly when there is no duration, and gives the duration's query form for a duration object |
| ListScreen.DurationInputKeepsWindow | src/routes/ServiceReferenceMetric/ServiceReferenceMetric.js:258 | two durations give the same query form exactly when they are the same window |
| ListScreen.Without | src/routes/ServiceReferenceMetric/ServiceReferenceMetric.js:256-257 | deleting properties removes exactly those keys and keeps every other value |
| ModelKit.Subscribe | src/models/serviceReferenceMetric.js:128-143 | the subscription acts only on its own pathname with a state object; labels are forwarded and every value is kept except `queryOrder`, which is the state's own or `BY_TIME_BUCKET` when that is undefined |
| ModelKit.ValuesOrderIgnored | src/models/serviceReferenceMetric.js:132-136 | a `queryOrder` inside the state's values never changes what is dispatched |
| ModelKit.InitialValues | src/models/serviceReferenceMetric.js:87-99 | the default values are a window from fifteen minutes before now up to now, and the time-bucket order |
| ModelKit.InitialWindowFollowsClock | src/models/serviceReferenceMetric.js:87-99 | two starts give the same fifteen-minute window shifted by the time between them, and equal values exactly when they start at the same instant |
| ModelKit.MutationNotice | src/models/alarmContact.js:155-163 | a mutation's pop-up is a success exactly when `errCode` is the number 0 |
| ModelKit.RunConcat | src/models/alarmContact.js:142-241 | dispatching two batches in turn is dispatching their concatenation: the second starts from the state the first left, and the pop-ups keep their order |
| AlarmContactModel.SaveSpans | src/models/alarmContact.js:143-152 | only the contact list is replaced |
| AlarmContactModel.EditorClosed | src/models/alarmContact.js:164-171 | the editor is closed and its user reset to `{}`; the list and the variables are kept |
| AlarmContactModel.AddData | src/models/alarmContact.js:153-172 | the editor closes and its user resets whatever the errCode; the pop-up is 添加成功 exactly when errCode is 0, and 添加失败 otherwise |
| AlarmContactModel.EditData | src/models/alarmContact.js:173-192 | as for add, with 修改成功 and 修改失败 |
| AlarmContactModel.DeleteData | src/models/alarmContact.js:193-210 | the state is unchanged; the pop-up is 删除成功 exactly when errCode is 0, and 删除失败 otherwise |
| AlarmContactModel.SetEditorShown | src/models/alarmContact.js:211-230 | showing or hiding the editor sets only the dialog flag |
| AlarmContactModel.EditorFlagLastWins | src/models/alarmContact.js:211-230 | showing and hiding are idempotent, and the last one wins |
| AlarmContactModel.AddEditorUser | src/models/alarmContact.js:231-240 | the editor's user becomes exactly the given user, and nothing else changes |
| AlarmContactModel.AnswersCloseEditorAlike | src/models/alarmContact.js:153-192 | add and edit answers leave the same state, whatever either errCode is |
| AlarmContactModel.Reduce | src/models/alarmContact.js:142-241 | no reducer touches the variables and only the three mutation reducers show pop-ups; an add answer without data throws, and every other answer, taken as parsed, is reduced |
| AlarmContactModel.AfterMutation | src/models/alarmContact.js:114-140 | edit and delete dispatch nothing without `data`; add dispatches whatever came back |
| AlarmContactModel.MissingDataOutcome | src/models/alarmContact.js:114-140 | without `data`, an edit or a delete leaves the state and shows nothing, while an add throws in its reducer |
| AlarmContactModel.AnsweredMutationNotifies | src/models/alarmContact.js:121-140 | with `data`, every mutation shows exactly one pop-up, whose kind follows errCode |
| AlarmContactModel.Subscription | src/models/alarmContact.js:242-256 | the subscription fires exactly on `/alarmContact` with a state object; the labels are forwarded, every value other than `queryOrder` is forwarded unchanged, and `queryOrder` is the state's own or, when that is undefined, the time-bucket order |
| ApplicationManagerModel.InitialDataIsBlank | src/models/applicationManager.js:69-78 | the initial state has the editor hidden, empty contact and id lists, and an edit id that OK treats as empty |
| ApplicationManagerModel.Ids | src/models/applicationManager.js:157 | the id projection has the same length and order as the contacts |
| ApplicationManagerModel.IdsConcat | src/models/applicationManager.js:157 | the id projection of a concatenation is the concatenation of the projections |
| ApplicationManagerModel.SaveSpans | src/models/applicationManager.js:130-139 | only the application list is replaced |
| ApplicationManagerModel.AlarmData | src/models/applicationManager.js:140-149 | only the list of all contacts is replaced |
| ApplicationManagerModel.SelectAlarmData | src/models/applicationManager.js:150-160 | the assigned contacts are replaced, and their ids are set to the id projection with the same length and order; nothing else changes |
| ApplicationManagerModel.SetEditApplication | src/models/applicationManager.js:161-170 | only the edited application's id is set |
| ApplicationManagerModel.EditorSelectId | src/models/applicationManager.js:171-180 | only the selected ids are replaced |
| ApplicationManagerModel.SetEditorShown | src/models/applicationManager.js:200-219 | showing or hiding the editor sets only the dialog flag |
| ApplicationManagerModel.SelectionResyncs | src/models/applicationManager.js:150-180 | a fresh load of assigned contacts overrides ids picked before it |
| ApplicationManagerModel.EidtDataAsWritten | src/models/applicationManager.js:181-199 | the dialog closes whatever errCode is; the pop-up kind follows errCode, but its text is 设置成功 in both branches |
| ApplicationManagerModel.FailureReportedAsSuccess | src/models/applicationManager.js:187-191 | a rejected assignment shows an error pop-up saying 设置成功 |
| ApplicationManagerModel.EidtData | src/models/applicationManager.js:181-199 | the dialog closes whatever errCode is, and the pop-up says success exactly when errCode is 0 |
| ApplicationManagerModel.EidtDataAgreesOnSuccess | src/models/applicationManager.js:183-186 | the corrected reducer agrees with the written one when the assignment succeeded |
| ApplicationManagerModel.Reduce | src/models/applicationManager.js:129-220 | given a parsed answer, no reducer touches the variables; only the assignment answer shows a pop-up, whose kind follows `errCode` and whose text is 设置成功 in both branches, as written |
| ApplicationManagerModel.Subscription | src/models/applicationManager.js:221-236 | the subscription fires exactly on `/applicationManager` with a state object; the labels are forwarded, every value other than `queryOrder` is forwarded unchanged, and `queryOrder` is the state's own or, when that is undefined, the time-bucket order |
| ServiceReferenceMetricModel.SaveSpans | src/models/serviceReferenceMetric.js:117-126 | only the metric brief is replaced |
| ServiceReferenceMetricModel.LatestBriefWins | src/models/serviceReferenceMetric.js:117-126 | saving twice keeps only the latest brief |
| ServiceReferenceMetricModel.Subscription | src/models/serviceReferenceMetric.js:128-143 | the subscription fires exactly on `/serviceReferenceMetric` with a state object; the labels are forwarded, every value other than `queryOrder` is forwarded unchanged, and `queryOrder` is the state's own or, when that is undefined, the time-bucket order |
| AlarmContactScreen.EditorAlarm | src/routes/AlarmContact/AlarmContact.js:84-95 | update mode exactly when `type` is not the number 0; the editor opens and its user becomes the given row, or undefined when adding |
| AlarmContactScreen.ContactFields | src/routes/AlarmContact/AlarmContact.js:261-273 | the payload holds exactly the three contact fields, taken from the form |
| AlarmContactScreen.HandleOk | src/routes/AlarmContact/AlarmContact.js:251-281 | nothing is sent while a dialog field is empty; otherwise update mode sends the editor user's id with the three fields, and add mode sends the three fields without an id |
| AlarmContactScreen.FetchVariables | src/routes/AlarmContact/AlarmContact.js:230-243 | the fetch sends only the keyword and a copy of the paging |
| AlarmContactScreen.FetchIgnoresOtherFields | src/routes/AlarmContact/AlarmContact.js:236-239 | two conditions with the same keyword fetch the same thing |
| AlarmContactScreen.HandleSearch | src/routes/AlarmContact/AlarmContact.js:209-228 | a valid search saves the form fields with the paging reset to page 1 of 20, and fetches the keyword with that paging |
| AlarmContactScreen.SearchFetchesWhatItSaves | src/routes/AlarmContact/AlarmContact.js:209-243 | a search fetches exactly what fetching from the values it saved would send, and the pager then shows page 1 of 20 |
| AlarmContactScreen.HandleTableChange | src/routes/AlarmContact/AlarmContact.js:130-151 | the values are saved with the new paging, and the keyword is fetched with it; the fetch does not happen when there is no duration to read |
| AlarmContactScreen.TableChangeShowsNewPage | src/routes/AlarmContact/AlarmContact.js:97-151 | after a table change the pager shows the page and size asked for, and the fetch asks for the paging that was saved |
| AlarmContactScreen.EditRowThenOk | src/routes/AlarmContact/AlarmContact.js:251-276 | opening a row for editing and confirming a filled dialog sends an edit carrying that row's id |
| AlarmContactScreen.AddThenOk | src/routes/AlarmContact/AlarmContact.js:267-276 | adding from the toolbar and confirming sends an add without an id |
| ApplicationManagerScreen.HandleOk | src/routes/applicationManager/applicationManager.js:265-280 | the selected ids are sent for the edited application exactly when its id is not loosely equal to '' ('' , 0 and false count as empty); otherwise the dialog is only hidden |
| ApplicationManagerScreen.OpenEditor | src/routes/applicationManager/applicationManager.js:187-221 | a row button shows the dialog, sets the given edit id, and then requests that row's assigned contacts |
| ApplicationManagerScreen.HandleAlarmDetail | src/routes/applicationManager/applicationManager.js:187-203 | the detail button opens the dialog with an edit id that OK treats as empty, and requests the row's contacts |
| ApplicationManagerScreen.EditorAlarm | src/routes/applicationManager/applicationManager.js:205-221 | the edit button opens the dialog editing the row's id, and requests the contacts of that same id |
| ApplicationManagerScreen.DetailDiffersFromEditOnlyInId | src/routes/applicationManager/applicationManager.js:187-221 | the two row buttons dispatch the same actions except for the edit id |
| ApplicationManagerScreen.HandleChange | src/routes/applicationManager/applicationManager.js:282-289 | the transfer change dispatches one reducer action carrying the target keys |
| ApplicationManagerScreen.ChangeSelectsTargets | src/routes/applicationManager/applicationManager.js:282-289 | after a transfer change the selected ids are the target keys, and nothing else in the state changes |
| ApplicationManagerScreen.FetchVariables | src/routes/applicationManager/applicationManager.js:244-257 | the fetch sends only the application code and a copy of the paging |
| ApplicationManagerScreen.FetchIgnoresOtherFields | src/routes/applicationManager/applicationManager.js:249-254 | two conditions with the same application code fetch the same thing |
| ApplicationManagerScreen.HandleSearch | src/routes/applicationManager/applicationManager.js:223-242 | a valid search saves the form fields with the paging reset to page 1 of 20, and fetches the application code with that paging |
| ApplicationManagerScreen.SearchFetchesWhatItSaves | src/routes/applicationManager/applicationManager.js:223-257 | a search fetches exactly what fetching from the values it saved would send, and the pager then shows page 1 of 20 |
| ApplicationManagerScreen.HandleTableChange | src/routes/applicationManager/applicationManager.js:129-148 | every value, the duration included, is saved with the new paging, and the application code is fetched with it once the duration can be read |
| ApplicationManagerScreen.TableChangeShowsNewPage | src/routes/applicationManager/applicationManager.js:96-148 | after a table change the pager shows the page and size asked for, and the fetch asks for the paging that was saved |
| ApplicationManagerScreen.OpenEditorState | src/routes/applicationManager/applicationManager.js:187-221 | opening a row shows the dialog and sets the edit id; the contact request leaves the state until it is answered |
| ApplicationManagerScreen.DetailThenOkOnlyHides | src/routes/applicationManager/applicationManager.js:187-203 | after viewing a row's contacts, OK only hides the dialog, whatever ids were picked |
| ApplicationManagerScreen.EditPickThenOkSubmits | src/routes/applicationManager/applicationManager.js:205-289 | editing a row, picking contacts and confirming sends exactly the picked ids for that row's application |
| ApplicationManagerScreen.ZeroIdCannotBeEdited | src/routes/applicationManager/applicationManager.js:267 | an application whose id is the number 0 can never be assigned contacts, because OK treats it like the read-only view |
| ServiceReferenceMetricScreen.Search | src/routes/ServiceReferenceMetric/ServiceReferenceMetric.js:318-328 | a search saves the condition with the duration and page 1 of 20, and fetches it with the duration's query form and the same paging, keeping every other property |
| ServiceReferenceMetricScreen.HandleSearch | src/routes/ServiceReferenceMetric/ServiceReferenceMetric.js:307-329 | a search runs exactly when a range is picked, on the form without the range field and on the picked window |
| ServiceReferenceMetricScreen.SearchKeepsFields | src/routes/ServiceReferenceMetric/ServiceReferenceMetric.js:314-328 | the saved values are the form's fields with the range replaced by the duration plus the paging; the fetch carries the window's query form and page 1 of 20 |
| ServiceReferenceMetricScreen.SearchFetchesOtherFields | src/routes/ServiceReferenceMetric/ServiceReferenceMetric.js:314-328 | every form field except the range reaches the fetch unchanged |
| ServiceReferenceMetricScreen.SearchSavesOtherFields | src/routes/ServiceReferenceMetric/ServiceReferenceMetric.js:314-327 | every form field except the range is saved unchanged |
| ServiceReferenceMetricScreen.WithDuration | src/routes/ServiceReferenceMetric/ServiceReferenceMetric.js:321-328 | spreading a duration and the paging over a condition adds exactly those two keys and keeps every other property |
| ServiceReferenceMetricScreen.HandleTableChange | src/routes/ServiceReferenceMetric/ServiceReferenceMetric.js:238-259 | the values are saved with the new paging and the duration kept; the fetched condition drops the duration and the application id and adds the duration's query form and the paging |
| ServiceReferenceMetricScreen.TableChangeShowsNewPage | src/routes/ServiceReferenceMetric/ServiceReferenceMetric.js:205-261 | after a table change the pager shows the page and size asked for; the fetch asks for the saved paging and for the query form of the saved duration |
| ServiceReferenceMetricScreen.HandleFrontChange | src/routes/ServiceReferenceMetric/ServiceReferenceMetric.js:78-81 | choosing a caller remembers it and resets the provider field to '0' |
| ServiceReferenceMetricScreen.FrontChangeDisablesItself | src/routes/ServiceReferenceMetric/ServiceReferenceMetric.js:140-160 | after choosing a caller, the only disabled provider option is that application, and no caller option is ever disabled |
| ServiceReferenceMetricScreen.CallerDisabled | src/routes/ServiceReferenceMetric/ServiceReferenceMetric.js:140 | no caller option is ever disabled, since both branches of the test give false |
| ServiceReferenceMetricScreen.ProviderDisabled | src/routes/ServiceReferenceMetric/ServiceReferenceMetric.js:160 | a provider option is disabled exactly when its key is strictly equal to the remembered caller |
| ServiceReferenceMetricScreen.MirrorFields | src/routes/ServiceReferenceMetric/ServiceReferenceMetric.js:37-52 | every saved value except the range goes back into its field, and the range field is set from the duration's start and end exactly when a duration is saved |
| ServiceReferenceMetricScreen.MirrorRestoresForm | src/routes/ServiceReferenceMetric/ServiceReferenceMetric.js:37-52 | values holding every field but the range, and a duration for the range's window, mirror back into exactly those fields |
| ServiceReferenceMetricScreen.SearchThenMirror | src/routes/ServiceReferenceMetric/ServiceReferenceMetric.js:37-52 | after a search, the mirror of the saved values gives the form back the picked range and every submitted field |

## Left out

- JSX rendering, antd widgets and styles are left out. Only the values the
  screens compute are modelled.
- `fetch`, the GraphQL `query` service and the dva generator effects are
  network I/O. Their answers are inputs, and what the screens and effects
  dispatch is returned.
- Pop-ups, redirects and clearing the stored authority are returned as
  values. The parent origin in the redirect URL is not modelled.
- The `setTimeout` re-searches after OK and delete are timing only.
- React's asynchronous `setState` and the batching of `onSelected` calls are
  framework behaviour. Mount merges the persisted range over the selection
  as it was when the panel mounted.
- Time zones and calendar months are not modelled:
  - a day is a fixed number of milliseconds from the epoch;
  - a month is taken as 30 days.
- Topology.NameMatches: a regular-expression match is a parameter, not
  JavaScript regular-expression semantics.
- ListScreen.RenderPage: a truthy `paging` that is not a paging object is
  excluded by its requires. The source would render `undefined` page
  numbers.
- ServiceReferenceMetricScreen.MirrorFields: a truthy `duration` that is not
  a duration object is excluded by its requires. The source would throw
  reading `raw`.
- DurationPanel.BuildSubmission: a truthy range that is not a picked pair is
  excluded by its requires.
- ServiceReferenceMetricScreen.HandleSearch: the same exclusion applies to
  its range field.
- AlarmContactScreen.HandleOk: its requires excludes update mode with an
  undefined editor user. Reading `id` of it would throw.
- Request.Request: these cases are left out:
  - a JSON body that is `null` (destructuring it throws a `TypeError`, which
    stays on the page);
  - an `errors` value that is truthy but not a list.
- AlarmContactModel.Reduce, ApplicationManagerModel.Reduce: these reducers
  read `payload.data.<field>`, and their effects put the answer without a
  guard:
  - `fetchSpans` in all three models (src/models/alarmContact.js:109-111,
    src/models/serviceReferenceMetric.js:110-112 and the same effect in
    src/models/applicationManager.js:100-105);
  - all four effects of src/models/applicationManager.js:100-125.

  When such an answer is undefined (a request that failed), the read throws.
  The model takes these answers already parsed, so it does not promise
  anything about that throw. It models the throw only for the add answer
  of the alarm-contact model.
- `saveVariables`, `initVariables`, `fetchData` and `initOptions` belong to
  the shared model builder, which is not part of this model. The screens
  return the payloads they dispatch.
- `generateDuration` is not part of this model. A duration is its raw
  window, and its `input` is the query form of that window.
- `src/index.js` (bootstrap and authentication handshake) and
  `TraceStackService.java` (an HTTP wrapper) hold no rule to model.
- Handlers with no rule of their own are not modelled: `deleteAlarm`,
  `handleCancel`, `handleBehindChange` and the layout change. They only
  dispatch fixed actions.

## Findings

| source | as written | input that shows it | evidently intended | confidence | as-written member | corrected member |
|---|---|---|---|---|---|---|
| src/models/applicationManager.js:187-190 | the error branch of `eidtData` shows 设置成功 ("set successfully") | an answer with `errCode` 1 shows an error pop-up reading 设置成功 | a failure text such as 设置失败, as the other mutations use 添加失败, 修改失败 and 删除失败 | not executed | ApplicationManagerModel.FailureReportedAsSuccess | ApplicationManagerModel.EidtData |
