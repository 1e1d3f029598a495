/** The alarm-contact list screen: the editor dialog's open and OK
    handlers, the keyword search, the pager and the query it fetches. */
module AlarmContactScreen {
  import opened Wrappers
  import opened Values
  import opened ModelKit
  import opened ListScreen
  import M = AlarmContactModel

  /** What the screen dispatches: an action for a reducer, or a request
      to an effect or to the shared variable store. */
  datatype Dispatch =
    | Reducer(action: M.Action)
    | SaveVariables(values: Record)
    | FetchData(variables: Record)
    | FetchAddAlarm(payload: Record)
    | FetchEditAlarm(payload: Record)

  /** How the screen's dispatches move the model: reducer actions reduce,
      requests leave the state until their answer comes back. */
  function ReduceDispatch(s: M.State, d: Dispatch): Option<Step<M.Data>> {
    if d.Reducer? then M.Reduce(s, d.action) else Some(Step(s, []))
  }

  function Apply(s: M.State, ds: seq<Dispatch>): Option<Step<M.Data>> {
    Run(s, ds, ReduceDispatch)
  }

  /** The fields of the editor dialog, each with a `required` rule. */
  const EditorFields := {"realName", "phoneNumber", "email"}

  /** The dialog opened by `editorAlarm(type, user)`: whether it edits,
      and what it dispatches. */
  datatype Opened = Opened(isUpdate: bool, dispatched: seq<Dispatch>)

  /** Opening the editor: update mode exactly when `type` is not the
      number 0; the dialog is shown and its user becomes the given row
      (undefined when adding). */
  function EditorAlarm(kind: Value, user: Option<M.Contact>): (o: Opened)
    ensures o.isUpdate <==> kind != Num(0)
    ensures |o.dispatched| == 2 && o.dispatched[0] == Reducer(M.OnShowEditor)
    ensures o.dispatched[1].Reducer? && o.dispatched[1].action.OnAddEditorUser?
    ensures user.None? ==> o.dispatched[1].action.user == M.NoUser
    ensures user.Some? ==> o.dispatched[1].action.user == M.Editing(user.value)
  {
    var editing := if user.Some? then M.Editing(user.value) else M.NoUser;
    Opened(kind != Num(0), [Reducer(M.OnShowEditor), Reducer(M.OnAddEditorUser(editing))])
  }

  /** The three contact fields of a form. */
  function ContactFields(fields: Record): (r: Record)
    ensures r.Keys == EditorFields
    ensures forall k :: k in EditorFields ==> r[k] == Get(fields, k)
  {
    map["realName" := Get(fields, "realName"), "email" := Get(fields, "email"),
        "phoneNumber" := Get(fields, "phoneNumber")]
  }

  /** The `id` of the editor's user: undefined on the empty object. */
  function UserId(user: M.EditorUser): Value
    requires !user.NoUser?
  {
    if user.Editing? then user.contact.id else Undefined
  }

  /** `handleOk`: nothing while a dialog field is empty; otherwise an edit
      carrying the user's id in update mode, an add without one otherwise.
      In update mode the editor holds an object (reading `id` of undefined
      would throw). */
  function HandleOk(isUpdate: bool, editorUser: M.EditorUser, fields: Record): (ds: seq<Dispatch>)
    requires isUpdate ==> !editorUser.NoUser?
    ensures ds == [] <==> exists k :: k in EditorFields && !FilledIn(Get(fields, k))
    ensures ds != [] && isUpdate ==> ds == [FetchEditAlarm(ContactFields(fields)["id" := UserId(editorUser)])]
    ensures ds != [] && !isUpdate ==> ds == [FetchAddAlarm(ContactFields(fields))]
    ensures ds != [] && !isUpdate ==> "id" !in ds[0].payload
  {
    match Validate(fields, EditorFields)
    case None => []
    case Some(valid) =>
      if isUpdate then [FetchEditAlarm(ContactFields(valid)["id" := UserId(editorUser)])]
      else [FetchAddAlarm(ContactFields(valid))]
  }

  /** `fetchData`: only the keyword and a copy of the paging are sent. */
  function FetchVariables(condition: Record, paging: Paging): (r: Record)
    ensures r.Keys == {"keyword", "paging"}
    ensures r["keyword"] == Get(condition, "keyword") && r["paging"] == Pg(paging)
  {
    map["keyword" := Get(condition, "keyword"), "paging" := Pg(paging)]
  }

  /** No condition field other than the keyword reaches the query. */
  lemma FetchIgnoresOtherFields(a: Record, b: Record, paging: Paging)
    requires Get(a, "keyword") == Get(b, "keyword")
    ensures FetchVariables(a, paging) == FetchVariables(b, paging)
  {
  }

  /** `handleSearch`, with the required fields currently on the form: the
      form values are saved with the paging back at the first page, and
      the keyword is fetched from there. */
  function HandleSearch(fields: Record, required: set<string>): (ds: seq<Dispatch>)
    ensures ds == [] <==> exists k :: k in required && !FilledIn(Get(fields, k))
    ensures ds != [] ==> |ds| == 2 && ds[0].SaveVariables? && ds[1].FetchData?
    ensures ds != [] ==> ds[0].values == fields["paging" := Pg(InitPaging)]
    ensures ds != [] ==> ds[1].variables == map["keyword" := Get(fields, "keyword"), "paging" := Pg(InitPaging)]
  {
    match Validate(fields, required)
    case None => []
    case Some(valid) =>
      assert Spread(valid, map["paging" := Pg(InitPaging)]) == valid["paging" := Pg(InitPaging)];
      [SaveVariables(Spread(valid, map["paging" := Pg(InitPaging)])), FetchData(FetchVariables(valid, InitPaging))]
  }

  /** `handleTableChange`: the values are saved with the new paging; the
      fetch then reads `values.duration.input` and, when that throws, never
      happens. */
  function HandleTableChange(values: Record, tc: TableChange): (ds: seq<Dispatch>)
    ensures 1 <= |ds| <= 2 && ds[0] == SaveVariables(WithPaging(values, tc))
    ensures |ds| == 2 <==> DurationInput(Get(values, "duration")).Some?
    ensures |ds| == 2 ==>
      ds[1] == FetchData(map["keyword" := Get(values, "keyword"), "paging" := Pg(Paging(tc.current, tc.pageSize, true))])
  {
    var condition := WithPaging(values, tc);
    var saved := SaveVariables(condition);
    match DurationInput(Get(values, "duration"))
    case None => [saved]
    case Some(input) =>
      var query := Without(condition, {"duration", "applicationId"})["queryDuration" := input];
      assert Get(query, "keyword") == Get(values, "keyword");
      [saved, FetchData(FetchVariables(query, condition["paging"].paging))]
  }

  /** Opening a row for editing and confirming a filled-in dialog submits
      an edit for that row's id, with the dialog still open until the
      answer closes it. */
  lemma EditRowThenOk(s: M.State, row: M.Contact, fields: Record)
    requires forall k :: k in EditorFields ==> FilledIn(Get(fields, k))
    ensures var o := EditorAlarm(Num(1), Some(row));
      var after := Apply(s, o.dispatched);
      && after.Some?
      && after.value.state.data.showEditor
      && after.value.state.data.editorUser == M.Editing(row)
      && HandleOk(o.isUpdate, after.value.state.data.editorUser, fields)
         == [FetchEditAlarm(ContactFields(fields)["id" := row.id])]
  {
    var o := EditorAlarm(Num(1), Some(row));
    var s1 := M.SetEditorShown(s, true);
    var s2 := M.AddEditorUser(s1, M.Editing(row));
    assert o.dispatched == [o.dispatched[0]] + [o.dispatched[1]];
    RunConcat(s, [o.dispatched[0]], [o.dispatched[1]], ReduceDispatch);
    RunOne(s, o.dispatched[0], ReduceDispatch);
    RunOne(s1, o.dispatched[1], ReduceDispatch);
  }

  /** Adding from the toolbar and confirming submits an add without an
      id. */
  lemma AddThenOk(s: M.State, fields: Record)
    requires forall k :: k in EditorFields ==> FilledIn(Get(fields, k))
    ensures var o := EditorAlarm(Num(0), None);
      var after := Apply(s, o.dispatched);
      && after.Some?
      && HandleOk(o.isUpdate, after.value.state.data.editorUser, fields) == [FetchAddAlarm(ContactFields(fields))]
  {
    var o := EditorAlarm(Num(0), None);
    var s1 := M.SetEditorShown(s, true);
    var s2 := M.AddEditorUser(s1, M.NoUser);
    assert o.dispatched == [o.dispatched[0]] + [o.dispatched[1]];
    RunConcat(s, [o.dispatched[0]], [o.dispatched[1]], ReduceDispatch);
    RunOne(s, o.dispatched[0], ReduceDispatch);
    RunOne(s1, o.dispatched[1], ReduceDispatch);
  }

  /** A search fetches what fetching from the values it saves would send,
      and the pager then shows page 1 of 20. */
  lemma SearchFetchesWhatItSaves(fields: Record, required: set<string>, total: int)
    requires total >= 1
    ensures var ds := HandleSearch(fields, required);
      ds != [] ==>
        && ds[1].variables == FetchVariables(ds[0].values, InitPaging)
        && RenderPage(ds[0].values, total) == Some(PagerView(1, 20, total))
  {
  }

  /** After a table change the pager shows the page and size asked for,
      and the fetch, when it happens, asks for the paging that was saved. */
  lemma TableChangeShowsNewPage(values: Record, tc: TableChange, total: int)
    requires total >= 1
    ensures var ds := HandleTableChange(values, tc);
      && RenderPage(ds[0].values, total) == Some(PagerView(tc.current, tc.pageSize, total))
      && (|ds| == 2 ==> ds[1].variables == FetchVariables(ds[0].values, ds[0].values["paging"].paging))
  {
  }
}
