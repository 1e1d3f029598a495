/** The application-manager list screen: the detail and edit buttons of a
    row, the editor's OK and transfer handlers, the search, the pager and
    the query it fetches. */
module ApplicationManagerScreen {
  import opened Wrappers
  import opened Values
  import opened ModelKit
  import opened ListScreen
  import M = ApplicationManagerModel

  datatype Dispatch =
    | Reducer(action: M.Action)
    | SaveVariables(values: Record)
    | FetchData(variables: Record)
    | FetchSelectAlarm(applicationId: Value)
    | FetchEdit(alarmContactIds: seq<Value>, applicationId: Value)

  /** Reducer actions reduce; requests leave the state until answered. */
  function ReduceDispatch(s: M.State, d: Dispatch): Option<Step<M.Data>> {
    if d.Reducer? then M.Reduce(s, d.action) else Some(Step(s, []))
  }

  function Apply(s: M.State, ds: seq<Dispatch>): Option<Step<M.Data>> {
    Run(s, ds, ReduceDispatch)
  }

  /** Opening the dialog for a row: shown, with the given edit id, and the
      row's assigned contacts requested. */
  function OpenEditor(app: M.Application, editId: Value): (ds: seq<Dispatch>)
    ensures |ds| == 3 && ds[0] == Reducer(M.OnShowEditor)
    ensures ds[1] == Reducer(M.OnSetEditApplication(editId))
    ensures ds[2] == FetchSelectAlarm(app.id)
  {
    [Reducer(M.OnShowEditor), Reducer(M.OnSetEditApplication(editId)), FetchSelectAlarm(app.id)]
  }

  /** `handleAlarmDetail`: the dialog as a read-only view (no edit id). */
  function HandleAlarmDetail(app: M.Application): (ds: seq<Dispatch>)
    ensures |ds| == 3 && ds[0] == Reducer(M.OnShowEditor)
    ensures ds[1].Reducer? && ds[1].action.OnSetEditApplication? && LooselyEmpty(ds[1].action.applicationId)
    ensures ds[2] == FetchSelectAlarm(app.id)
  {
    OpenEditor(app, Str(""))
  }

  /** `editorAlarm`: the dialog editing the row's application. */
  function EditorAlarm(app: M.Application): (ds: seq<Dispatch>)
    ensures |ds| == 3 && ds[0] == Reducer(M.OnShowEditor)
    ensures ds[1] == Reducer(M.OnSetEditApplication(app.id))
    ensures ds[2] == FetchSelectAlarm(ds[1].action.applicationId)
  {
    OpenEditor(app, app.id)
  }

  /** `handleOk`: with an edit id that is not loosely equal to '' (so not
      '', 0 or false), the selected ids are submitted for it; otherwise the
      dialog is only closed. */
  function HandleOk(data: M.Data): (ds: seq<Dispatch>)
    ensures |ds| == 1
    ensures ds[0].FetchEdit? <==> !LooselyEmpty(data.editApplicationId)
    ensures ds[0].FetchEdit? ==>
      ds[0].alarmContactIds == data.loadApplicationAlarmContactId && ds[0].applicationId == data.editApplicationId
    ensures !ds[0].FetchEdit? ==> ds[0] == Reducer(M.OnHideEditor)
  {
    if !LooselyEmpty(data.editApplicationId) then
      [FetchEdit(data.loadApplicationAlarmContactId, data.editApplicationId)]
    else [Reducer(M.OnHideEditor)]
  }

  /** `handleChange`: the transfer's target keys become the selected ids. */
  function HandleChange(targetKeys: seq<Value>): (ds: seq<Dispatch>)
    ensures |ds| == 1 && ds[0].Reducer? && ds[0].action.OnEditorSelectId?
    ensures ds[0].action.ids == targetKeys
  {
    [Reducer(M.OnEditorSelectId(targetKeys))]
  }

  /** `fetchData`: only the application code and a copy of the paging are
      sent. */
  function FetchVariables(condition: Record, paging: Paging): (r: Record)
    ensures r.Keys == {"applicationCode", "paging"}
    ensures r["applicationCode"] == Get(condition, "applicationCode") && r["paging"] == Pg(paging)
  {
    map["applicationCode" := Get(condition, "applicationCode"), "paging" := Pg(paging)]
  }

  /** `handleSearch`, with the required fields currently on the form. */
  function HandleSearch(fields: Record, required: set<string>): (ds: seq<Dispatch>)
    ensures ds == [] <==> exists k :: k in required && !FilledIn(Get(fields, k))
    ensures ds != [] ==> |ds| == 2 && ds[0].SaveVariables? && ds[1].FetchData?
    ensures ds != [] ==> ds[0].values == fields["paging" := Pg(InitPaging)]
    ensures ds != [] ==>
      ds[1].variables == map["applicationCode" := Get(fields, "applicationCode"), "paging" := Pg(InitPaging)]
  {
    match Validate(fields, required)
    case None => []
    case Some(valid) =>
      assert Spread(valid, map["paging" := Pg(InitPaging)]) == valid["paging" := Pg(InitPaging)];
      [SaveVariables(Spread(valid, map["paging" := Pg(InitPaging)])), FetchData(FetchVariables(valid, InitPaging))]
  }

  /** `handleTableChange`: every value, the duration included, is saved
      with the new paging; the fetch, which needs `values.duration.input`
      to be readable, sends the application code and that paging. */
  function HandleTableChange(values: Record, tc: TableChange): (ds: seq<Dispatch>)
    ensures 1 <= |ds| <= 2 && ds[0] == SaveVariables(WithPaging(values, tc))
    ensures ds[0].values.Keys == values.Keys + {"paging"}
    ensures |ds| == 2 <==> DurationInput(Get(values, "duration")).Some?
    ensures |ds| == 2 ==> ds[1] == FetchData(map[
      "applicationCode" := Get(values, "applicationCode"),
      "paging" := Pg(Paging(tc.current, tc.pageSize, true))])
  {
    var condition := WithPaging(values, tc);
    var saved := SaveVariables(condition);
    match DurationInput(Get(values, "duration"))
    case None => [saved]
    case Some(input) =>
      var query := condition["queryDuration" := input];
      assert Get(query, "applicationCode") == Get(values, "applicationCode");
      [saved, FetchData(FetchVariables(query, condition["paging"].paging))]
  }

  /** The state after the first two dispatches of `OpenEditor`. */
  lemma OpenEditorState(s: M.State, app: M.Application, editId: Value)
    ensures var r := Apply(s, OpenEditor(app, editId));
      r == Some(Step(M.SetEditApplication(M.SetEditorShown(s, true), editId), []))
  {
    var ds := OpenEditor(app, editId);
    var s1 := M.SetEditorShown(s, true);
    var s2 := M.SetEditApplication(s1, editId);
    assert ds == [ds[0]] + ([ds[1]] + [ds[2]]);
    RunConcat(s, [ds[0]], [ds[1]] + [ds[2]], ReduceDispatch);
    RunConcat(s1, [ds[1]], [ds[2]], ReduceDispatch);
    RunOne(s, ds[0], ReduceDispatch);
    RunOne(s1, ds[1], ReduceDispatch);
    RunOne(s2, ds[2], ReduceDispatch);
  }

  /** After viewing a row's contacts, OK only closes the dialog: nothing is
      submitted, whatever ids are selected. */
  lemma DetailThenOkOnlyHides(s: M.State, app: M.Application, targetKeys: seq<Value>)
    ensures var r := Apply(s, HandleAlarmDetail(app) + HandleChange(targetKeys));
      r.Some? && r.value.state.data.showEditor &&
      HandleOk(r.value.state.data) == [Reducer(M.OnHideEditor)]
  {
    OpenEditorState(s, app, Str(""));
    var s2 := M.SetEditApplication(M.SetEditorShown(s, true), Str(""));
    RunConcat(s, HandleAlarmDetail(app), HandleChange(targetKeys), ReduceDispatch);
    RunOne(s2, HandleChange(targetKeys)[0], ReduceDispatch);
  }

  /** Editing a row, picking contacts in the transfer and confirming
      submits exactly the picked ids for that row's application, when its
      id is not loosely empty. */
  lemma EditPickThenOkSubmits(s: M.State, app: M.Application, targetKeys: seq<Value>)
    requires !LooselyEmpty(app.id)
    ensures var r := Apply(s, EditorAlarm(app) + HandleChange(targetKeys));
      r.Some? && HandleOk(r.value.state.data) == [FetchEdit(targetKeys, app.id)]
  {
    OpenEditorState(s, app, app.id);
    var s2 := M.SetEditApplication(M.SetEditorShown(s, true), app.id);
    RunConcat(s, EditorAlarm(app), HandleChange(targetKeys), ReduceDispatch);
    RunOne(s2, HandleChange(targetKeys)[0], ReduceDispatch);
  }

  /** An application whose id is the number 0 can never be assigned
      contacts: its edit dialog behaves like the read-only view. */
  lemma ZeroIdCannotBeEdited(s: M.State, app: M.Application, targetKeys: seq<Value>)
    requires app.id == Num(0)
    ensures var r := Apply(s, EditorAlarm(app) + HandleChange(targetKeys));
      r.Some? && HandleOk(r.value.state.data) == [Reducer(M.OnHideEditor)]
  {
    OpenEditorState(s, app, app.id);
    var s2 := M.SetEditApplication(M.SetEditorShown(s, true), app.id);
    RunConcat(s, EditorAlarm(app), HandleChange(targetKeys), ReduceDispatch);
    RunOne(s2, HandleChange(targetKeys)[0], ReduceDispatch);
  }

  /** The two row buttons differ only in the edit id: both show the dialog
      and request the same row's contacts. */
  lemma DetailDiffersFromEditOnlyInId(app: M.Application)
    ensures HandleAlarmDetail(app) == EditorAlarm(app)[1 := Reducer(M.OnSetEditApplication(Str("")))]
  {
  }

  /** Moving contacts in the transfer replaces the selected ids by the
      target keys and changes nothing else. */
  lemma ChangeSelectsTargets(s: M.State, targetKeys: seq<Value>)
    ensures var r := Apply(s, HandleChange(targetKeys));
      && r == Some(Step(M.EditorSelectId(s, targetKeys), []))
      && r.value.state.data.loadApplicationAlarmContactId == targetKeys
  {
    RunOne(s, HandleChange(targetKeys)[0], ReduceDispatch);
  }

  /** No condition field other than the application code reaches the
      query. */
  lemma FetchIgnoresOtherFields(a: Record, b: Record, paging: Paging)
    requires Get(a, "applicationCode") == Get(b, "applicationCode")
    ensures FetchVariables(a, paging) == FetchVariables(b, paging)
  {
  }

  /** A search fetches what fetching from the values it saves would send,
      and the pager then shows page 1 of 20. */
  lemma SearchFetchesWhatItSaves(fields: Record, required: set<string>, total: int)
    requires total >= 1
    ensures var ds := HandleSearch(fields, required);
      ds != [] ==>
        && ds[1].variables == FetchVariables(ds[0].values, InitPaging)
        && RenderPage(ds[0].values, total) == Some(PagerView(1, 20, total))
  {
  }

  /** After a table change the pager shows the page and size asked for,
      and the fetch, when it happens, asks for the paging that was saved. */
  lemma TableChangeShowsNewPage(values: Record, tc: TableChange, total: int)
    requires total >= 1
    ensures var ds := HandleTableChange(values, tc);
      && RenderPage(ds[0].values, total) == Some(PagerView(tc.current, tc.pageSize, total))
      && (|ds| == 2 ==> ds[1].variables == FetchVariables(ds[0].values, ds[0].values["paging"].paging))
  {
  }
}
