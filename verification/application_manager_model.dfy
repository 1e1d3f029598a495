/** The application-manager model: the application list, all contacts,
    the contacts assigned to the application in the editor (and their
    ids), the application being edited, the reducers that change them and
    the history subscription. */
module ApplicationManagerModel {
  import opened Wrappers
  import opened Values
  import opened Notifications
  import opened ModelKit
  import AlarmContactModel

  type Contact = AlarmContactModel.Contact

  datatype Application = Application(id: Value, name: Value)

  datatype Data = Data(
    getApplication: Listing<Application>,
    showEditor: bool,
    loadAllAlarmContact: seq<Contact>,
    loadApplicationAlarmContact: seq<Contact>,
    loadApplicationAlarmContactId: seq<Value>,
    editApplicationId: Value)

  type State = ModelState<Data>

  /** The initial data: no applications, the editor hidden, no contacts,
      and no application being edited (the empty string). */
  const InitialData := Data(Placeholder, false, [], [], [], Str(""))

  /** The initial state starts with the editor hidden, nothing selected and
      an edit id the editor's OK treats as "no application". */
  lemma InitialDataIsBlank()
    ensures !InitialData.showEditor
    ensures InitialData.loadAllAlarmContact == [] && InitialData.loadApplicationAlarmContact == []
    ensures InitialData.loadApplicationAlarmContactId == []
    ensures LooselyEmpty(InitialData.editApplicationId)
  {
  }

  datatype Action =
    | OnSaveSpans(applications: Listing<Application>)
    | OnAlarmData(contacts: seq<Contact>)
    | OnSelectAlarmData(selected: seq<Contact>)
    | OnSetEditApplication(applicationId: Value)
    | OnEditorSelectId(ids: seq<Value>)
    | OnEidtData(errCode: Value)
    | OnShowEditor
    | OnHideEditor

  /** The ids of some contacts, in order. */
  function Ids(contacts: seq<Contact>): (ids: seq<Value>)
    ensures |ids| == |contacts|
    ensures forall i :: 0 <= i < |contacts| ==> ids[i] == contacts[i].id
  {
    if |contacts| == 0 then [] else [contacts[0].id] + Ids(contacts[1..])
  }

  /** The id list of a concatenation is the concatenation of id lists. */
  lemma {:induction false} IdsConcat(a: seq<Contact>, b: seq<Contact>)
    ensures Ids(a + b) == Ids(a) + Ids(b)
  {
    if |a| > 0 {
      assert (a + b)[1..] == a[1..] + b;
      IdsConcat(a[1..], b);
    }
  }

  /** `saveSpans`: a new application list; nothing else changes. */
  function SaveSpans(s: State, applications: Listing<Application>): (r: State)
    ensures r.data == s.data.(getApplication := applications)
    ensures r.variables == s.variables
  {
    s.(data := s.data.(getApplication := applications))
  }

  /** `alarmData`: the list of all contacts; nothing else changes. */
  function AlarmData(s: State, contacts: seq<Contact>): (r: State)
    ensures r.data == s.data.(loadAllAlarmContact := contacts)
    ensures r.variables == s.variables
  {
    s.(data := s.data.(loadAllAlarmContact := contacts))
  }

  /** `selectAlarmData`: the contacts assigned to the application and, kept
      in step with them, their ids. */
  function SelectAlarmData(s: State, selected: seq<Contact>): (r: State)
    ensures r.data.loadApplicationAlarmContact == selected
    ensures |r.data.loadApplicationAlarmContactId| == |selected|
    ensures forall i :: 0 <= i < |selected| ==> r.data.loadApplicationAlarmContactId[i] == selected[i].id
    ensures r.data.getApplication == s.data.getApplication && r.data.showEditor == s.data.showEditor
    ensures r.data.loadAllAlarmContact == s.data.loadAllAlarmContact
    ensures r.data.editApplicationId == s.data.editApplicationId
    ensures r.variables == s.variables
  {
    s.(data := s.data.(loadApplicationAlarmContact := selected, loadApplicationAlarmContactId := Ids(selected)))
  }

  /** `setEditApplication`: only the id of the application being edited. */
  function SetEditApplication(s: State, applicationId: Value): (r: State)
    ensures r.data == s.data.(editApplicationId := applicationId)
    ensures r.variables == s.variables
  {
    s.(data := s.data.(editApplicationId := applicationId))
  }

  /** `editorSelectId`: only the selected ids (the contacts are left as
      they were). */
  function EditorSelectId(s: State, ids: seq<Value>): (r: State)
    ensures r.data == s.data.(loadApplicationAlarmContactId := ids)
    ensures r.variables == s.variables
  {
    s.(data := s.data.(loadApplicationAlarmContactId := ids))
  }

  /** `showEditor` and `hideEditor`: only the dialog flag. */
  function SetEditorShown(s: State, shown: bool): (r: State)
    ensures r.data == s.data.(showEditor := shown)
    ensures r.variables == s.variables
  {
    s.(data := s.data.(showEditor := shown))
  }

  /** `eidtData` as the source writes it: the error pop-up carries the
      success text. */
  function EidtDataAsWritten(s: State, errCode: Value): (r: Step<Data>)
    ensures r.state == SetEditorShown(s, false)
    ensures |r.notices| == 1 && r.notices[0].Toast?
    ensures r.notices[0].kind == SuccessKind <==> errCode == Num(0)
    ensures r.notices[0].message == "设置成功"
  {
    Step(SetEditorShown(s, false), [MutationNotice(errCode, "设置成功", "设置成功")])
  }

  /** A rejected assignment is reported as an error that says it
      succeeded. */
  lemma FailureReportedAsSuccess(s: State)
    ensures EidtDataAsWritten(s, Num(1)).notices == [Toast(ErrorKind, "设置成功")]
  {
  }

  /** `eidtData` as evidently intended, with the failure text the other
      mutations use: the dialog closes whatever the answer, and the pop-up
      says success exactly when it is one. */
  function EidtData(s: State, errCode: Value): (r: Step<Data>)
    ensures r.state == SetEditorShown(s, false)
    ensures |r.notices| == 1 && r.notices[0].Toast?
    ensures r.notices[0].kind == SuccessKind <==> errCode == Num(0)
    ensures r.notices[0].message == "设置成功" <==> r.notices[0].kind == SuccessKind
  {
    Step(SetEditorShown(s, false), [MutationNotice(errCode, "设置成功", "设置失败")])
  }

  /** The corrected reducer agrees with the one written wherever the
      assignment succeeded. */
  lemma EidtDataAgreesOnSuccess(s: State)
    ensures EidtData(s, Num(0)) == EidtDataAsWritten(s, Num(0))
  {
  }

  /** The reducer table, with `eidtData` as written: the assignment answer
      always says 设置成功, whatever its kind. */
  function Reduce(s: State, a: Action): (r: Option<Step<Data>>)
    ensures r.Some?
    ensures r.value.state.variables == s.variables
    ensures !a.OnEidtData? ==> r.value.notices == []
    ensures a.OnEidtData? ==> r.value.notices == [Toast(if a.errCode == Num(0) then SuccessKind else ErrorKind, "设置成功")]
  {
    match a
    case OnSaveSpans(applications) => Some(Step(SaveSpans(s, applications), []))
    case OnAlarmData(contacts) => Some(Step(AlarmData(s, contacts), []))
    case OnSelectAlarmData(selected) => Some(Step(SelectAlarmData(s, selected), []))
    case OnSetEditApplication(id) => Some(Step(SetEditApplication(s, id), []))
    case OnEditorSelectId(ids) => Some(Step(EditorSelectId(s, ids), []))
    case OnEidtData(errCode) => Some(EidtDataAsWritten(s, errCode))
    case OnShowEditor => Some(Step(SetEditorShown(s, true), []))
    case OnHideEditor => Some(Step(SetEditorShown(s, false), []))
  }

  /** After picking ids in the transfer, a fresh load of the assigned
      contacts puts the ids back in step with the contacts. */
  lemma SelectionResyncs(s: State, ids: seq<Value>, selected: seq<Contact>)
    ensures SelectAlarmData(EditorSelectId(s, ids), selected) == SelectAlarmData(s, selected)
  {
  }

  const Route := "/applicationManager"

  /** The history subscription of this model. */
  function Subscription(loc: Location): (r: Option<InitVariables>)
    ensures r.Some? <==> loc.pathname == "/applicationManager" && loc.state.Some?
    ensures r.Some? ==> Seeds(loc.state.value, r.value)
  {
    Subscribe(Route, loc)
  }
}
