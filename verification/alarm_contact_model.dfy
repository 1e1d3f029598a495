/** The alarm-contact model: the contact list, the editor dialog and the
    contact being edited, the reducers that change them, the guards of the
    mutation effects and the history subscription. */
module AlarmContactModel {
  import opened Wrappers
  import opened Values
  import opened Notifications
  import opened ModelKit

  /** One row of the contact list. */
  datatype Contact = Contact(id: Value, realName: Value, phoneNumber: Value, email: Value)

  /** The editor's contact: `undefined` (opened for adding), the empty
      object `{}` of the initial state and of every reset, or a contact
      opened for editing. */
  datatype EditorUser = NoUser | EmptyUser | Editing(contact: Contact)

  datatype Data = Data(loadAlarmContactList: Listing<Contact>, showEditor: bool, editorUser: EditorUser)

  type State = ModelState<Data>

  const InitialData := Data(Placeholder, false, EmptyUser)

  /** The `data` of a mutation's response: the object holding `errCode`. */
  datatype MutationData = MutationData(errCode: Value)

  /** The actions the reducers handle. An add result may be missing: the
      add effect dispatches it without looking. */
  datatype Action =
    | OnSaveSpans(list: Listing<Contact>)
    | OnAddData(answer: Option<MutationData>)
    | OnEditData(payload: MutationData)
    | OnDeleteData(payload: MutationData)
    | OnShowEditor
    | OnHideEditor
    | OnAddEditorUser(user: EditorUser)

  /** `saveSpans`: a new contact list; nothing else changes. */
  function SaveSpans(s: State, list: Listing<Contact>): (r: State)
    ensures r.data.loadAlarmContactList == list
    ensures r.data.showEditor == s.data.showEditor && r.data.editorUser == s.data.editorUser
    ensures r.variables == s.variables
  {
    s.(data := s.data.(loadAlarmContactList := list))
  }

  /** The state after any add or edit answer: the editor closed and its
      contact reset to `{}`, whatever the server said. */
  function EditorClosed(s: State): (r: State)
    ensures !r.data.showEditor && r.data.editorUser == EmptyUser
    ensures r.data.loadAlarmContactList == s.data.loadAlarmContactList
    ensures r.variables == s.variables
  {
    s.(data := s.data.(showEditor := false, editorUser := EmptyUser))
  }

  /** `addData`. */
  function AddData(s: State, errCode: Value): (r: Step<Data>)
    ensures r.state == EditorClosed(s)
    ensures |r.notices| == 1 && r.notices[0].Toast?
    ensures r.notices[0].kind == SuccessKind <==> errCode == Num(0)
    ensures r.notices[0].message == (if errCode == Num(0) then "添加成功" else "添加失败")
  {
    Step(EditorClosed(s), [MutationNotice(errCode, "添加成功", "添加失败")])
  }

  /** `editData`. */
  function EditData(s: State, errCode: Value): (r: Step<Data>)
    ensures r.state == EditorClosed(s)
    ensures |r.notices| == 1 && r.notices[0].Toast?
    ensures r.notices[0].kind == SuccessKind <==> errCode == Num(0)
    ensures r.notices[0].message == (if errCode == Num(0) then "修改成功" else "修改失败")
  {
    Step(EditorClosed(s), [MutationNotice(errCode, "修改成功", "修改失败")])
  }

  /** `deleteData`: only a pop-up; the list is refreshed by a later search. */
  function DeleteData(s: State, errCode: Value): (r: Step<Data>)
    ensures r.state == s
    ensures |r.notices| == 1 && r.notices[0].Toast?
    ensures r.notices[0].kind == SuccessKind <==> errCode == Num(0)
    ensures r.notices[0].message == (if errCode == Num(0) then "删除成功" else "删除失败")
  {
    Step(s, [MutationNotice(errCode, "删除成功", "删除失败")])
  }

  /** `showEditor` and `hideEditor`: only the dialog flag. */
  function SetEditorShown(s: State, shown: bool): (r: State)
    ensures r.data.showEditor == shown
    ensures r.data.loadAlarmContactList == s.data.loadAlarmContactList && r.data.editorUser == s.data.editorUser
    ensures r.variables == s.variables
  {
    s.(data := s.data.(showEditor := shown))
  }

  /** `addEditorUser`: exactly the given user; nothing else changes. */
  function AddEditorUser(s: State, user: EditorUser): (r: State)
    ensures r.data.editorUser == user
    ensures r.data.loadAlarmContactList == s.data.loadAlarmContactList && r.data.showEditor == s.data.showEditor
    ensures r.variables == s.variables
  {
    s.(data := s.data.(editorUser := user))
  }

  /** The reducer table; `None` where the reducer throws (an add answer
      without `data`). */
  function Reduce(s: State, a: Action): (r: Option<Step<Data>>)
    ensures r.None? <==> a == OnAddData(None)
    ensures r.Some? ==> r.value.state.variables == s.variables
    ensures r.Some? && !a.OnAddData? && !a.OnEditData? && !a.OnDeleteData? ==> r.value.notices == []
  {
    match a
    case OnSaveSpans(list) => Some(Step(SaveSpans(s, list), []))
    case OnAddData(answer) =>
      if answer.None? then None else Some(AddData(s, answer.value.errCode))
    case OnEditData(payload) => Some(EditData(s, payload.errCode))
    case OnDeleteData(payload) => Some(DeleteData(s, payload.errCode))
    case OnShowEditor => Some(Step(SetEditorShown(s, true), []))
    case OnHideEditor => Some(Step(SetEditorShown(s, false), []))
    case OnAddEditorUser(user) => Some(Step(AddEditorUser(s, user), []))
  }

  /** Opening and closing the editor are idempotent, and the last one
      wins. */
  lemma EditorFlagLastWins(s: State, first: bool, second: bool)
    ensures SetEditorShown(SetEditorShown(s, first), second) == SetEditorShown(s, second)
  {
  }

  /** An add and an edit answer leave the same state, whatever either
      `errCode` is; only the pop-up differs. */
  lemma AnswersCloseEditorAlike(s: State, addCode: Value, editCode: Value)
    ensures AddData(s, addCode).state == EditData(s, editCode).state
    ensures AddData(s, addCode).state == SetEditorShown(AddEditorUser(s, EmptyUser), false)
  {
  }

  datatype Mutation = AddAlarm | EditAlarm | DeleteAlarm

  /** What a mutation effect dispatches once the server answered with
      `data` (`None` when it is missing): edit and delete stop without
      one; add goes on regardless. */
  function AfterMutation(m: Mutation, data: Option<MutationData>): (a: Option<Action>)
    ensures a.None? <==> m != AddAlarm && data.None?
    ensures m == AddAlarm ==> a == Some(OnAddData(data))
    ensures m == EditAlarm && data.Some? ==> a == Some(OnEditData(data.value))
    ensures m == DeleteAlarm && data.Some? ==> a == Some(OnDeleteData(data.value))
  {
    match m
    case AddAlarm => Some(OnAddData(data))
    case EditAlarm => if data.None? then None else Some(OnEditData(data.value))
    case DeleteAlarm => if data.None? then None else Some(OnDeleteData(data.value))
  }

  /** The state after a mutation answer: unchanged when the effect
      dispatched nothing, `None` when the reducer threw. */
  function Settle(s: State, m: Mutation, data: Option<MutationData>): Option<Step<Data>> {
    match AfterMutation(m, data)
    case None => Some(Step(s, []))
    case Some(a) => Reduce(s, a)
  }

  /** Without `data`, an edit or a delete leaves the state and shows
      nothing, while an add reaches its reducer and throws there. */
  lemma MissingDataOutcome(s: State, m: Mutation)
    ensures m != AddAlarm ==> Settle(s, m, None) == Some(Step(s, []))
    ensures m == AddAlarm ==> Settle(s, m, None).None?
  {
  }

  /** With `data`, every mutation closes out with exactly one pop-up, whose
      kind follows `errCode`. */
  lemma AnsweredMutationNotifies(s: State, m: Mutation, d: MutationData)
    ensures var r := Settle(s, m, Some(d));
      r.Some? && |r.value.notices| == 1 && (r.value.notices[0].kind == SuccessKind <==> d.errCode == Num(0))
  {
  }

  const Route := "/alarmContact"

  /** The history subscription of this model. */
  function Subscription(loc: Location): (r: Option<InitVariables>)
    ensures r.Some? <==> loc.pathname == "/alarmContact" && loc.state.Some?
    ensures r.Some? ==> Seeds(loc.state.value, r.value)
  {
    Subscribe(Route, loc)
  }
}
