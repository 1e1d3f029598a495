/** The time-range picker of the dashboard: the two shortcut catalogs, the
    restore-on-mount rule that reads the key-value store, form submission,
    the merge performed by `select`, the form mirroring of the current
    selection and the `disabledDate` predicate. "Now" is a parameter and the
    store is passed in and returned. */
module DurationPanel {
  import opened Wrappers
  import opened Values
  import opened Clock
  import Seqs

  /** One end of a window, evaluated when read: a fixed offset before the
      instant of evaluation, or a fixed moment. */
  datatype TimeFn = NowMinus(ms: nat) | At(m: Moment)

  function Eval(f: TimeFn, now: int): Moment {
    match f
    case NowMinus(ms) => Valid(now - ms)
    case At(m) => m
  }

  /** `label: null` (an explicit range) or a shortcut's label. */
  datatype Label = NullLabel | Named(text: string)

  /** The selection object handed to `onSelected`. Each field is `None` when
      the object has no such property, which matters for object spread. */
  datatype Selection = Selection(
    from: Option<TimeFn>,
    to: Option<TimeFn>,
    step: Option<Value>,
    title: Option<Label>)

  /** `if (selected.label)`: a non-empty label string is present. */
  predicate HasLabel(s: Selection) {
    s.title.Some? && s.title.value.Named? && s.title.value.text != ""
  }

  datatype Shortcut = Shortcut(title: string, span: Span)

  /** The minute/hour catalog, in display order. */
  const Shortcuts: seq<Shortcut> := [
    Shortcut("过去15分", Minutes(15)),
    Shortcut("过去30分", Minutes(30)),
    Shortcut("过去1小时", Hours(1)),
    Shortcut("过去6小时", Hours(6)),
    Shortcut("过去12小时", Hours(12)),
    Shortcut("过去24小时", Hours(24))
  ]

  /** The day/month catalog, in display order. */
  const DayShortcuts: seq<Shortcut> := [
    Shortcut("过去2天", Days(2)),
    Shortcut("过去7天", Days(7)),
    Shortcut("过去14天", Days(14)),
    Shortcut("过去30天", Days(30)),
    Shortcut("过去6月", Months(6)),
    Shortcut("过去12月", Months(12))
  ]

  /** A catalog entry as a selection: `to` is now, `from` is now minus the
      entry's span, both evaluated at read time. */
  function ShortcutSelection(sc: Shortcut): (s: Selection)
    ensures s.title == Some(Named(sc.title))
    ensures HasLabel(s) <==> sc.title != ""
    ensures s.step.None? && s.from.Some? && s.to.Some?
    ensures forall now :: Eval(s.to.value, now) == Valid(now)
    ensures forall now :: Eval(s.from.value, now) == Valid(now - SpanMs(sc.span))
  {
    Selection(Some(NowMinus(SpanMs(sc.span))), Some(NowMinus(0)), None, Some(Named(sc.title)))
  }

  /** Every catalog entry yields a non-empty window ending now. */
  lemma CatalogWindowsEndNow(sc: Shortcut, now: int)
    requires sc in Shortcuts || sc in DayShortcuts
    ensures Eval(ShortcutSelection(sc).to.value, now) == Valid(now)
    ensures Eval(ShortcutSelection(sc).from.value, now).ms < now
  {
    assert sc.span.n > 0;
  }

  // ----- restore on mount -----------------------------------------------

  predicate NotQuote(c: char) {
    c != '"'
  }

  /** `s.replace(/"/g, '')`: every `"` is removed, and the other characters
      are kept in order. */
  function StripQuotes(s: string): (r: string)
    ensures '"' !in r
    ensures forall c :: c in r <==> c in s && c != '"'
    ensures Seqs.IsSubsequence(r, s)
    ensures |r| <= |s|
  {
    Seqs.FilterMembers(s, NotQuote);
    Seqs.FilterIsSubsequence(s, NotQuote);
    Seqs.Filter(s, NotQuote)
  }

  predicate LabelMatches(sc: Shortcut, wanted: string) {
    StripQuotes(sc.title) == StripQuotes(wanted)
  }

  /** The last index of `cat` whose label matches: what a forward scan that
      overwrites its index on every match ends with. */
  function LastMatch(cat: seq<Shortcut>, wanted: string): (r: Option<nat>)
    ensures r.Some? ==> r.value < |cat| && LabelMatches(cat[r.value], wanted)
    ensures r.Some? ==> forall j :: r.value < j < |cat| ==> !LabelMatches(cat[j], wanted)
    ensures r.None? <==> forall j :: 0 <= j < |cat| ==> !LabelMatches(cat[j], wanted)
    decreases |cat|
  {
    if |cat| == 0 then None
    else if LabelMatches(cat[|cat| - 1], wanted) then Some(|cat| - 1)
    else LastMatch(cat[..|cat| - 1], wanted)
  }

  /** Some entry of `cat` matches the wanted label. */
  predicate AnyMatch(cat: seq<Shortcut>, wanted: string) {
    exists j :: 0 <= j < |cat| && LabelMatches(cat[j], wanted)
  }

  /** The shortcut a stored label restores: a match in the day catalog
      overrides a match in the minute/hour catalog, within a catalog the last
      match wins, and with no match at all the first short entry is used. */
  function RestoredShortcut(shorts: seq<Shortcut>, days: seq<Shortcut>, wanted: string): (sc: Shortcut)
    requires |shorts| > 0
    ensures AnyMatch(days, wanted) ==> sc == days[LastMatch(days, wanted).value]
    ensures AnyMatch(days, wanted) ==> sc in days && LabelMatches(sc, wanted)
    ensures !AnyMatch(days, wanted) && AnyMatch(shorts, wanted) ==> sc == shorts[LastMatch(shorts, wanted).value]
    ensures !AnyMatch(days, wanted) && AnyMatch(shorts, wanted) ==> sc in shorts && LabelMatches(sc, wanted)
    ensures !AnyMatch(days, wanted) && !AnyMatch(shorts, wanted) ==> sc == shorts[0]
  {
    match LastMatch(days, wanted)
    case Some(k) => days[k]
    case None =>
      match LastMatch(shorts, wanted)
      case Some(k) => shorts[k]
      case None => shorts[0]
  }

  /** Extending a prefix by one entry: the last match moves to that entry
      exactly when it matches. */
  lemma LastMatchExtend(cat: seq<Shortcut>, wanted: string, k: nat)
    requires k < |cat|
    ensures LastMatch(cat[..k + 1], wanted)
      == if LabelMatches(cat[k], wanted) then Some(k) else LastMatch(cat[..k], wanted)
  {
    assert cat[..k + 1][..k] == cat[..k];
  }

  /** One forward scan of the mount handler, as written: the index starts at
      `start` and is overwritten on every match. */
  method ScanCatalog(cat: seq<Shortcut>, wanted: string, start: nat) returns (labelIndex: nat, matched: bool)
    ensures matched <==> AnyMatch(cat, wanted)
    ensures matched ==> LastMatch(cat, wanted) == Some(labelIndex)
    ensures !matched ==> labelIndex == start
  {
    labelIndex, matched := start, false;
    var k := 0;
    while k < |cat|
      invariant 0 <= k <= |cat|
      invariant matched ==> LastMatch(cat[..k], wanted) == Some(labelIndex)
      invariant !matched ==> LastMatch(cat[..k], wanted).None? && labelIndex == start
    {
      LastMatchExtend(cat, wanted, k);
      if LabelMatches(cat[k], wanted) {
        labelIndex, matched := k, true;
      }
      k := k + 1;
    }
    assert cat[..k] == cat;
  }

  /** The two scans of the mount handler: the index is shared, and a day
      match also switches catalogs. */
  method ScanCatalogs(shorts: seq<Shortcut>, days: seq<Shortcut>, wanted: string) returns (labelIndex: nat, inDays: bool)
    requires |shorts| > 0
    ensures inDays ==> labelIndex < |days| && days[labelIndex] == RestoredShortcut(shorts, days, wanted)
    ensures !inDays ==> labelIndex < |shorts| && shorts[labelIndex] == RestoredShortcut(shorts, days, wanted)
    ensures inDays <==> AnyMatch(days, wanted)
  {
    var shortIndex, _ := ScanCatalog(shorts, wanted, 0);
    labelIndex, inDays := ScanCatalog(days, wanted, shortIndex);
  }

  /** What the `timesstep` key holds: a JSON-encoded range, the text "null"
      a shortcut click writes, the empty string, or text that is not JSON. */
  datatype StoredRange = RangeJson(range: PersistedRange) | NullJson | EmptyText | Malformed

  /** The persisted explicit range `{beginTime, endTime, step}`. */
  datatype PersistedRange = PersistedRange(beginTime: DateText, endTime: DateText, step: Value)

  /** The two keys of the browser's key-value store the panel uses; `None`
      is a missing key. */
  datatype Storage = Storage(selectedLabel: Option<string>, timesstep: Option<StoredRange>)

  /** The only failure of the mount handler: `JSON.parse` throwing. */
  datatype MountError = CorruptTimesstep

  /** `getItem('timesstep') ? JSON.parse(getItem('timesstep')) : undefined`,
      keeping the result only when it is a truthy object. */
  function LoadRange(stored: Option<StoredRange>): (r: Result<Option<PersistedRange>, MountError>)
    ensures r.Failure? <==> stored == Some(Malformed)
    ensures r.Success? && r.value.Some? <==> stored.Some? && stored.value.RangeJson?
    ensures r.Success? && r.value.Some? ==> r.value.value == stored.value.range
  {
    match stored
    case None => Success(None)
    case Some(EmptyText) => Success(None)
    case Some(NullJson) => Success(None)
    case Some(RangeJson(p)) => Success(Some(p))
    case Some(Malformed) => Failure(CorruptTimesstep)
  }

  /** A persisted range read back: both ends parsed from their day text. */
  function RangeSelection(p: PersistedRange): Selection {
    Selection(Some(At(Parse(p.beginTime))), Some(At(Parse(p.endTime))), Some(p.step), None)
  }

  function Overlay<T>(current: Option<T>, incoming: Option<T>): Option<T> {
    if incoming.Some? then incoming else current
  }

  /** `{ ...selected, ...n }`: every property `n` has wins, every other
      property of the current selection is kept. */
  function Merge(selected: Option<Selection>, n: Selection): (r: Selection)
    ensures n.from.Some? ==> r.from == n.from
    ensures n.to.Some? ==> r.to == n.to
    ensures n.step.Some? ==> r.step == n.step
    ensures n.title.Some? ==> r.title == n.title
    ensures selected.Some? && n.from.None? ==> r.from == selected.value.from
    ensures selected.Some? && n.to.None? ==> r.to == selected.value.to
    ensures selected.Some? && n.step.None? ==> r.step == selected.value.step
    ensures selected.Some? && n.title.None? ==> r.title == selected.value.title
    ensures selected.None? ==> r == n
  {
    match selected
    case None => n
    case Some(s) =>
      Selection(Overlay(s.from, n.from), Overlay(s.to, n.to), Overlay(s.step, n.step), Overlay(s.title, n.title))
  }

  /** Merging the same fields twice changes nothing more. */
  lemma MergeIdempotent(selected: Option<Selection>, n: Selection)
    ensures Merge(Some(Merge(selected, n)), n) == Merge(selected, n)
  {
  }

  /** `componentDidMount`: the selections passed to `onSelected`, in order.
      The shortcut comes first, only when a label is stored; the persisted
      range comes last, merged over the `selected` prop as it was at mount. */
  function Mount(store: Storage, selected: Option<Selection>): (r: Result<seq<Selection>, MountError>)
    ensures r.Failure? <==> store.timesstep == Some(Malformed)
    ensures r.Success? ==>
      |r.value| == (if LabelStored(store) then 1 else 0) + (if StoredRangeOf(store).Some? then 1 else 0)
    ensures r.Success? && LabelStored(store) ==>
      r.value[0] == ShortcutSelection(RestoredShortcut(Shortcuts, DayShortcuts, store.selectedLabel.value))
    ensures r.Success? && StoredRangeOf(store).Some? ==>
      r.value[|r.value| - 1] == Merge(selected, RangeSelection(StoredRangeOf(store).value))
  {
    match LoadRange(store.timesstep)
    case Failure(e) => Failure(e)
    case Success(range) =>
      var first := if LabelStored(store) then [ShortcutSelection(RestoredShortcut(Shortcuts, DayShortcuts, store.selectedLabel.value))] else [];
      var second := if range.Some? then [Merge(selected, RangeSelection(range.value))] else [];
      Success(first + second)
  }

  /** `if (label)`: a non-empty label is stored. */
  predicate LabelStored(store: Storage) {
    store.selectedLabel.Some? && store.selectedLabel.value != ""
  }

  function StoredRangeOf(store: Storage): Option<PersistedRange> {
    if store.timesstep.Some? && store.timesstep.value.RangeJson? then Some(store.timesstep.value.range) else None
  }

  // ----- select, submit, mirror, disabledDate ----------------------------

  datatype Selected = Selected(selection: Selection, store: Storage)

  /** `select(n, kind)`: emits the merged selection and, for kind 2 (what
      both shortcut lists pass), overwrites the persisted range with null. */
  function Select(selected: Option<Selection>, n: Selection, kind: int, store: Storage): (r: Selected)
    ensures r.selection == Merge(selected, n)
    ensures r.store.selectedLabel == store.selectedLabel
    ensures kind == 2 ==> r.store.timesstep == Some(NullJson)
    ensures kind != 2 ==> r.store == store
  {
    var st := if kind == 2 then store.(timesstep := Some(NullJson)) else store;
    Selected(Merge(selected, n), st)
  }

  /** A click on a catalog entry: the entry's window and label replace the
      current ones, the step is kept, and the persisted range is cleared
      (the label store is the parent's business). */
  function ClickShortcut(sc: Shortcut, selected: Option<Selection>, store: Storage): (r: Selected)
    ensures r.store == store.(timesstep := Some(NullJson))
    ensures r.selection.title == Some(Named(sc.title))
    ensures r.selection.from.Some? && r.selection.to.Some?
    ensures forall now :: Eval(r.selection.to.value, now) == Valid(now)
    ensures forall now :: Eval(r.selection.from.value, now) == Valid(now - SpanMs(sc.span))
    ensures r.selection.step == if selected.Some? then selected.value.step else None
  {
    Select(selected, ShortcutSelection(sc), 2, store)
  }

  /** The two fields of the panel's form. */
  datatype SubmitFields = SubmitFields(range: Value, step: Value)

  /** What `handleSubmit` builds from the fields before calling `select`. */
  datatype Submission = Submission(selection: Selection, persisted: PersistedRange)

  /** The field loop of `handleSubmit`: falsy fields are skipped; a range
      yields `from`/`to` and the two day texts; a truthy step is copied. */
  function BuildSubmission(fields: SubmitFields): (r: Submission)
    requires Truthy(fields.range) ==> fields.range.Picked?
    ensures r.selection.from.Some? <==> Truthy(fields.range)
    ensures r.selection.to.Some? <==> Truthy(fields.range)
    ensures r.selection.title == Some(NullLabel) <==> Truthy(fields.range)
    ensures r.selection.title.None? <==> !Truthy(fields.range)
    ensures Truthy(fields.range) ==>
      && r.selection.from == Some(At(fields.range.start))
      && r.selection.to == Some(At(fields.range.end))
      && r.persisted.beginTime == Format(fields.range.start)
      && r.persisted.endTime == Format(fields.range.end)
    ensures !Truthy(fields.range) ==> r.persisted.beginTime == Blank && r.persisted.endTime == Blank
    ensures r.selection.step.Some? <==> Truthy(fields.step)
    ensures Truthy(fields.step) ==> r.selection.step == Some(fields.step) && r.persisted.step == fields.step
    ensures !Truthy(fields.step) ==> r.persisted.step == Str("")
  {
    var hasRange := Truthy(fields.range);
    var hasStep := Truthy(fields.step);
    var begin := if hasRange then Format(fields.range.start) else Blank;
    var end := if hasRange then Format(fields.range.end) else Blank;
    var from := if hasRange then Some(At(fields.range.start)) else None;
    var to := if hasRange then Some(At(fields.range.end)) else None;
    var step := if hasStep then Some(fields.step) else None;
    var title := if hasRange then Some(NullLabel) else None;
    Submission(Selection(from, to, step, title), PersistedRange(begin, end, if hasStep then fields.step else Str("")))
  }

  /** `handleSubmit`: always persists the range record, then selects. */
  function Submit(fields: SubmitFields, selected: Option<Selection>, store: Storage): (r: Selected)
    requires Truthy(fields.range) ==> fields.range.Picked?
    ensures r.store == store.(timesstep := Some(RangeJson(BuildSubmission(fields).persisted)))
    ensures r.selection == Merge(selected, BuildSubmission(fields).selection)
  {
    var sub := BuildSubmission(fields);
    Select(selected, sub.selection, 0, store.(timesstep := Some(RangeJson(sub.persisted))))
  }

  /** `mapPropsToFields`: the form values mirrored from the selection.
      An unlabelled selection without `from` or `to` throws when they are
      called (`None`). */
  function MirrorFields(selected: Option<Selection>, now: int): (fields: Option<Record>)
    ensures fields.None? <==>
      selected.Some? && !HasLabel(selected.value) && (selected.value.from.None? || selected.value.to.None?)
    ensures selected.None? ==> fields == Some(map[])
    ensures selected.Some? && fields.Some? ==>
      "step" in fields.value && fields.value["step"] == selected.value.step.GetOr(Undefined)
    ensures selected.Some? && fields.Some? ==> ("range-time-picker" in fields.value <==> !HasLabel(selected.value))
    ensures fields.Some? && "range-time-picker" in fields.value ==>
      fields.value["range-time-picker"] == Picked(Eval(selected.value.from.value, now), Eval(selected.value.to.value, now))
    ensures fields.Some? ==> fields.value.Keys <= {"step", "range-time-picker"}
  {
    match selected
    case None => Some(map[])
    case Some(s) =>
      var result := map["step" := s.step.GetOr(Undefined)];
      if HasLabel(s) then Some(result)
      else if s.from.None? || s.to.None? then None
      else Some(result["range-time-picker" := Picked(Eval(s.from.value, now), Eval(s.to.value, now))])
  }

  /** `disabledDate(current)`: a day can be picked only strictly before now;
      an absent or invalid moment is never disabled. */
  function DisabledDate(current: Option<Moment>, now: int): (disabled: bool)
    ensures disabled ==> current.Some? && current.value.Valid?
    ensures current == Some(Valid(now)) ==> disabled
    ensures current.Some? && current.value.Valid? && current.value.ms < now ==> !disabled
  {
    current.Some? && current.value.Valid? && current.value.ms >= now
  }

  // ----- properties across operations -------------------------------------

  /** Stripping is compositional, so quotes around a stored label (a
      double-encoded value) do not change which shortcut it restores. */
  lemma QuotedLabelRestoresSame(shorts: seq<Shortcut>, days: seq<Shortcut>, wanted: string)
    requires |shorts| > 0
    ensures RestoredShortcut(shorts, days, "\"" + wanted + "\"") == RestoredShortcut(shorts, days, wanted)
  {
    var keep := NotQuote;
    var quoted := "\"" + wanted + "\"";
    Seqs.FilterConcat("\"" + wanted, "\"", keep);
    Seqs.FilterConcat("\"", wanted, keep);
    assert StripQuotes(quoted) == StripQuotes(wanted);
    SameStripSameMatch(days, quoted, wanted);
    SameStripSameMatch(shorts, quoted, wanted);
  }

  /** Only the stripped label takes part in matching. */
  lemma {:induction false} SameStripSameMatch(cat: seq<Shortcut>, a: string, b: string)
    requires StripQuotes(a) == StripQuotes(b)
    ensures LastMatch(cat, a) == LastMatch(cat, b)
    decreases |cat|
  {
    if |cat| > 0 {
      SameStripSameMatch(cat[..|cat| - 1], a, b);
    }
  }

  /** A label without quotes is compared as it is. */
  lemma StripQuotesKeepsPlain(s: string)
    requires '"' !in s
    ensures StripQuotes(s) == s
  {
    Seqs.FilterKeepsAll(s, NotQuote);
  }

  /** A label matching entry `k` of the day catalog, and no later one,
      restores that entry. */
  lemma DayMatchRestores(shorts: seq<Shortcut>, days: seq<Shortcut>, wanted: string, k: nat)
    requires |shorts| > 0 && k < |days| && LabelMatches(days[k], wanted)
    requires forall j :: k < j < |days| ==> !LabelMatches(days[j], wanted)
    ensures RestoredShortcut(shorts, days, wanted) == days[k]
  {
    assert AnyMatch(days, wanted);
  }

  /** Plain labels match exactly when they are equal. */
  lemma PlainLabelsMatch(sc: Shortcut, wanted: string)
    requires '"' !in sc.title && '"' !in wanted
    ensures LabelMatches(sc, wanted) <==> sc.title == wanted
  {
    StripQuotesKeepsPlain(sc.title);
    StripQuotesKeepsPlain(wanted);
  }

  /** Day entry `k` carries exactly the label "过去7天" or not at all. */
  lemma SevenDayTitleMatch(k: nat)
    requires k < |DayShortcuts|
    ensures LabelMatches(DayShortcuts[k], "过去7天") <==> k == 1
  {
    PlainLabelsMatch(DayShortcuts[k], "过去7天");
  }

  /** No day entry after the seven-day one carries its label. */
  lemma SevenDayIsLastMatch()
    ensures LabelMatches(DayShortcuts[1], "过去7天")
    ensures forall j :: 1 < j < |DayShortcuts| ==> !LabelMatches(DayShortcuts[j], "过去7天")
  {
    SevenDayTitleMatch(1);
    forall j | 1 < j < |DayShortcuts|
      ensures !LabelMatches(DayShortcuts[j], "过去7天")
    {
      SevenDayTitleMatch(j);
    }
  }

  /** The stored label "过去7天" restores the seven-day entry of the day
      catalog. */
  lemma SevenDayEntryRestored()
    ensures RestoredShortcut(Shortcuts, DayShortcuts, "过去7天") == DayShortcuts[1]
  {
    SevenDayIsLastMatch();
    DayMatchRestores(Shortcuts, DayShortcuts, "过去7天", 1);
  }

  /** The seven-day entry spans seven days up to now. */
  lemma SevenDayWindow(now: int)
    ensures Eval(ShortcutSelection(DayShortcuts[1]).from.value, now) == Valid(now - 7 * DayMs)
    ensures Eval(ShortcutSelection(DayShortcuts[1]).to.value, now) == Valid(now)
  {
    assert DayShortcuts[1].span == Days(7);
  }

  /** The stored label "过去7天" restores a window from seven days before now
      up to now. */
  lemma SevenDayLabelRestores(now: int)
    ensures var s := ShortcutSelection(RestoredShortcut(Shortcuts, DayShortcuts, "过去7天"));
      Eval(s.from.value, now) == Valid(now - 7 * DayMs) && Eval(s.to.value, now) == Valid(now)
  {
    SevenDayEntryRestored();
    SevenDayWindow(now);
  }

  /** With no stored label no shortcut is emitted: the inner fallback to the
      first shortcut cannot be reached. */
  lemma NoLabelNoShortcut(store: Storage, selected: Option<Selection>)
    requires !LabelStored(store)
    requires Mount(store, selected).Success?
    ensures forall s :: s in Mount(store, selected).value ==> !HasLabel(s) || selected.Some?
  {
  }

  /** A persisted range is applied after the label, so it decides the final
      window even when a label is stored too. */
  lemma RangeWinsOverLabel(store: Storage, selected: Option<Selection>, now: int)
    requires LabelStored(store) && StoredRangeOf(store).Some?
    ensures Mount(store, selected).Success?
    ensures var emitted := Mount(store, selected).value;
      && |emitted| == 2
      && emitted[0].title == Some(Named(RestoredShortcut(Shortcuts, DayShortcuts, store.selectedLabel.value).title))
      && Eval(emitted[1].from.value, now) == Parse(StoredRangeOf(store).value.beginTime)
      && Eval(emitted[1].to.value, now) == Parse(StoredRangeOf(store).value.endTime)
  {
  }

  /** A shortcut click writes null, so the next mount skips the range and
      follows the stored label alone. */
  lemma ClickThenMountFollowsLabel(sc: Shortcut, selected: Option<Selection>, store: Storage, later: Option<Selection>)
    requires LabelStored(store)
    ensures var st := ClickShortcut(sc, selected, store).store;
      Mount(st, later) == Success([ShortcutSelection(RestoredShortcut(Shortcuts, DayShortcuts, store.selectedLabel.value))])
  {
    var st := ClickShortcut(sc, selected, store).store;
    assert st.timesstep == Some(NullJson) && st.selectedLabel == store.selectedLabel;
    assert LoadRange(st.timesstep) == Success(None);
    var first := [ShortcutSelection(RestoredShortcut(Shortcuts, DayShortcuts, store.selectedLabel.value))];
    assert first + [] == first;
  }

  /** Submitting a range and mounting again restores both ends at day
      precision, with the submitted step (or '' when none was chosen). */
  lemma SubmitThenMount(a: int, b: int, step: Value, selected: Option<Selection>, store: Storage, later: Option<Selection>, now: int)
    ensures var st := Submit(SubmitFields(Picked(Valid(a), Valid(b)), step), selected, store).store;
      && Mount(st, later).Success?
      && var last := Mount(st, later).value[|Mount(st, later).value| - 1];
      && Eval(last.from.value, now) == Valid(DayStart(a))
      && Eval(last.to.value, now) == Valid(DayStart(b))
      && last.step == Some(if Truthy(step) then step else Str(""))
  {
    var fields := SubmitFields(Picked(Valid(a), Valid(b)), step);
    var p := BuildSubmission(fields).persisted;
    FormatThenParse(a);
    FormatThenParse(b);
    assert Parse(p.beginTime) == Valid(DayStart(a));
    assert Parse(p.endTime) == Valid(DayStart(b));
  }

  /** Submitting only a step persists blank dates, and the next mount then
      restores a window whose ends are invalid moments. */
  lemma SubmitWithoutRangeRestoresInvalid(step: Value, selected: Option<Selection>, store: Storage, later: Option<Selection>, now: int)
    ensures var st := Submit(SubmitFields(Undefined, step), selected, store).store;
      && Mount(st, later).Success?
      && var last := Mount(st, later).value[|Mount(st, later).value| - 1];
      && Eval(last.from.value, now) == Invalid
      && Eval(last.to.value, now) == Invalid
  {
  }

  /** After a submit with a range and a step, the form mirrors exactly what
      was submitted. */
  lemma SubmitThenMirror(start: Moment, end: Moment, step: Value, selected: Option<Selection>, store: Storage, now: int)
    requires Truthy(step)
    ensures var sel := Submit(SubmitFields(Picked(start, end), step), selected, store).selection;
      MirrorFields(Some(sel), now) == Some(map["step" := step, "range-time-picker" := Picked(start, end)])
  {
  }

  /** Submitting only a step with nothing selected yet leaves a selection
      with neither label nor range, which the form mirror throws on. */
  lemma StepOnlySubmitBreaksMirror(step: Value, store: Storage, now: int)
    ensures var sel := Submit(SubmitFields(Undefined, step), None, store).selection;
      !HasLabel(sel) && sel.from.None? && MirrorFields(Some(sel), now).None?
  {
  }

  /** The disabled days form a suffix: once a day is disabled, every later
      one is, and a day enabled now stays enabled as the clock advances. */
  lemma DisabledDaysAreLater(a: int, b: int, now: int, later: int)
    requires a <= b && now <= later
    ensures DisabledDate(Some(Valid(a)), now) ==> DisabledDate(Some(Valid(b)), now)
    ensures !DisabledDate(Some(Valid(a)), now) ==> !DisabledDate(Some(Valid(a)), later)
  {
  }

  /** A shortcut's start is never a disabled day, its end (now) always is. */
  lemma ShortcutBoundsAgainstPicker(sc: Shortcut, now: int)
    requires sc in Shortcuts || sc in DayShortcuts
    ensures !DisabledDate(Some(Eval(ShortcutSelection(sc).from.value, now)), now)
    ensures DisabledDate(Some(Eval(ShortcutSelection(sc).to.value, now)), now)
  {
    CatalogWindowsEndNow(sc, now);
  }
}
