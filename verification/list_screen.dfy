/** What the three list screens share: the pager, the row-number column,
    the paging written on a table change, form validation and the
    `duration.input` read before a fetch. */
module ListScreen {
  import opened Wrappers
  import opened Values

  /** The paging every search starts from. */
  const InitPaging := Paging(1, 20, true)

  /** The pager's props; the screen renders no pager at all (`null`) when
      there is nothing to page through. */
  datatype PagerView = PagerView(current: int, pageSize: int, total: int)

  /** `renderPage`: no pager under one result; otherwise the current page
      and size of `values.paging`, or 1 and 20 when there is none. A truthy
      `paging` is the paging object the screen saved. */
  function RenderPage(values: Record, total: int): (v: Option<PagerView>)
    requires Truthy(Get(values, "paging")) ==> Get(values, "paging").Pg?
    ensures v.None? <==> total < 1
    ensures v.Some? ==> v.value.total == total
    ensures v.Some? && !Truthy(Get(values, "paging")) ==> v.value.current == 1 && v.value.pageSize == 20
    ensures v.Some? && Truthy(Get(values, "paging")) ==>
      v.value.current == values["paging"].paging.pageNum && v.value.pageSize == values["paging"].paging.pageSize
  {
    if total < 1 then None
    else
      var paging := Get(values, "paging");
      if Truthy(paging) then Some(PagerView(paging.paging.pageNum, paging.paging.pageSize, total))
      else Some(PagerView(1, 20, total))
  }

  /** The pager's two callbacks. */
  datatype PagerEvent = PageChanged(page: int, pageSize: int) | SizeChanged(current: int, size: int)

  /** The argument both callbacks pass to `handleTableChange`. */
  datatype TableChange = TableChange(current: int, pageSize: int)

  function ToTableChange(e: PagerEvent): (tc: TableChange)
    ensures e.SizeChanged? ==> tc.current == 1 && tc.pageSize == e.size
    ensures e.PageChanged? ==> tc.current == e.page && tc.pageSize == e.pageSize
  {
    match e
    case PageChanged(page, size) => TableChange(page, size)
    case SizeChanged(_, size) => TableChange(1, size)
  }

  /** `{...values, paging: {pageNum, pageSize, needTotal: true}}`. */
  function WithPaging(values: Record, tc: TableChange): (r: Record)
    ensures r.Keys == values.Keys + {"paging"}
    ensures r["paging"] == Pg(Paging(tc.current, tc.pageSize, true))
    ensures forall k :: k in values && k != "paging" ==> r[k] == values[k]
  {
    Spread(values, map["paging" := Pg(Paging(tc.current, tc.pageSize, true))])
  }

  /** Changing the page size always goes back to the first page, whatever
      page was showing, and the pager then shows that first page. */
  lemma SizeChangeRestartsAtFirstPage(values: Record, current: int, size: int, total: int)
    requires total >= 1
    ensures var saved := WithPaging(values, ToTableChange(SizeChanged(current, size)));
      RenderPage(saved, total) == Some(PagerView(1, size, total))
  {
  }

  /** Turning the page keeps the size the pager already shows. */
  lemma PageChangeKeepsSize(values: Record, page: int, total: int)
    requires Truthy(Get(values, "paging")) ==> Get(values, "paging").Pg?
    requires total >= 1
    ensures var size := RenderPage(values, total).value.pageSize;
      RenderPage(WithPaging(values, ToTableChange(PageChanged(page, size))), total) == Some(PagerView(page, size, total))
  {
  }

  /** The number shown in the first column for the row at `index` of the
      current page. */
  function RowNumber(index: nat, p: Paging): int {
    index + 1 + (p.pageNum - 1) * p.pageSize
  }

  /** The page a row number falls on, and its position on that page: the
      inverse of `RowNumber` for real pagings. */
  function PageOfRow(row: int, size: int): int
    requires size >= 1
  {
    (row - 1) / size + 1
  }

  function SlotOfRow(row: int, size: int): nat
    requires size >= 1
  {
    (row - 1) % size
  }

  predicate ProperPaging(p: Paging) {
    p.pageNum >= 1 && p.pageSize >= 1
  }

  /** Euclidean division is determined by its quotient-remainder form. */
  lemma DivModUnique(a: int, size: int, q: int, s: int)
    requires size >= 1 && 0 <= s < size && a == q * size + s
    ensures a / size == q && a % size == s
  {
    var q0, s0 := a / size, a % size;
    var d := q - q0;
    assert d * size == s0 - s by {
      assert q * size - q0 * size == (q - q0) * size;
    }
    MultipleOfSize(d, size);
  }

  /** A non-zero multiple of `size` is at least `size` away from zero. */
  lemma MultipleOfSize(d: int, size: int)
    requires size >= 1
    ensures d >= 1 ==> d * size >= size
    ensures d <= -1 ==> d * size <= -size
  {
    assert d * size == (d - 1) * size + size;
    assert d * size == (d + 1) * size - size;
  }

  /** Row numbers count on within a page. */
  lemma RowsConsecutive(i: nat, p: Paging)
    ensures RowNumber(i + 1, p) == RowNumber(i, p) + 1
  {
  }

  /** The first row of the next page follows the last row of this one. */
  lemma PagesContiguous(p: Paging)
    requires p.pageSize >= 1
    ensures RowNumber(0, p.(pageNum := p.pageNum + 1)) == RowNumber(p.pageSize - 1, p) + 1
  {
    assert p.pageNum * p.pageSize == (p.pageNum - 1) * p.pageSize + p.pageSize;
  }

  /** Every row on a proper page has a number from 1 up, and the number
      tells back the page and the position it was shown at: no two rows of
      any pages with the same size share a number. */
  lemma {:induction false} RowNumberPlacement(i: nat, p: Paging)
    requires ProperPaging(p) && i < p.pageSize
    ensures RowNumber(i, p) >= 1
    ensures PageOfRow(RowNumber(i, p), p.pageSize) == p.pageNum
    ensures SlotOfRow(RowNumber(i, p), p.pageSize) == i
  {
    var before := p.pageNum - 1;
    var row := RowNumber(i, p);
    assert row - 1 == before * p.pageSize + i;
    MultipleOfSize(before, p.pageSize);
    DivModUnique(row - 1, p.pageSize, before, i);
  }

  /** Every positive row number is shown on exactly the page and at the
      position computed by `PageOfRow` and `SlotOfRow`. */
  lemma {:induction false} RowOfPlacement(row: int, size: int, needTotal: bool)
    requires row >= 1 && size >= 1
    ensures ProperPaging(Paging(PageOfRow(row, size), size, needTotal))
    ensures SlotOfRow(row, size) < size
    ensures RowNumber(SlotOfRow(row, size), Paging(PageOfRow(row, size), size, needTotal)) == row
  {
    assert (row - 1) / size >= 0;
  }

  /** Two rows of pages of one size carry the same number only when they
      are the same row of the same page. */
  lemma RowNumbersDistinct(i: nat, p: Paging, j: nat, q: Paging)
    requires ProperPaging(p) && ProperPaging(q) && p.pageSize == q.pageSize
    requires i < p.pageSize && j < q.pageSize
    requires RowNumber(i, p) == RowNumber(j, q)
    ensures i == j && p.pageNum == q.pageNum
  {
    RowNumberPlacement(i, p);
    RowNumberPlacement(j, q);
  }

  /** The `required` rules of the fields currently on a form: the
      callback of `validateFields` gets the values when every required
      field is filled in, and an error otherwise. */
  function Validate(fields: Record, required: set<string>): (r: Option<Record>)
    ensures r.Some? <==> forall k :: k in required ==> FilledIn(Get(fields, k))
    ensures r.Some? ==> r.value == fields
  {
    if forall k :: k in required ==> FilledIn(Get(fields, k)) then Some(fields) else None
  }

  /** A form with one required field passes exactly when that field is
      filled in. */
  lemma ValidateOne(fields: Record, key: string)
    ensures Validate(fields, {key}).Some? <==> FilledIn(Get(fields, key))
  {
    if FilledIn(Get(fields, key)) {
      assert forall k :: k in {key} ==> FilledIn(Get(fields, k));
    }
  }

  /** A form passes its rules exactly when it passes each group of them
      on its own, so checking the fields one by one gives the same answer. */
  lemma ValidateUnion(fields: Record, a: set<string>, b: set<string>)
    ensures Validate(fields, a + b).Some? <==> Validate(fields, a).Some? && Validate(fields, b).Some?
  {
  }

  /** `values.duration.input`: the query form of a duration object, an
      undefined property of any other object, and `None` where the read
      throws (no duration at all). */
  function DurationInput(duration: Value): (r: Option<Value>)
    ensures r.None? <==> duration.Undefined? || duration.Null?
    ensures duration.Dur? ==> r == Some(DurInput(duration.window))
    ensures r.Some? && !duration.Dur? ==> r.value == Undefined
  {
    match duration
    case Undefined => None
    case Null => None
    case Dur(w) => Some(DurInput(w))
    case _ => Some(Undefined)
  }

  /** The query form loses nothing: two durations give the same query
      exactly when they are the same window. */
  lemma DurationInputKeepsWindow(a: Window, b: Window)
    ensures DurationInput(Dur(a)) == DurationInput(Dur(b)) <==> a == b
  {
  }

  /** `delete` of several properties. */
  function Without(r: Record, keys: set<string>): (out: Record)
    ensures out.Keys == r.Keys - keys
    ensures forall k :: k in out ==> out[k] == r[k]
  {
    map k | k in r && k !in keys :: r[k]
  }
}
