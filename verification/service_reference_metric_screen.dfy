/** The service-reference-metric screen: the search form and its mirror of
    the saved values, the caller and provider pickers, the pager and the
    query condition it fetches. */
module ServiceReferenceMetricScreen {
  import opened Wrappers
  import opened Values
  import opened ListScreen

  const RangeField := "range-time-picker"

  /** What the screen dispatches: values for the shared variable store, or
      the query condition to fetch. */
  datatype Dispatch = SaveVariables(values: Record) | FetchData(condition: Record)

  /** The duration built from a picked range; its query form is the
      `DurInput` of the same window. */
  function RangeDuration(range: Value): Value
    requires range.Picked?
  {
    Dur(Window(range.start, range.end))
  }

  /** A condition with a duration (under `key`) and the paging put over
      it: what is saved (`duration`) and what `fetchData` sends
      (`queryDuration`). */
  function WithDuration(condition: Record, key: string, duration: Value, paging: Value): (q: Record)
    requires key != "paging"
    ensures q.Keys == condition.Keys + {key, "paging"}
    ensures q[key] == duration && q["paging"] == paging
    ensures forall k :: k in condition && k != key && k != "paging" ==> q[k] == condition[k]
  {
    Spread(condition, map[key := duration, "paging" := paging])
  }

  /** The two dispatches of a search: the condition saved with the
      duration and the first page, and fetched with the duration's query
      form and the first page. */
  function Search(condition: Record, window: Window): (ds: seq<Dispatch>)
    ensures |ds| == 2 && ds[0].SaveVariables? && ds[1].FetchData?
    ensures ds[0].values.Keys == condition.Keys + {"duration", "paging"}
    ensures ds[1].condition.Keys == condition.Keys + {"queryDuration", "paging"}
    ensures ds[0].values["duration"] == Dur(window) && ds[0].values["paging"] == Pg(InitPaging)
    ensures ds[1].condition["queryDuration"] == DurInput(window) && ds[1].condition["paging"] == Pg(InitPaging)
    ensures forall k :: k in condition && k != "duration" && k != "paging" ==> ds[0].values[k] == condition[k]
    ensures forall k :: k in condition && k != "queryDuration" && k != "paging" ==> ds[1].condition[k] == condition[k]
  {
    [SaveVariables(WithDuration(condition, "duration", Dur(window), Pg(InitPaging))),
     FetchData(WithDuration(condition, "queryDuration", DurInput(window), Pg(InitPaging)))]
  }

  /** `handleSearch`: the range is the one required field; a search runs
      exactly when a range is picked, on the other fields and the picked
      window. */
  function HandleSearch(fields: Record): (ds: seq<Dispatch>)
    requires FilledIn(Get(fields, RangeField)) ==> Get(fields, RangeField).Picked?
    ensures ds == [] <==> !Get(fields, RangeField).Picked?
    ensures ds != [] ==>
      ds == Search(Without(fields, {RangeField}), Window(fields[RangeField].start, fields[RangeField].end))
  {
    ValidateOne(fields, RangeField);
    match Validate(fields, {RangeField})
    case None => []
    case Some(valid) =>
      var range := valid[RangeField];
      Search(Without(valid, {RangeField}), RangeDuration(range).window)
  }

  /** What a search saves and fetches, in terms of the form: the range
      field is replaced by the duration, and both dispatches carry the
      first page. */
  lemma SearchKeepsFields(fields: Record)
    requires Get(fields, RangeField).Picked?
    ensures var ds := HandleSearch(fields);
      var window := Window(fields[RangeField].start, fields[RangeField].end);
      && |ds| == 2
      && ds[0].values.Keys == fields.Keys - {RangeField} + {"duration", "paging"}
      && RangeField !in ds[1].condition
      && Get(ds[0].values, "duration") == Dur(window) && Get(ds[1].condition, "queryDuration") == DurInput(window)
      && Get(ds[0].values, "paging") == Pg(InitPaging) && Get(ds[1].condition, "paging") == Pg(InitPaging)
  {
  }

  /** A search fetches every form field except the range as it was. */
  lemma SearchFetchesOtherFields(fields: Record)
    requires Get(fields, RangeField).Picked?
    ensures var ds := HandleSearch(fields);
      |ds| == 2 &&
      forall k :: k in fields && k != RangeField && k != "queryDuration" && k != "paging" ==>
        k in ds[1].condition && ds[1].condition[k] == fields[k]
  {
  }

  /** `handleTableChange`: the values are saved with the new paging; the
      fetched condition leaves out the duration and the application id and
      carries the duration's query form instead. When the duration cannot
      be read, only the save happens. */
  function HandleTableChange(values: Record, tc: TableChange): (ds: seq<Dispatch>)
    ensures 1 <= |ds| <= 2 && ds[0] == SaveVariables(WithPaging(values, tc))
    ensures "duration" in ds[0].values ==> ds[0].values["duration"] == values["duration"]
    ensures |ds| == 2 <==> DurationInput(Get(values, "duration")).Some?
    ensures |ds| == 2 ==> ds[1].FetchData? && "duration" !in ds[1].condition && "applicationId" !in ds[1].condition
    ensures |ds| == 2 ==> Get(ds[1].condition, "queryDuration") == DurationInput(Get(values, "duration")).value
    ensures |ds| == 2 ==> Get(ds[1].condition, "paging") == Pg(Paging(tc.current, tc.pageSize, true))
    ensures |ds| == 2 ==> forall k :: k in values && k !in {"duration", "applicationId", "queryDuration", "paging"} ==>
      k in ds[1].condition && ds[1].condition[k] == values[k]
    ensures |ds| == 2 ==> ds[1].condition.Keys == values.Keys - {"duration", "applicationId"} + {"queryDuration", "paging"}
  {
    var condition := WithPaging(values, tc);
    var saved := SaveVariables(condition);
    match DurationInput(Get(values, "duration"))
    case None => [saved]
    case Some(input) =>
      [saved, FetchData(WithDuration(Without(condition, {"duration", "applicationId"}), "queryDuration", input, condition["paging"]))]
  }

  /** The caller picker never disables an option. */
  function CallerDisabled(behindOption: Value, key: Value): (disabled: bool)
    ensures !disabled
  {
    false
  }

  /** The provider picker disables exactly the application chosen as the
      caller. */
  function ProviderDisabled(frontOption: Value, key: Value): (disabled: bool)
    ensures disabled <==> key == frontOption
  {
    frontOption == key
  }

  /** The two pickers' remembered choices. */
  datatype Pickers = Pickers(front: Value, behind: Value)

  /** `handleFrontChange`: the caller is remembered and the provider field
      is set back to all applications ('0'); the remembered provider stays. */
  function HandleFrontChange(p: Pickers, selected: Value): (r: (Pickers, Record))
    ensures r.0.front == selected && r.0.behind == p.behind
    ensures r.1.Keys == {"behindApplicationId"} && r.1["behindApplicationId"] == Str("0")
  {
    (p.(front := selected), map["behindApplicationId" := Str("0")])
  }

  /** After choosing a caller, that application is the one provider option
      disabled, no caller option is, and the provider field shows all
      applications. */
  lemma FrontChangeDisablesItself(p: Pickers, selected: Value, key: Value)
    ensures var (q, fields) := HandleFrontChange(p, selected);
      && (ProviderDisabled(q.front, key) <==> key == selected)
      && !CallerDisabled(q.behind, key)
      && fields["behindApplicationId"] == Str("0")
  {
  }

  /** `mapPropsToFields`: every saved value but the range goes back into
      its field; the range field shows the saved duration's start and end
      when there is one. A truthy duration is a duration object. */
  function MirrorFields(values: Record): (fields: Record)
    requires Truthy(Get(values, "duration")) ==> Get(values, "duration").Dur?
    ensures forall k :: k in values && k != RangeField ==> k in fields && fields[k] == values[k]
    ensures RangeField in fields <==> Truthy(Get(values, "duration"))
    ensures RangeField in fields ==>
      fields[RangeField] == Picked(values["duration"].window.start, values["duration"].window.end)
    ensures fields.Keys <= values.Keys + {RangeField}
  {
    var copied := Without(values, {RangeField});
    var duration := Get(values, "duration");
    if Truthy(duration) then copied[RangeField := Picked(duration.window.start, duration.window.end)]
    else copied
  }

  /** A search saves every form field except the range as it was. */
  lemma SearchSavesOtherFields(fields: Record, window: Window)
    requires "duration" !in fields && "paging" !in fields
    ensures var saved := Search(Without(fields, {RangeField}), window)[0].values;
      forall k :: k in fields && k != RangeField ==> k in saved && saved[k] == fields[k]
  {
  }

  /** Values that hold every field but the range, and a duration for the
      range's window, mirror back into exactly those fields. */
  lemma MirrorRestoresForm(saved: Record, fields: Record, window: Window)
    requires Get(saved, "duration") == Dur(window)
    requires Get(fields, RangeField) == Picked(window.start, window.end)
    requires forall k :: k in fields && k != RangeField ==> k in saved && saved[k] == fields[k]
    ensures var mirrored := MirrorFields(saved);
      forall k :: k in fields ==> k in mirrored && mirrored[k] == fields[k]
  {
  }

  /** A search followed by the form's mirror of the saved values gives the
      form back the range and every field it was submitted with. */
  lemma SearchThenMirror(fields: Record)
    requires Get(fields, RangeField).Picked?
    requires "duration" !in fields && "paging" !in fields
    ensures var ds := HandleSearch(fields);
      |ds| == 2 &&
      var mirrored := MirrorFields(ds[0].values);
      forall k :: k in fields ==> k in mirrored && mirrored[k] == fields[k]
  {
    var window := Window(fields[RangeField].start, fields[RangeField].end);
    var saved := HandleSearch(fields)[0].values;
    assert saved == Search(Without(fields, {RangeField}), window)[0].values;
    SearchSavesOtherFields(fields, window);
    MirrorRestoresForm(saved, fields, window);
  }

  /** After a table change the pager shows the page and size asked for;
      the fetch, when it happens, asks for the saved paging and for the
      query form of the saved duration. */
  lemma TableChangeShowsNewPage(values: Record, tc: TableChange, total: int)
    requires total >= 1
    ensures var ds := HandleTableChange(values, tc);
      && RenderPage(ds[0].values, total) == Some(PagerView(tc.current, tc.pageSize, total))
      && (|ds| == 2 ==> Get(ds[1].condition, "paging") == ds[0].values["paging"])
      && (|ds| == 2 ==> Get(ds[1].condition, "queryDuration") == DurationInput(Get(ds[0].values, "duration")).value)
  {
  }
}
