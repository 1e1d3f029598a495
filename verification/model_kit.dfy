/** What the three dashboard models have in common: the state shape their
    reducers rebuild, the history subscription that seeds their variables,
    the default search values and the pop-up after a mutation. */
module ModelKit {
  import opened Wrappers
  import opened Values
  import opened Notifications
  import Clock

  /** A list query's answer held in a model: the placeholder of the
      initial state (an object with an empty list) or the items and total
      the server returned. */
  datatype Listing<T> = Placeholder | Listed(items: seq<T>, total: int)

  /** A model's state: the `data` the reducers rebuild and everything else
      in it (the search variables), which no reducer touches. */
  datatype ModelState<D> = ModelState(data: D, variables: Record)

  /** A reducer's new state and the pop-ups it showed. */
  datatype Step<D> = Step(state: ModelState<D>, notices: seq<Notification>)

  /** The `state` object a history entry carries; `values` is the empty
      record when the entry has none (spreading undefined adds nothing). */
  datatype LocationState = LocationState(queryOrder: Value, values: Record, labels: Value)

  /** A history entry; `state` is `None` when it is undefined or null. */
  datatype Location = Location(pathname: string, state: Option<LocationState>)

  /** The `initVariables` payload a subscription dispatches. */
  datatype InitVariables = InitVariables(values: Record, labels: Value)

  const DefaultOrder := Str("BY_TIME_BUCKET")

  /** The subscription each model registers: on its own pathname, and only
      with a state object, it seeds the variables with the state's values
      and a `queryOrder` that the state's own (or the default, when that is
      undefined) forces over the values' one. */
  function Subscribe(route: string, loc: Location): (r: Option<InitVariables>)
    ensures r.Some? <==> loc.pathname == route && loc.state.Some?
    ensures r.Some? ==> r.value.labels == loc.state.value.labels
    ensures r.Some? ==> r.value.values.Keys == loc.state.value.values.Keys + {"queryOrder"}
    ensures r.Some? ==> forall k :: k in r.value.values && k != "queryOrder" ==>
      r.value.values[k] == loc.state.value.values[k]
    ensures r.Some? && !loc.state.value.queryOrder.Undefined? ==>
      r.value.values["queryOrder"] == loc.state.value.queryOrder
    ensures r.Some? && loc.state.value.queryOrder.Undefined? ==>
      r.value.values["queryOrder"] == DefaultOrder
  {
    if loc.pathname == route && loc.state.Some? then
      var st := loc.state.value;
      var order := if st.queryOrder.Undefined? then DefaultOrder else st.queryOrder;
      Some(InitVariables(Spread(st.values, map["queryOrder" := order]), st.labels))
    else None
  }

  /** How a subscription seeds the variables from a location state: the
      labels are forwarded, every value is kept except `queryOrder`, which
      is the state's own or the default when that is undefined. */
  predicate Seeds(st: LocationState, v: InitVariables) {
    && v.labels == st.labels
    && v.values.Keys == st.values.Keys + {"queryOrder"}
    && (forall k :: k in v.values && k != "queryOrder" ==> v.values[k] == st.values[k])
    && v.values["queryOrder"] == (if st.queryOrder.Undefined? then DefaultOrder else st.queryOrder)
  }

  /** A `queryOrder` inside the state's values never survives: only the
      state's own `queryOrder` decides. */
  lemma ValuesOrderIgnored(route: string, pathname: string, st: LocationState, order: Value)
    ensures var a := Subscribe(route, Location(pathname, Some(st)));
      var b := Subscribe(route, Location(pathname, Some(st.(values := st.values["queryOrder" := order]))));
      a == b
  {
    var m := map["queryOrder" := (if st.queryOrder.Undefined? then DefaultOrder else st.queryOrder)];
    var withOrder := st.values["queryOrder" := order];
    assert Spread(withOrder, m).Keys == Spread(st.values, m).Keys;
    assert Spread(withOrder, m) == Spread(st.values, m);
  }

  /** The default search values of every model: a window of the last
      fifteen minutes ending now, and the time-bucket order. */
  function InitialValues(now: int): (r: Record)
    ensures r.Keys == {"duration", "queryOrder"}
    ensures r["queryOrder"] == DefaultOrder
    ensures r["duration"].Dur? && r["duration"].window.end == Valid(now)
    ensures var start := r["duration"].window.start;
      start.Valid? && now - start.ms == 15 * Clock.MinuteMs
  {
    map[
      "duration" := Dur(Window(Valid(now - Clock.SpanMs(Clock.Minutes(15))), Valid(now))),
      "queryOrder" := DefaultOrder]
  }

  /** The default window moves with the clock: a later start gives the
      same fifteen minutes, shifted by exactly the time that passed. */
  lemma InitialWindowFollowsClock(now: int, later: int)
    ensures var a := InitialValues(now)["duration"].window;
      var b := InitialValues(later)["duration"].window;
      && b.start.ms - a.start.ms == later - now
      && b.end.ms - a.end.ms == later - now
      && (InitialValues(now) == InitialValues(later) <==> now == later)
  {
    if InitialValues(now) == InitialValues(later) {
      assert InitialValues(now)["duration"].window.end == InitialValues(later)["duration"].window.end;
    }
  }

  /** The pop-up after a mutation: success exactly when the server's
      `errCode` is the number 0 (strict equality: "0" is a failure). */
  function MutationNotice(errCode: Value, success: string, failure: string): (n: Notification)
    ensures n.Toast?
    ensures n.kind == SuccessKind <==> errCode == Num(0)
    ensures n.message == (if errCode == Num(0) then success else failure)
  {
    if errCode == Num(0) then Toast(SuccessKind, success) else Toast(ErrorKind, failure)
  }

  /** Dispatching actions one after another: each reducer sees the state
      the previous one left, the pop-ups accumulate in order, and a reducer
      that throws (`None`) ends the run. */
  function Run<D, A>(s: ModelState<D>, actions: seq<A>, reduce: (ModelState<D>, A) -> Option<Step<D>>): (r: Option<Step<D>>)
    ensures |actions| == 0 ==> r == Some(Step(s, []))
    ensures |actions| > 0 && reduce(s, actions[0]).None? ==> r.None?
    decreases |actions|
  {
    if |actions| == 0 then Some(Step(s, []))
    else
      match reduce(s, actions[0])
      case None => None
      case Some(first) =>
        match Run(first.state, actions[1..], reduce)
        case None => None
        case Some(rest) => Some(Step(rest.state, first.notices + rest.notices))
  }

  /** Running a single action is running its reducer. */
  lemma RunOne<D, A>(s: ModelState<D>, a: A, reduce: (ModelState<D>, A) -> Option<Step<D>>)
    ensures Run(s, [a], reduce) == reduce(s, a)
  {
    assert [a][1..] == [];
    match reduce(s, a)
    case None =>
    case Some(first) =>
      assert Run(first.state, [a][1..], reduce) == Some(Step(first.state, []));
      assert first.notices + [] == first.notices;
  }

  /** Dispatching two batches one after the other is dispatching their
      concatenation: the second batch starts from the state the first
      left, and the pop-ups of both are shown in order. */
  lemma {:induction false} RunConcat<D, A>(s: ModelState<D>, xs: seq<A>, ys: seq<A>, reduce: (ModelState<D>, A) -> Option<Step<D>>)
    ensures Run(s, xs + ys, reduce) ==
      match Run(s, xs, reduce)
      case None => None
      case Some(a) =>
        match Run(a.state, ys, reduce)
        case None => None
        case Some(b) => Some(Step(b.state, a.notices + b.notices))
    decreases |xs|
  {
    if |xs| == 0 {
      assert xs + ys == ys;
      match Run(s, ys, reduce)
      case None =>
      case Some(b) => assert [] + b.notices == b.notices;
    } else {
      assert (xs + ys)[0] == xs[0];
      assert (xs + ys)[1..] == xs[1..] + ys;
      match reduce(s, xs[0])
      case None =>
      case Some(first) =>
        RunConcat(first.state, xs[1..], ys, reduce);
        match Run(first.state, xs[1..], reduce)
        case None =>
        case Some(mid) =>
          match Run(mid.state, ys, reduce)
          case None =>
          case Some(b) =>
            assert first.notices + (mid.notices + b.notices) == (first.notices + mid.notices) + b.notices;
    }
  }
}
