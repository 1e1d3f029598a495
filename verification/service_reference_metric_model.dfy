/** The service-reference-metric model: the metric brief the screen
    lists, its one reducer, its default variables and its history
    subscription. */
module ServiceReferenceMetricModel {
  import opened Wrappers
  import opened Values
  import opened ModelKit

  /** The metric brief the query returns; its rows are shown as they come. */
  datatype Data = Data(queryServiceReferenceMetricBrief: Listing<Value>)

  type State = ModelState<Data>

  const InitialData := Data(Placeholder)

  /** `saveSpans`: the new brief replaces the old one; the variables are
      left alone. */
  function SaveSpans(s: State, brief: Listing<Value>): (r: State)
    ensures r.data.queryServiceReferenceMetricBrief == brief
    ensures r.variables == s.variables
  {
    s.(data := Data(brief))
  }

  /** Saving is last-writer-wins: only the latest brief is kept. */
  lemma LatestBriefWins(s: State, first: Listing<Value>, second: Listing<Value>)
    ensures SaveSpans(SaveSpans(s, first), second) == SaveSpans(s, second)
  {
  }

  const Route := "/serviceReferenceMetric"

  /** The history subscription of this model. */
  function Subscription(loc: Location): (r: Option<InitVariables>)
    ensures r.Some? <==> loc.pathname == "/serviceReferenceMetric" && loc.state.Some?
    ensures r.Some? ==> Seeds(loc.state.value, r.value)
  {
    Subscribe(Route, loc)
  }
}
