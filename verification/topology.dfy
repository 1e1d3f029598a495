/** The topology screen's graph filter (nodes whose name matches one of
    the application patterns, the calls touching them, then the endpoints
    of those calls), its per-type node count, and the application-selection
    handler. Pattern matching is a parameter: regular-expression semantics
    are not modelled. */
module Topology {
  import opened Wrappers
  import opened Values
  import Seqs

  datatype Node = Node(id: int, name: string, nodeType: string)
  datatype Call = Call(source: int, target: int)
  datatype Graph = Graph(nodes: seq<Node>, calls: seq<Call>)

  /** `patterns.findIndex(r => name.match(r)) > -1`. */
  predicate NameMatches(name: string, patterns: seq<string>, matches: (string, string) -> bool) {
    exists i :: 0 <= i < |patterns| && matches(name, patterns[i])
  }

  /** The call has the node id at one of its ends. */
  predicate Touches(c: Call, id: int) {
    c.source == id || c.target == id
  }

  predicate TouchesAny(c: Call, nodes: seq<Node>) {
    exists i :: 0 <= i < |nodes| && Touches(c, nodes[i].id)
  }

  predicate EndpointOf(n: Node, calls: seq<Call>) {
    exists i :: 0 <= i < |calls| && Touches(calls[i], n.id)
  }

  function MatchingNodes(g: Graph, patterns: seq<string>, matches: (string, string) -> bool): seq<Node> {
    Seqs.Filter(g.nodes, (n: Node) => NameMatches(n.name, patterns, matches))
  }

  /** The call filter applied to the graph: without a pattern list the graph
      is returned as it is. */
  function Filter(g: Graph, patterns: Option<seq<string>>, matches: (string, string) -> bool): (r: Graph)
    ensures patterns.None? ==> r == g
    ensures |r.nodes| <= |g.nodes| && |r.calls| <= |g.calls|
  {
    match patterns
    case None => g
    case Some(ps) =>
      var matched := MatchingNodes(g, ps, matches);
      var calls := Seqs.Filter(g.calls, (c: Call) => TouchesAny(c, matched));
      Graph(Seqs.Filter(g.nodes, (n: Node) => EndpointOf(n, calls)), calls)
  }

  /** Kept calls are exactly those with an end at a node whose name matches
      some pattern. */
  lemma KeptCalls(g: Graph, ps: seq<string>, matches: (string, string) -> bool, c: Call)
    ensures c in Filter(g, Some(ps), matches).calls <==>
      c in g.calls && exists n :: n in g.nodes && NameMatches(n.name, ps, matches) && Touches(c, n.id)
  {
    var matched := MatchingNodes(g, ps, matches);
    Seqs.FilterMembers(g.nodes, (n: Node) => NameMatches(n.name, ps, matches));
    Seqs.FilterMembers(g.calls, (c: Call) => TouchesAny(c, matched));
    if TouchesAny(c, matched) {
      var i :| 0 <= i < |matched| && Touches(c, matched[i].id);
      assert matched[i] in matched;
    }
    if exists n :: n in g.nodes && NameMatches(n.name, ps, matches) && Touches(c, n.id) {
      var n :| n in g.nodes && NameMatches(n.name, ps, matches) && Touches(c, n.id);
      assert n in matched;
      var i :| 0 <= i < |matched| && matched[i] == n;
      assert TouchesAny(c, matched);
    }
  }

  /** Kept nodes are exactly the endpoints of kept calls. */
  lemma KeptNodes(g: Graph, ps: seq<string>, matches: (string, string) -> bool, n: Node)
    ensures var r := Filter(g, Some(ps), matches);
      n in r.nodes <==> n in g.nodes && exists c :: c in r.calls && Touches(c, n.id)
  {
    var r := Filter(g, Some(ps), matches);
    Seqs.FilterMembers(g.nodes, (n: Node) => EndpointOf(n, r.calls));
    if exists c :: c in r.calls && Touches(c, n.id) {
      var c :| c in r.calls && Touches(c, n.id);
      var i :| 0 <= i < |r.calls| && r.calls[i] == c;
      assert EndpointOf(n, r.calls);
    }
  }

  /** The filter keeps the input order of nodes and of calls. */
  lemma FilterKeepsOrder(g: Graph, patterns: Option<seq<string>>, matches: (string, string) -> bool)
    ensures Seqs.IsSubsequence(Filter(g, patterns, matches).nodes, g.nodes)
    ensures Seqs.IsSubsequence(Filter(g, patterns, matches).calls, g.calls)
  {
    match patterns
    case None =>
      Seqs.FilterIsSubsequence(g.nodes, (n: Node) => true);
      assert Seqs.Filter(g.nodes, (n: Node) => true) == g.nodes by {
        Seqs.FilterKeepsAll(g.nodes, (n: Node) => true);
      }
      Seqs.FilterIsSubsequence(g.calls, (c: Call) => true);
      assert Seqs.Filter(g.calls, (c: Call) => true) == g.calls by {
        Seqs.FilterKeepsAll(g.calls, (c: Call) => true);
      }
    case Some(ps) =>
      var matched := MatchingNodes(g, ps, matches);
      var calls := Seqs.Filter(g.calls, (c: Call) => TouchesAny(c, matched));
      Seqs.FilterIsSubsequence(g.calls, (c: Call) => TouchesAny(c, matched));
      Seqs.FilterIsSubsequence(g.nodes, (n: Node) => EndpointOf(n, calls));
  }

  /** A present but empty pattern list keeps nothing. */
  lemma EmptyPatternsKeepNothing(g: Graph, matches: (string, string) -> bool)
    ensures Filter(g, Some([]), matches) == Graph([], [])
  {
    var matched := MatchingNodes(g, [], matches);
    Seqs.FilterNone(g.nodes, (n: Node) => NameMatches(n.name, [], matches));
    var calls := Seqs.Filter(g.calls, (c: Call) => TouchesAny(c, matched));
    Seqs.FilterNone(g.calls, (c: Call) => TouchesAny(c, matched));
    Seqs.FilterNone(g.nodes, (n: Node) => EndpointOf(n, calls));
  }

  /** A matching node that no call touches is dropped, while a node that
      does not match but shares a call with a matching node is kept. */
  lemma MatchIsNotEnough(g: Graph, ps: seq<string>, matches: (string, string) -> bool, lone: Node, m: Node, neighbour: Node, c: Call)
    requires lone in g.nodes && forall d :: d in g.calls ==> !Touches(d, lone.id)
    requires m in g.nodes && NameMatches(m.name, ps, matches)
    requires neighbour in g.nodes && c in g.calls && Touches(c, m.id) && Touches(c, neighbour.id)
    ensures lone !in Filter(g, Some(ps), matches).nodes
    ensures neighbour in Filter(g, Some(ps), matches).nodes
  {
    var r := Filter(g, Some(ps), matches);
    KeptCalls(g, ps, matches, c);
    KeptNodes(g, ps, matches, lone);
    KeptNodes(g, ps, matches, neighbour);
    Seqs.FilterMembers(g.calls, (d: Call) => TouchesAny(d, MatchingNodes(g, ps, matches)));
  }

  // ----- node-type histogram ----------------------------------------------

  datatype TypeCount = TypeCount(nodeType: string, count: nat)

  /** How many nodes have the type. */
  function Occurrences(nodes: seq<Node>, t: string): nat
    decreases |nodes|
  {
    if |nodes| == 0 then 0
    else Occurrences(nodes[..|nodes| - 1], t) + (if nodes[|nodes| - 1].nodeType == t then 1 else 0)
  }

  /** The distinct node types in the order they are first seen. */
  function FirstSeenTypes(nodes: seq<Node>): seq<string>
    decreases |nodes|
  {
    if |nodes| == 0 then []
    else
      var earlier := FirstSeenTypes(nodes[..|nodes| - 1]);
      var t := nodes[|nodes| - 1].nodeType;
      if t in earlier then earlier else earlier + [t]
  }

  function TypesOf(counts: seq<TypeCount>): (ts: seq<string>)
    ensures |ts| == |counts|
    ensures forall i :: 0 <= i < |counts| ==> ts[i] == counts[i].nodeType
  {
    seq(|counts|, i requires 0 <= i < |counts| => counts[i].nodeType)
  }

  function Total(counts: seq<TypeCount>): nat
    decreases |counts|
  {
    if |counts| == 0 then 0 else Total(counts[..|counts| - 1]) + counts[|counts| - 1].count
  }

  lemma {:induction false} TotalBump(counts: seq<TypeCount>, j: nat)
    requires j < |counts|
    ensures Total(counts[j := TypeCount(counts[j].nodeType, counts[j].count + 1)]) == Total(counts) + 1
    decreases |counts|
  {
    var bumped := counts[j := TypeCount(counts[j].nodeType, counts[j].count + 1)];
    if j < |counts| - 1 {
      assert bumped[..|bumped| - 1] == counts[..|counts| - 1][j := TypeCount(counts[j].nodeType, counts[j].count + 1)];
      TotalBump(counts[..|counts| - 1], j);
    } else {
      assert bumped[..|bumped| - 1] == counts[..|counts| - 1];
    }
  }

  lemma {:induction false} UnseenTypeAbsent(nodes: seq<Node>, t: string)
    requires t !in FirstSeenTypes(nodes)
    ensures Occurrences(nodes, t) == 0
    decreases |nodes|
  {
    if |nodes| > 0 {
      UnseenTypeAbsent(nodes[..|nodes| - 1], t);
    }
  }

  /** The position of type `t` among the counted types, or `|counts|`. */
  function Find(counts: seq<TypeCount>, t: string): (j: nat)
    ensures j <= |counts|
    ensures j < |counts| ==> counts[j].nodeType == t
    ensures j == |counts| ==> t !in TypesOf(counts)
    decreases |counts|
  {
    if |counts| == 0 then 0
    else if counts[0].nodeType == t then 0
    else 1 + Find(counts[1..], t)
  }

  /** `counts` is the histogram of `nodes`: the first-seen types, each with
      its number of nodes, adding up to the number of nodes. */
  predicate Tallies(counts: seq<TypeCount>, nodes: seq<Node>) {
    && TypesOf(counts) == FirstSeenTypes(nodes)
    && (forall j :: 0 <= j < |counts| ==> counts[j].count == Occurrences(nodes, counts[j].nodeType))
    && Total(counts) == |nodes|
  }

  /** One step of the `forEach`: increment the type's entry, or append it
      with count 1. */
  function Bump(counts: seq<TypeCount>, t: string): (r: seq<TypeCount>)
    ensures |r| == |counts| || |r| == |counts| + 1
  {
    var j := Find(counts, t);
    if j < |counts| then counts[j := TypeCount(t, counts[j].count + 1)]
    else counts + [TypeCount(t, 1)]
  }

  /** Counting one more node keeps the histogram exact. */
  lemma BumpTallies(counts: seq<TypeCount>, nodes: seq<Node>, n: Node)
    requires Tallies(counts, nodes)
    ensures Tallies(Bump(counts, n.nodeType), nodes + [n])
  {
    if Find(counts, n.nodeType) < |counts| {
      BumpSeenTallies(counts, nodes, n);
    } else {
      BumpNewTallies(counts, nodes, n);
    }
  }

  /** A node of an already counted type increments that type's entry. */
  lemma BumpSeenTallies(counts: seq<TypeCount>, nodes: seq<Node>, n: Node)
    requires Tallies(counts, nodes)
    requires Find(counts, n.nodeType) < |counts|
    ensures Tallies(Bump(counts, n.nodeType), nodes + [n])
  {
    var s := nodes + [n];
    var t := n.nodeType;
    assert s[..|s| - 1] == nodes;
    FirstSeenTypesExact(nodes);
    var j := Find(counts, t);
    var r := Bump(counts, t);
    assert t in FirstSeenTypes(nodes) by {
      assert TypesOf(counts)[j] == t;
    }
    assert TypesOf(r) == TypesOf(counts);
    forall k | 0 <= k < |r|
      ensures r[k].count == Occurrences(s, r[k].nodeType)
    {
      if k != j {
        assert TypesOf(counts)[k] != TypesOf(counts)[j];
      }
    }
    TotalBump(counts, j);
  }

  /** A node of a type not yet counted appends that type with count 1. */
  lemma BumpNewTallies(counts: seq<TypeCount>, nodes: seq<Node>, n: Node)
    requires Tallies(counts, nodes)
    requires Find(counts, n.nodeType) == |counts|
    ensures Tallies(Bump(counts, n.nodeType), nodes + [n])
  {
    var s := nodes + [n];
    var t := n.nodeType;
    assert s[..|s| - 1] == nodes;
    FirstSeenTypesExact(nodes);
    var r := Bump(counts, t);
    UnseenTypeAbsent(nodes, t);
    assert r == counts + [TypeCount(t, 1)];
    assert TypesOf(r) == TypesOf(counts) + [t];
    assert forall k :: 0 <= k < |counts| ==> counts[k].nodeType in FirstSeenTypes(nodes);
  }

  /** `renderNodeType`: one entry per distinct node type, in first-seen
      order, each with the number of nodes of that type; the counts add up
      to the number of nodes. */
  method CountTypes(nodes: seq<Node>) returns (counts: seq<TypeCount>)
    ensures |counts| == |FirstSeenTypes(nodes)|
    ensures forall j :: 0 <= j < |counts| ==> counts[j].nodeType == FirstSeenTypes(nodes)[j]
    ensures forall j :: 0 <= j < |counts| ==> counts[j].count == Occurrences(nodes, counts[j].nodeType)
    ensures Total(counts) == |nodes|
  {
    counts := [];
    var i := 0;
    while i < |nodes|
      invariant 0 <= i <= |nodes|
      invariant Tallies(counts, nodes[..i])
    {
      BumpTallies(counts, nodes[..i], nodes[i]);
      assert nodes[..i + 1] == nodes[..i] + [nodes[i]];
      counts := Bump(counts, nodes[i].nodeType);
      i := i + 1;
    }
    assert nodes[..i] == nodes;
  }

  /** The first-seen type list has no repetition and names exactly the
      types that occur. */
  lemma {:induction false} FirstSeenTypesExact(nodes: seq<Node>)
    ensures forall a, b :: 0 <= a < b < |FirstSeenTypes(nodes)| ==> FirstSeenTypes(nodes)[a] != FirstSeenTypes(nodes)[b]
    ensures forall t :: t in FirstSeenTypes(nodes) <==> Occurrences(nodes, t) > 0
    decreases |nodes|
  {
    if |nodes| > 0 {
      FirstSeenTypesExact(nodes[..|nodes| - 1]);
    }
  }

  // ----- application selection ----------------------------------------------

  /** `handleSelectedApplication`: the `appInfo` stored for the side panel.
      A truthy argument is stored as given, anything falsy as `null`. */
  function SelectedApplication(appInfo: Value): (stored: Value)
    ensures Truthy(appInfo) ==> stored == appInfo
    ensures !Truthy(appInfo) ==> stored == Null
    ensures stored == Null || Truthy(stored)
  {
    if Truthy(appInfo) then appInfo else Null
  }

  /** Storing is idempotent: handing the stored value back in stores it
      unchanged, so a selection survives a re-render. */
  lemma SelectionIdempotent(appInfo: Value)
    ensures SelectedApplication(SelectedApplication(appInfo)) == SelectedApplication(appInfo)
  {
  }
}
