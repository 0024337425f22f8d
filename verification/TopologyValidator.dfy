/** `TopologyValidator.validate` (topology_validator.py): the ordered checks that
    run before a graph is built.  `FirstFault` says, over declared edges and
    reachability alone, which check rejects a specification. */
module TopologyValidator {
  import opened Outcomes
  import opened Sequences
  import opened Walks
  import opened LongestPath

  datatype GraphSpec = GraphSpec(nodes: seq<Name>, edges: seq<Edge>, maxIterations: int)

  datatype TopologyError =
    | UnknownEndpoint
    | NoEntryEdge
    | MultipleEntryEdges
    | EntryIsStart
    | NoExitEdge
    | DuplicateEdge
    | SelfLoop
    | Unreachable(names: set<Name>)
    | CannotReachEnd(names: set<Name>)
    | TooManyNodes
    | TooDeep
    | NonPositiveMaxIterations

  const SENTINELS: set<Name> := {START, END}

  function RealNodes(nodes: seq<Name>): seq<Name> {
    if nodes == [] then []
    else if nodes[0] in SENTINELS then RealNodes(nodes[1..])
    else [nodes[0]] + RealNodes(nodes[1..])
  }

  function RealNames(spec: GraphSpec): set<Name> {
    set n | n in spec.nodes && n !in SENTINELS
  }

  lemma RealNodesElements(nodes: seq<Name>)
    ensures Elements(RealNodes(nodes)) == set n | n in nodes && n !in SENTINELS
  {
    if nodes != [] {
      RealNodesElements(nodes[1..]);
      ElementsUncons(nodes);
      assert forall n :: n in nodes <==> n == nodes[0] || n in nodes[1..];
      if nodes[0] !in SENTINELS {
        ElementsUncons(RealNodes(nodes));
      }
    }
  }

  ghost predicate EndpointsDeclared(spec: GraphSpec) {
    forall e :: e in spec.edges ==>
      e.source in SENTINELS + RealNames(spec) && e.target in SENTINELS + RealNames(spec)
  }

  ghost predicate HasSelfLoop(spec: GraphSpec) {
    exists e :: e in spec.edges && e.source == e.target && e.source !in SENTINELS
  }

  ghost predicate ReachesEnd(spec: GraphSpec, n: Name) {
    exists last :: Edge(last, END) in spec.edges && last in RealNames(spec)
      && Reaches(EdgesWithin(spec.edges, RealNames(spec)), n, last)
  }

  ghost function UnreachableNames(spec: GraphSpec, entry: Name): set<Name> {
    set n | n in RealNames(spec) && !(entry != END && Reaches(EdgesWithin(spec.edges, RealNames(spec)), entry, n))
  }

  ghost function DeadEnds(spec: GraphSpec): set<Name> {
    set n | n in RealNames(spec) && !ReachesEnd(spec, n)
  }

  /** A simple path from START to END along declared edges. */
  ghost predicate StartToEnd(spec: GraphSpec, p: seq<Name>) {
    WalkFromTo(Elements(spec.edges), p, START, END) && Distinct(p)
  }

  /** What the depth check rejects.  With a real entry node this is "some simple
      START-to-END path has more than `cap` edges"; when START leads straight to
      END, a declared END-to-END edge is counted as well. */
  ghost predicate DepthExceeds(spec: GraphSpec, entry: Name, cap: int) {
    if entry == END then (if Edge(END, END) in spec.edges then 2 else 1) > cap
    else 1 > cap || exists p :: StartToEnd(spec, p) && |p| - 1 > cap
  }

  ghost function FirstFault(spec: GraphSpec, maxDepth: Option<int>, maxNodes: Option<int>): Option<TopologyError> {
    if !EndpointsDeclared(spec) then Some(UnknownEndpoint)
    else if |EdgesFrom(spec.edges, START)| == 0 then Some(NoEntryEdge)
    else if |EdgesFrom(spec.edges, START)| > 1 then Some(MultipleEntryEdges)
    else
      var entry := EdgesFrom(spec.edges, START)[0].target;
      if entry == START then Some(EntryIsStart)
      else if !(exists e :: e in spec.edges && e.target == END) then Some(NoExitEdge)
      else if !Distinct(spec.edges) then Some(DuplicateEdge)
      else if HasSelfLoop(spec) then Some(SelfLoop)
      else if UnreachableNames(spec, entry) != {} then Some(Unreachable(UnreachableNames(spec, entry)))
      else if DeadEnds(spec) != {} then Some(CannotReachEnd(DeadEnds(spec)))
      else if maxNodes.Some? && |RealNodes(spec.nodes)| > maxNodes.value then Some(TooManyNodes)
      else if maxDepth.Some? && DepthExceeds(spec, entry, maxDepth.value) then Some(TooDeep)
      else if spec.maxIterations <= 0 then Some(NonPositiveMaxIterations)
      else None
  }

  // ---- The depth check against all simple paths ----

  /** The single entry edge, its target neither START nor undeclared. */
  ghost predicate SingleEntry(spec: GraphSpec, entry: Name) {
    && EndpointsDeclared(spec)
    && (forall e :: e in spec.edges && e.source == START ==> e.target == entry)
    && Edge(START, entry) in spec.edges
    && entry != START
  }

  lemma EntryIsSingle(spec: GraphSpec)
    requires EndpointsDeclared(spec) && |EdgesFrom(spec.edges, START)| == 1
    requires EdgesFrom(spec.edges, START)[0].target != START
    ensures SingleEntry(spec, EdgesFrom(spec.edges, START)[0].target)
  {
    var es := EdgesFrom(spec.edges, START);
    assert es[0] in es;
    forall e | e in spec.edges && e.source == START
      ensures e == es[0]
    {
      assert e in es;
    }
    assert es[0] == Edge(START, es[0].target);
  }

  /** A simple path over real edges from the entry to a node with an edge to END. */
  ghost predicate RealRoute(spec: GraphSpec, entry: Name, q: seq<Name>) {
    RealPath(EdgesWithin(spec.edges, RealNames(spec)), TerminalNodes(EdgesTo(spec.edges, END)), entry, q)
  }

  /** Cutting the sentinels off a simple START-to-END path leaves a simple path
      over real edges from the entry to a terminal node. */
  lemma InnerPath(spec: GraphSpec, entry: Name, p: seq<Name>)
    requires SingleEntry(spec, entry) && entry != END && StartToEnd(spec, p)
    ensures |p| >= 3
    ensures RealRoute(spec, entry, p[1..|p| - 1])
  {
    var R := Elements(spec.edges);
    assert |p| >= 2;
    assert Edge(p[0], p[0 + 1]) in R;
    var q := p[1..|p| - 1];
    assert p[1] == entry;
    var e := Edge(p[|p| - 2], p[|p| - 2 + 1]);
    assert e in R && e in EdgesTo(spec.edges, END);
    forall i | 0 <= i < |q|
      ensures q[i] in RealNames(spec)
    {
      assert q[i] == p[i + 1] && q[i] != p[0] && q[i] != p[|p| - 1];
      assert Edge(p[i], p[i + 1]) in R;
    }
    forall i | 0 <= i < |q| - 1
      ensures Edge(q[i], q[i + 1]) in EdgesWithin(spec.edges, RealNames(spec))
    {
      assert Edge(p[i + 1], p[i + 1 + 1]) in R;
    }
    assert q[|q| - 1] == e.source;
  }

  lemma OuterPath(spec: GraphSpec, entry: Name, q: seq<Name>)
    requires SingleEntry(spec, entry) && entry in RealNames(spec)
    requires RealRoute(spec, entry, q)
    ensures StartToEnd(spec, [START] + q + [END])
  {
    var R := EdgesWithin(spec.edges, RealNames(spec));
    var p := [START] + q + [END];
    forall i | 0 <= i < |q|
      ensures q[i] in RealNames(spec)
    {
      if i > 0 {
        assert Edge(q[i - 1], q[i - 1 + 1]) in R;
      }
    }
    var e :| e in EdgesTo(spec.edges, END) && e.source == q[|q| - 1];
    forall i | 0 <= i < |p| - 1
      ensures Edge(p[i], p[i + 1]) in Elements(spec.edges)
    {
      if i == |q| {
        assert e == Edge(p[i], p[i + 1]);
      } else if i > 0 {
        assert p[i] == q[i - 1] && p[i + 1] == q[i - 1 + 1];
        assert Edge(q[i - 1], q[i - 1 + 1]) in R;
      }
    }
    forall i, j | 0 <= i < j < |p|
      ensures p[i] != p[j]
    {
      if i > 0 && j < |p| - 1 {
        assert p[i] == q[i - 1] && p[j] == q[j - 1];
      } else if i > 0 {
        assert p[i] == q[i - 1];
      } else if j < |p| - 1 {
        assert p[j] == q[j - 1];
      }
    }
  }

  /** With a real entry node the search result is the maximum edge count over all
      simple START-to-END paths (and 1 when there is none). */
  lemma LongestIsMaximum(spec: GraphSpec, entry: Name, longest: nat)
    requires SingleEntry(spec, entry) && entry != END
    requires forall q :: RealRoute(spec, entry, q) ==> |q| + 1 <= longest
    requires longest == 1 || exists q :: RealRoute(spec, entry, q) && longest == |q| + 1
    ensures forall p :: StartToEnd(spec, p) ==> |p| - 1 <= longest
    ensures longest == 1 || exists p :: StartToEnd(spec, p) && longest == |p| - 1
    ensures longest == 1 <==> !exists p :: StartToEnd(spec, p)
  {
    var R, T := EdgesWithin(spec.edges, RealNames(spec)), TerminalNodes(EdgesTo(spec.edges, END));
    assert entry in RealNames(spec) by {
      assert Edge(START, entry).target in SENTINELS + RealNames(spec);
    }
    forall p | StartToEnd(spec, p)
      ensures 2 <= |p| - 1 <= longest
    {
      InnerPath(spec, entry, p);
    }
    if longest != 1 {
      var q :| RealPath(R, T, entry, q) && longest == |q| + 1;
      OuterPath(spec, entry, q);
      assert longest == |[START] + q + [END]| - 1;
    }
  }

  /** A node that reaches END heads a simple path to END: drop every detour. */
  lemma SimpleWalkExists(R: set<Edge>, p: seq<Name>) returns (q: seq<Name>)
    requires IsWalk(R, p)
    ensures WalkFromTo(R, q, p[0], p[|p| - 1]) && Distinct(q)
    decreases |p|
  {
    if Distinct(p) {
      q := p;
    } else {
      var i, j :| 0 <= i < j < |p| && p[i] == p[j];
      var shorter := p[..i] + p[j..];
      forall k | 0 <= k < |shorter| - 1
        ensures Edge(shorter[k], shorter[k + 1]) in R
      {
        if k < i {
          assert Edge(p[k], p[k + 1]) in R;
        } else {
          var m := k - i + j;
          assert shorter[k] == p[m] && shorter[k + 1] == p[m + 1];
          assert Edge(p[m], p[m + 1]) in R;
        }
      }
      q := SimpleWalkExists(R, shorter);
    }
  }

  lemma EntryReachingEndHasPath(spec: GraphSpec, entry: Name) returns (p: seq<Name>)
    requires SingleEntry(spec, entry) && entry != END && ReachesEnd(spec, entry)
    ensures StartToEnd(spec, p) && |p| >= 3
  {
    var R := EdgesWithin(spec.edges, RealNames(spec));
    assert entry in RealNames(spec) by {
      assert Edge(START, entry).target in SENTINELS + RealNames(spec);
    }
    var last :| Edge(last, END) in spec.edges && last in RealNames(spec) && Reaches(R, entry, last);
    var w :| WalkFromTo(R, w, entry, last);
    var q := SimpleWalkExists(R, w);
    assert Edge(last, END) in EdgesTo(spec.edges, END);
    assert last in TerminalNodes(EdgesTo(spec.edges, END));
    OuterPath(spec, entry, q);
    p := [START] + q + [END];
  }

  /** Once the reachability checks have passed, the depth check means "some
      simple START-to-END path has more than `cap` edges" for every cap, except
      exactly when START leads straight to END and END has an edge to itself. */
  lemma DepthCheckExact(spec: GraphSpec, entry: Name)
    requires SingleEntry(spec, entry)
    requires entry == END || ReachesEnd(spec, entry)
    ensures (forall cap :: DepthExceeds(spec, entry, cap) <==> exists p :: StartToEnd(spec, p) && |p| - 1 > cap)
       <==> !(entry == END && Edge(END, END) in spec.edges)
  {
    if entry == END {
      forall p | StartToEnd(spec, p)
        ensures |p| - 1 == 1
      {
        assert Edge(p[0], p[0 + 1]) in Elements(spec.edges);
        assert p[1] == END == p[|p| - 1];
      }
      assert StartToEnd(spec, [START, END]);
      assert |[START, END]| - 1 == 1;
      assert DepthExceeds(spec, entry, 1) <==> Edge(END, END) in spec.edges;
    } else {
      var p := EntryReachingEndHasPath(spec, entry);
      assert |p| - 1 > 1;
    }
  }

  /** So a specification whose one path has a single edge is refused by a cap of 1. */
  lemma WronglyRefused()
    ensures var spec := GraphSpec([], [Edge(START, END), Edge(END, END)], 1);
      && FirstFault(spec, Some(1), None) == Some(TooDeep)
      && StartToEnd(spec, [START, END]) && forall p :: StartToEnd(spec, p) ==> |p| - 1 == 1
  {
    var edges := [Edge(START, END), Edge(END, END)];
    var spec := GraphSpec([], edges, 1);
    assert edges[1..] == [Edge(END, END)] && edges[1..][1..] == [];
    assert EdgesFrom(edges[1..][1..], START) == [] && EdgesFrom(edges[1..], START) == [];
    assert EdgesFrom(edges, START) == [Edge(START, END)];
    assert edges[0] in edges && edges[1] in edges;
    forall p | StartToEnd(spec, p)
      ensures |p| - 1 == 1
    {
      assert Edge(p[0], p[0 + 1]) in Elements(edges);
      assert p[1] == END == p[|p| - 1];
    }
  }

  /** The reported length is at least 2 exactly when START does not lead straight to
      END or END has an edge to itself. */
  lemma AtLeastTwo(spec: GraphSpec, entry: Name, longest: nat)
    requires SingleEntry(spec, entry) && (entry == END || ReachesEnd(spec, entry))
    requires forall q :: RealRoute(spec, entry, q) ==> |q| + 1 <= longest
    requires longest == 1 || exists q :: RealRoute(spec, entry, q) && longest == |q| + 1
    ensures longest >= 2 <==> entry != END || Edge(END, END) in spec.edges
  {
    if entry == END {
      LoneEntryLength(spec, EdgesWithin(spec.edges, RealNames(spec)), EdgesTo(spec.edges, END), longest);
    } else {
      LongestIsMaximum(spec, entry, longest);
      var p := EntryReachingEndHasPath(spec, entry);
    }
  }

  // ---- What is accepted ----

  predicate IsReal(spec: GraphSpec, n: Name) {
    n in spec.nodes && n != START && n != END
  }

  /** The node lies on a walk from START to END with only real nodes between. */
  ghost predicate OnRoute(spec: GraphSpec, n: Name) {
    exists p, k :: OnWalk(spec, p, k) && p[k] == n
  }

  ghost predicate OnWalk(spec: GraphSpec, p: seq<Name>, k: int) {
    && WalkFromTo(Elements(spec.edges), p, START, END) && 0 < k < |p| - 1
    && forall i :: 0 < i < |p| - 1 ==> IsReal(spec, p[i])
  }

  /** Where the declaration list names a real node, repetitions included. */
  function RealPlaces(nodes: seq<Name>): set<int> {
    set i | 0 <= i < |nodes| && nodes[i] != START && nodes[i] != END
  }

  ghost predicate WellWired(spec: GraphSpec) {
    && (forall e :: e in spec.edges ==>
          e.source in spec.nodes + [START, END] && e.target in spec.nodes + [START, END])
    && (exists k :: SoleFrom(spec.edges, START, k) && spec.edges[k].target != START)
    && (exists e :: e in spec.edges && e.target == END)
    && (forall i, j :: 0 <= i < j < |spec.edges| ==> spec.edges[i] != spec.edges[j])
    && (forall e :: e in spec.edges && e.source == e.target ==> e.source == START || e.source == END)
  }

  /** What a specification must be, over its edges, its walks and its numbers.  Of the
      depth cap the last clause is the case in which the search counts one too many. */
  ghost predicate Acceptable(spec: GraphSpec, maxDepth: Option<int>, maxNodes: Option<int>) {
    && WellWired(spec)
    && (forall n :: IsReal(spec, n) ==> OnRoute(spec, n))
    && (maxNodes.Some? ==> |RealPlaces(spec.nodes)| <= maxNodes.value)
    && (maxDepth.Some? ==>
          && (forall p :: StartToEnd(spec, p) ==> |p| - 1 <= maxDepth.value)
          && (Edge(START, END) in spec.edges && Edge(END, END) in spec.edges ==> 2 <= maxDepth.value))
    && spec.maxIterations > 0
  }

  lemma {:induction false} RealNodesSnoc(nodes: seq<Name>, n: Name)
    ensures RealNodes(nodes + [n]) == RealNodes(nodes) + if n in SENTINELS then [] else [n]
  {
    if nodes == [] {
      assert [] + [n] == [n] && [n][1..] == [];
    } else {
      assert (nodes + [n])[1..] == nodes[1..] + [n];
      RealNodesSnoc(nodes[1..], n);
    }
  }

  lemma {:induction false} RealNodesCounted(nodes: seq<Name>)
    ensures |RealNodes(nodes)| == |RealPlaces(nodes)|
  {
    if nodes == [] {
      assert RealPlaces(nodes) == {};
    } else {
      var n := |nodes| - 1;
      RealNodesCounted(nodes[..n]);
      RealNodesSnoc(nodes[..n], nodes[n]);
      assert nodes == nodes[..n] + [nodes[n]];
      assert RealPlaces(nodes) == RealPlaces(nodes[..n]) + if nodes[n] in SENTINELS then {} else {n};
    }
  }

  /** Both searches together: a real node is reached from the entry and reaches END
      exactly when it lies on such a walk. */
  lemma OnRouteExact(spec: GraphSpec, entry: Name, n: Name)
    requires SingleEntry(spec, entry) && IsReal(spec, n)
    ensures OnRoute(spec, n) <==> n !in UnreachableNames(spec, entry) && n !in DeadEnds(spec)
  {
    if OnRoute(spec, n) {
      var p, k :| OnWalk(spec, p, k) && p[k] == n;
      RouteConnects(spec, entry, p, k);
    } else if n !in UnreachableNames(spec, entry) && n !in DeadEnds(spec) {
      var R := EdgesWithin(spec.edges, RealNames(spec));
      var to :| WalkFromTo(R, to, entry, n);
      var last :| Edge(last, END) in spec.edges && last in RealNames(spec) && Reaches(R, n, last);
      var from :| WalkFromTo(R, from, n, last);
      RouteThrough(spec, entry, to, from);
      assert false;
    }
  }

  lemma RouteConnects(spec: GraphSpec, entry: Name, p: seq<Name>, k: int)
    requires SingleEntry(spec, entry) && OnWalk(spec, p, k)
    ensures p[k] !in UnreachableNames(spec, entry) && p[k] !in DeadEnds(spec)
  {
    var R := EdgesWithin(spec.edges, RealNames(spec));
    forall i | 0 < i < |p| - 2
      ensures Edge(p[i], p[i + 1]) in R
    {
      assert IsReal(spec, p[i]) && IsReal(spec, p[i + 1]);
      assert Edge(p[i], p[i + 1]) in Elements(spec.edges);
    }
    assert Edge(p[0], p[0 + 1]) in Elements(spec.edges);
    assert p[1] == entry && IsReal(spec, p[1]) && IsReal(spec, p[k]) && IsReal(spec, p[|p| - 2]);
    assert WalkFromTo(R, p[1..k + 1], entry, p[k]);
    assert WalkFromTo(R, p[k..|p| - 1], p[k], p[|p| - 2]);
    assert Edge(p[|p| - 2], p[|p| - 2 + 1]) in Elements(spec.edges);
    assert ReachesEnd(spec, p[k]);
  }

  lemma RouteThrough(spec: GraphSpec, entry: Name, to: seq<Name>, from: seq<Name>)
    requires SingleEntry(spec, entry) && entry in RealNames(spec)
    requires var R := EdgesWithin(spec.edges, RealNames(spec)); IsWalk(R, to) && IsWalk(R, from)
    requires to[0] == entry && to[|to| - 1] == from[0] && Edge(from[|from| - 1], END) in spec.edges
    ensures OnRoute(spec, from[0])
  {
    var R := EdgesWithin(spec.edges, RealNames(spec));
    var w := to + from[1..];
    forall i | 0 <= i < |w| - 1
      ensures Edge(w[i], w[i + 1]) in R
    {
      if i < |to| - 1 {
        assert Edge(to[i], to[i + 1]) in R;
      } else {
        var j := i - (|to| - 1);
        assert w[i] == from[j] && w[i + 1] == from[j + 1];
        assert Edge(from[j], from[j + 1]) in R;
      }
    }
    forall i | 0 <= i < |w|
      ensures IsReal(spec, w[i])
    {
      if i > 0 {
        assert Edge(w[i - 1], w[i - 1 + 1]) in R;
      }
    }
    var p := [START] + w + [END];
    assert p[0] == START && p[1] == w[0] == entry && p[|w|] == w[|w| - 1] == from[|from| - 1] && p[|w| + 1] == END;
    forall i | 0 <= i < |p| - 1
      ensures Edge(p[i], p[i + 1]) in Elements(spec.edges)
    {
      if 0 < i < |w| {
        assert p[i] == w[i - 1] && p[i + 1] == w[i - 1 + 1];
        assert Edge(w[i - 1], w[i - 1 + 1]) in R;
      }
    }
    assert forall i :: 0 < i < |p| - 1 ==> p[i] == w[i - 1];
    assert OnWalk(spec, p, |to|) && p[|to|] == from[0];
  }

  /** What the depth check rejects, once every real node lies on a route. */
  lemma DepthMeans(spec: GraphSpec, entry: Name, cap: int)
    requires SingleEntry(spec, entry) && (entry == END || ReachesEnd(spec, entry))
    ensures DepthExceeds(spec, entry, cap) <==>
      || (exists p :: StartToEnd(spec, p) && |p| - 1 > cap)
      || (Edge(START, END) in spec.edges && Edge(END, END) in spec.edges && 2 > cap)
  {
    if entry == END {
      forall p | StartToEnd(spec, p)
        ensures |p| - 1 == 1
      {
        assert Edge(p[0], p[0 + 1]) in Elements(spec.edges);
        assert p[1] == END == p[|p| - 1];
      }
      assert StartToEnd(spec, [START, END]);
      assert |[START, END]| - 1 == 1;
    } else {
      var p := EntryReachingEndHasPath(spec, entry);
      assert |p| - 1 > 1;
      assert Edge(START, END) !in spec.edges;
    }
  }

  lemma EntryMeans(spec: GraphSpec)
    ensures |EdgesFrom(spec.edges, START)| == 1 && EdgesFrom(spec.edges, START)[0].target != START
       <==> exists k :: SoleFrom(spec.edges, START, k) && spec.edges[k].target != START
  {
    if |EdgesFrom(spec.edges, START)| == 1 {
      var k := SoleEdge(spec.edges, START);
    }
    if k :| SoleFrom(spec.edges, START, k) {
      SoleIsFrom(spec.edges, START, k);
    }
  }

  lemma WiredMeans(spec: GraphSpec)
    ensures WellWired(spec) <==>
      && EndpointsDeclared(spec)
      && |EdgesFrom(spec.edges, START)| == 1 && EdgesFrom(spec.edges, START)[0].target != START
      && (exists e :: e in spec.edges && e.target == END) && Distinct(spec.edges) && !HasSelfLoop(spec)
  {
    assert forall n :: n in SENTINELS + RealNames(spec) <==> n in spec.nodes + [START, END];
    EntryMeans(spec);
  }

  lemma RoutesMean(spec: GraphSpec, entry: Name, maxDepth: Option<int>)
    requires SingleEntry(spec, entry)
    ensures UnreachableNames(spec, entry) == {} && DeadEnds(spec) == {}
       <==> forall n :: IsReal(spec, n) ==> OnRoute(spec, n)
    ensures UnreachableNames(spec, entry) == {} && DeadEnds(spec) == {} && maxDepth.Some? ==>
      (!DepthExceeds(spec, entry, maxDepth.value) <==>
         && (forall p :: StartToEnd(spec, p) ==> |p| - 1 <= maxDepth.value)
         && (Edge(START, END) in spec.edges && Edge(END, END) in spec.edges ==> 2 <= maxDepth.value))
  {
    forall n | IsReal(spec, n)
      ensures OnRoute(spec, n) <==> n !in UnreachableNames(spec, entry) && n !in DeadEnds(spec)
    {
      OnRouteExact(spec, entry, n);
    }
    assert forall n :: n in UnreachableNames(spec, entry) + DeadEnds(spec) ==> IsReal(spec, n);
    if UnreachableNames(spec, entry) == {} && DeadEnds(spec) == {} && maxDepth.Some? {
      assert Edge(START, entry).target in SENTINELS + RealNames(spec);
      assert entry != END ==> entry !in DeadEnds(spec);
      DepthMeans(spec, entry, maxDepth.value);
    }
  }

  /** The smallest graphs are accepted with the default of 25 iterations: START leading
      straight to END, and one node between, up to caps of 2 edges and 1 node. */
  lemma SmallestAccepted(n: Name)
    requires n != START && n != END
    ensures Acceptable(GraphSpec([], [Edge(START, END)], 25), None, None)
    ensures Acceptable(GraphSpec([n], [Edge(START, n), Edge(n, END)], 25), Some(2), Some(1))
  {
    var direct := GraphSpec([], [Edge(START, END)], 25);
    assert direct.edges[0] in direct.edges && SoleFrom(direct.edges, START, 0);
    var spec := GraphSpec([n], [Edge(START, n), Edge(n, END)], 25);
    assert spec.edges[0] in spec.edges && spec.edges[1] in spec.edges && SoleFrom(spec.edges, START, 0);
    assert OnWalk(spec, [START, n, END], 1) && [START, n, END][1] == n;
    assert RealPlaces([n]) == {0};
    forall p | StartToEnd(spec, p)
      ensures |p| - 1 <= 2
    {
      assert Edge(p[0], p[0 + 1]) in Elements(spec.edges);
      assert |p| > 2 ==> Edge(p[1], p[1 + 1]) in Elements(spec.edges);
    }
  }

  /** START leads to the real node, and the real node to END, over real nodes only. */
  ghost predicate FromStart(spec: GraphSpec, n: Name) {
    exists p :: WalkFromTo(Elements(spec.edges), p, START, n) && forall i :: 0 < i < |p| ==> IsReal(spec, p[i])
  }

  ghost predicate ToEnd(spec: GraphSpec, n: Name) {
    exists p :: WalkFromTo(Elements(spec.edges), p, n, END) && forall i :: 0 <= i < |p| - 1 ==> IsReal(spec, p[i])
  }

  /** A walk over real nodes only is a walk over real edges. */
  lemma RealWalk(spec: GraphSpec, p: seq<Name>)
    requires |p| >= 1 && forall i :: 0 <= i < |p| ==> IsReal(spec, p[i])
    ensures IsWalk(Elements(spec.edges), p) <==> IsWalk(EdgesWithin(spec.edges, RealNames(spec)), p)
  {
    forall i | 0 <= i < |p| - 1
      ensures Edge(p[i], p[i + 1]) in Elements(spec.edges)
         <==> Edge(p[i], p[i + 1]) in EdgesWithin(spec.edges, RealNames(spec))
    {
      assert IsReal(spec, p[i]) && IsReal(spec, p[i + 1]);
    }
  }

  lemma RealFrom(spec: GraphSpec, p: seq<Name>)
    requires IsWalk(EdgesWithin(spec.edges, RealNames(spec)), p) && (IsReal(spec, p[0]) || IsReal(spec, p[|p| - 1]))
    ensures forall i :: 0 <= i < |p| ==> IsReal(spec, p[i])
  {
    forall i | 0 <= i < |p|
      ensures IsReal(spec, p[i])
    {
      if i < |p| - 1 {
        assert Edge(p[i], p[i + 1]) in EdgesWithin(spec.edges, RealNames(spec));
      } else if i > 0 {
        assert Edge(p[i - 1], p[i - 1 + 1]) in EdgesWithin(spec.edges, RealNames(spec));
      }
    }
  }

  lemma FromStartExact(spec: GraphSpec, entry: Name, n: Name)
    requires SingleEntry(spec, entry) && IsReal(spec, n)
    ensures FromStart(spec, n) <==> n !in UnreachableNames(spec, entry)
  {
    var R := EdgesWithin(spec.edges, RealNames(spec));
    if FromStart(spec, n) {
      var p :| WalkFromTo(Elements(spec.edges), p, START, n) && forall i :: 0 < i < |p| ==> IsReal(spec, p[i]);
      assert Edge(p[0], p[0 + 1]) in Elements(spec.edges);
      forall i | 0 <= i < |p| - 2
        ensures Edge(p[1..][i], p[1..][i + 1]) in Elements(spec.edges)
      {
        assert Edge(p[i + 1], p[i + 1 + 1]) in Elements(spec.edges);
      }
      RealWalk(spec, p[1..]);
      assert WalkFromTo(R, p[1..], entry, n);
    }
    if n !in UnreachableNames(spec, entry) {
      var q :| WalkFromTo(R, q, entry, n);
      RealFrom(spec, q);
      RealWalk(spec, q);
      var p := [START] + q;
      forall i | 0 <= i < |p| - 1
        ensures Edge(p[i], p[i + 1]) in Elements(spec.edges)
      {
        if i > 0 {
          assert p[i] == q[i - 1] && p[i + 1] == q[i - 1 + 1];
          assert Edge(q[i - 1], q[i - 1 + 1]) in Elements(spec.edges);
        }
      }
      assert WalkFromTo(Elements(spec.edges), p, START, n) && forall i :: 0 < i < |p| ==> p[i] == q[i - 1];
    }
  }

  lemma ToEndExact(spec: GraphSpec, n: Name)
    requires IsReal(spec, n)
    ensures ToEnd(spec, n) <==> n !in DeadEnds(spec)
  {
    var R := EdgesWithin(spec.edges, RealNames(spec));
    if ToEnd(spec, n) {
      var p :| WalkFromTo(Elements(spec.edges), p, n, END) && forall i :: 0 <= i < |p| - 1 ==> IsReal(spec, p[i]);
      var q := p[..|p| - 1];
      assert Edge(p[|p| - 2], p[|p| - 2 + 1]) in Elements(spec.edges);
      forall i | 0 <= i < |q| - 1
        ensures Edge(q[i], q[i + 1]) in Elements(spec.edges)
      {
        assert Edge(p[i], p[i + 1]) in Elements(spec.edges);
      }
      RealWalk(spec, q);
      assert WalkFromTo(R, q, n, p[|p| - 2]);
    }
    if n !in DeadEnds(spec) {
      var last :| Edge(last, END) in spec.edges && last in RealNames(spec) && Reaches(R, n, last);
      var q :| WalkFromTo(R, q, n, last);
      RealFrom(spec, q);
      RealWalk(spec, q);
      var p := q + [END];
      forall i | 0 <= i < |p| - 1
        ensures Edge(p[i], p[i + 1]) in Elements(spec.edges)
      {
        if i < |q| - 1 {
          assert Edge(q[i], q[i + 1]) in Elements(spec.edges);
        }
      }
      assert WalkFromTo(Elements(spec.edges), p, n, END) && forall i :: 0 <= i < |p| - 1 ==> p[i] == q[i];
    }
  }

  /** What each refusal means. */
  ghost predicate Justified(spec: GraphSpec, maxDepth: Option<int>, maxNodes: Option<int>, fault: TopologyError) {
    match fault
    case UnknownEndpoint =>
      exists e :: e in spec.edges && (e.source !in spec.nodes + [START, END] || e.target !in spec.nodes + [START, END])
    case NoEntryEdge => forall e :: e in spec.edges ==> e.source != START
    case MultipleEntryEdges => exists i, j ::
      0 <= i < j < |spec.edges| && spec.edges[i].source == START && spec.edges[j].source == START
    case EntryIsStart => Edge(START, START) in spec.edges
    case NoExitEdge => forall e :: e in spec.edges ==> e.target != END
    case DuplicateEdge => exists i, j :: 0 <= i < j < |spec.edges| && spec.edges[i] == spec.edges[j]
    case SelfLoop => exists e :: e in spec.edges && e.source == e.target && e.source != START && e.source != END
    case Unreachable(names) => names != {} && forall n :: n in names <==> IsReal(spec, n) && !FromStart(spec, n)
    case CannotReachEnd(names) => names != {} && forall n :: n in names <==> IsReal(spec, n) && !ToEnd(spec, n)
    case TooManyNodes => maxNodes.Some? && |RealPlaces(spec.nodes)| > maxNodes.value
    case TooDeep => maxDepth.Some?
      && ((exists p :: StartToEnd(spec, p) && |p| - 1 > maxDepth.value)
          || (Edge(START, END) in spec.edges && Edge(END, END) in spec.edges && 2 > maxDepth.value))
    case NonPositiveMaxIterations => spec.maxIterations <= 0
  }

  lemma RefusedFor(spec: GraphSpec, maxDepth: Option<int>, maxNodes: Option<int>)
    ensures FirstFault(spec, maxDepth, maxNodes).Some? ==>
      Justified(spec, maxDepth, maxNodes, FirstFault(spec, maxDepth, maxNodes).value)
  {
    if WellWired(spec) {
      RoutesJustified(spec, maxDepth, maxNodes);
    } else {
      WiringJustified(spec, maxDepth, maxNodes);
    }
  }

  lemma RoutesJustified(spec: GraphSpec, maxDepth: Option<int>, maxNodes: Option<int>)
    requires WellWired(spec)
    ensures FirstFault(spec, maxDepth, maxNodes).Some? ==>
      Justified(spec, maxDepth, maxNodes, FirstFault(spec, maxDepth, maxNodes).value)
  {
    WiredMeans(spec);
    EntryIsSingle(spec);
    var entry := EdgesFrom(spec.edges, START)[0].target;
    if UnreachableNames(spec, entry) != {} {
      MissedNames(spec, entry);
    } else if DeadEnds(spec) != {} {
      StuckNames(spec);
    } else {
      RoutesMean(spec, entry, maxDepth);
      RealNodesCounted(spec.nodes);
    }
  }

  lemma MissedNames(spec: GraphSpec, entry: Name)
    requires SingleEntry(spec, entry)
    ensures forall n :: n in UnreachableNames(spec, entry) <==> IsReal(spec, n) && !FromStart(spec, n)
  {
    forall n
      ensures n in UnreachableNames(spec, entry) <==> IsReal(spec, n) && !FromStart(spec, n)
    {
      if IsReal(spec, n) {
        FromStartExact(spec, entry, n);
      }
    }
  }

  lemma StuckNames(spec: GraphSpec)
    ensures forall n :: n in DeadEnds(spec) <==> IsReal(spec, n) && !ToEnd(spec, n)
  {
    forall n
      ensures n in DeadEnds(spec) <==> IsReal(spec, n) && !ToEnd(spec, n)
    {
      if IsReal(spec, n) {
        ToEndExact(spec, n);
      }
    }
  }

  lemma WiringJustified(spec: GraphSpec, maxDepth: Option<int>, maxNodes: Option<int>)
    requires !WellWired(spec)
    ensures FirstFault(spec, maxDepth, maxNodes).Some?
    ensures Justified(spec, maxDepth, maxNodes, FirstFault(spec, maxDepth, maxNodes).value)
  {
    WiredMeans(spec);
    assert forall n :: n in SENTINELS + RealNames(spec) <==> n in spec.nodes + [START, END];
    var leaving := EdgesFrom(spec.edges, START);
    if |leaving| == 0 {
      assert forall e :: e in spec.edges && e.source == START ==> e in leaving;
    } else if |leaving| > 1 {
      var i, j := TwoFrom(spec.edges, START);
    } else {
      assert leaving[0] in leaving && leaving[0] == Edge(START, leaving[0].target);
    }
  }

  /** The checks in their order accept exactly the acceptable specifications. */
  lemma AcceptedExactly(spec: GraphSpec, maxDepth: Option<int>, maxNodes: Option<int>)
    ensures FirstFault(spec, maxDepth, maxNodes).None? <==> Acceptable(spec, maxDepth, maxNodes)
  {
    if WellWired(spec) {
      WiredAccepted(spec, maxDepth, maxNodes);
    } else {
      WiringJustified(spec, maxDepth, maxNodes);
    }
  }

  lemma WiredAccepted(spec: GraphSpec, maxDepth: Option<int>, maxNodes: Option<int>)
    requires WellWired(spec)
    ensures FirstFault(spec, maxDepth, maxNodes).None? <==> Acceptable(spec, maxDepth, maxNodes)
  {
    WiredMeans(spec);
    EntryIsSingle(spec);
    RoutesMean(spec, EdgesFrom(spec.edges, START)[0].target, maxDepth);
    RealNodesCounted(spec.nodes);
  }

  // ---- The checks ----

  method AllEndpointsDeclared(edges: seq<Edge>, names: set<Name>) returns (ok: bool)
    ensures ok <==> forall e :: e in edges ==> e.source in SENTINELS + names && e.target in SENTINELS + names
  {
    for i := 0 to |edges|
      invariant forall e :: e in edges[..i] ==> e.source in SENTINELS + names && e.target in SENTINELS + names
    {
      var edge := edges[i];
      assert edges[..i + 1] == edges[..i] + [edge];
      if edge.source !in SENTINELS && edge.source !in names { assert edge in edges; return false; }
      if edge.target !in SENTINELS && edge.target !in names { assert edge in edges; return false; }
    }
    assert edges[..|edges|] == edges;
    return true;
  }

  method EdgesAreDistinct(edges: seq<Edge>) returns (ok: bool)
    ensures ok <==> Distinct(edges)
  {
    var seenPairs: set<Edge> := {};
    for i := 0 to |edges|
      invariant seenPairs == Elements(edges[..i])
      invariant Distinct(edges[..i])
    {
      assert edges[..i + 1] == edges[..i] + [edges[i]];
      ElementsSnoc(edges[..i], edges[i]);
      if edges[i] in seenPairs {
        var k :| 0 <= k < i && edges[..i][k] == edges[i];
        assert edges[k] == edges[i];
        return false;
      }
      assert forall k :: 0 <= k < i ==> edges[..i][k] == edges[k];
      seenPairs := seenPairs + {edges[i]};
    }
    assert edges[..|edges|] == edges;
    return true;
  }

  method FindSelfLoop(spec: GraphSpec) returns (found: bool)
    ensures found <==> HasSelfLoop(spec)
  {
    for i := 0 to |spec.edges|
      invariant forall k :: 0 <= k < i ==>
        !(spec.edges[k].source == spec.edges[k].target && spec.edges[k].source !in SENTINELS)
    {
      if spec.edges[i].source == spec.edges[i].target && spec.edges[i].source !in SENTINELS {
        return true;
      }
    }
    return false;
  }

  /** Real nodes with a direct edge to END: the seeds of the reverse search. */
  method EndSeeds(endEdges: seq<Edge>, names: set<Name>) returns (seeds: seq<Name>)
    ensures forall s :: s in seeds <==> s in names && exists e :: e in endEdges && e.source == s
  {
    seeds := [];
    for i := 0 to |endEdges|
      invariant forall s :: s in seeds <==> s in names && exists e :: e in endEdges[..i] && e.source == s
    {
      assert endEdges[..i + 1] == endEdges[..i] + [endEdges[i]];
      assert forall e :: e in endEdges[..i + 1] <==> e in endEdges[..i] || e == endEdges[i];
      if endEdges[i].source in names && endEdges[i].source !in seeds {
        seeds := seeds + [endEdges[i].source];
      }
    }
    assert endEdges[..|endEdges|] == endEdges;
  }

  method NamesNotReached(spec: GraphSpec, entry: Name, forwardAdj: Adjacency) returns (missing: set<Name>)
    requires entry == END || entry in RealNames(spec)
    requires forwardAdj.Keys == RealNames(spec)
    requires Represents(forwardAdj, EdgesWithin(spec.edges, RealNames(spec)))
    ensures missing == UnreachableNames(spec, entry)
  {
    var R := EdgesWithin(spec.edges, RealNames(spec));
    var seeds := if entry == END then [] else [entry];
    var visited := Bfs(forwardAdj, seeds, R);
    if entry != END {
      assert Elements(seeds) == {entry};
      assert entry in {entry};
      assert forall v :: ReachedFrom(R, {entry}, v) <==> Reaches(R, entry, v);
    }
    missing := RealNames(spec) - visited;
  }

  method NamesNotReachingEnd(spec: GraphSpec) returns (missing: set<Name>)
    ensures missing == DeadEnds(spec)
  {
    var R := EdgesWithin(spec.edges, RealNames(spec));
    var endEdges := EdgesTo(spec.edges, END);
    var reverseAdj := BuildReverse(spec.edges, RealNames(spec));
    var seeds := EndSeeds(endEdges, RealNames(spec));
    var visited := Bfs(reverseAdj, seeds, Reverse(R));
    forall n
      ensures ReachedFrom(Reverse(R), Elements(seeds), n) <==> ReachesEnd(spec, n)
    {
      if ReachedFrom(Reverse(R), Elements(seeds), n) {
        var s :| s in Elements(seeds) && Reaches(Reverse(R), s, n);
        ReverseReaches(R, s, n);
        var e :| e in endEdges && e.source == s;
        assert e == Edge(s, END);
      }
      if ReachesEnd(spec, n) {
        var last :| Edge(last, END) in spec.edges && last in RealNames(spec) && Reaches(R, n, last);
        ReverseReaches(R, last, n);
        assert Edge(last, END) in endEdges;
        assert last in seeds;
      }
    }
    missing := RealNames(spec) - visited;
  }

  method DepthCheckFails(spec: GraphSpec, entry: Name, forwardAdj: Adjacency, cap: int) returns (tooDeep: bool)
    requires SingleEntry(spec, entry)
    requires Represents(forwardAdj, EdgesWithin(spec.edges, RealNames(spec)))
    ensures tooDeep <==> DepthExceeds(spec, entry, cap)
  {
    var R := EdgesWithin(spec.edges, RealNames(spec));
    var endEdges := EdgesTo(spec.edges, END);
    var longest := LongestSimplePathToEnd(entry, forwardAdj, endEdges, R);
    if entry == END {
      LoneEntryLength(spec, R, endEdges, longest);
    } else {
      LongestIsMaximum(spec, entry, longest);
    }
    tooDeep := longest > cap;
  }

  lemma FirstEdge(R: set<Edge>, q: seq<Name>)
    requires IsWalk(R, q)
    ensures |q| == 1 || Edge(q[0], q[1]) in R
  {
    assert |q| > 1 ==> Edge(q[0], q[0 + 1]) in R;
  }

  lemma LoneEntryLength(spec: GraphSpec, R: set<Edge>, endEdges: seq<Edge>, longest: nat)
    requires R == EdgesWithin(spec.edges, RealNames(spec)) && endEdges == EdgesTo(spec.edges, END)
    requires forall q :: RealPath(R, TerminalNodes(endEdges), END, q) ==> |q| + 1 <= longest
    requires longest == 1 || exists q :: RealPath(R, TerminalNodes(endEdges), END, q) && longest == |q| + 1
    ensures longest == if Edge(END, END) in spec.edges then 2 else 1
  {
    forall q | RealPath(R, TerminalNodes(endEdges), END, q)
      ensures |q| == 1
    {
      FirstEdge(R, q);
    }
    if Edge(END, END) in spec.edges {
      assert Edge(END, END) in endEdges;
      assert RealPath(R, TerminalNodes(endEdges), END, [END]);
    }
  }

  /** The checks in the order of the source. */
  method FailedCheck(spec: GraphSpec, maxDepth: Option<int>, maxNodes: Option<int>)
    returns (fault: Option<TopologyError>)
    ensures fault == FirstFault(spec, maxDepth, maxNodes)
  {
    var nodeNames := RealNodes(spec.nodes);
    var nodeNameSet := RealNames(spec);
    var declared := AllEndpointsDeclared(spec.edges, nodeNameSet);
    if !declared { return Some(UnknownEndpoint); }

    var startEdges := EdgesFrom(spec.edges, START);
    if |startEdges| == 0 { return Some(NoEntryEdge); }
    if |startEdges| > 1 { return Some(MultipleEntryEdges); }
    var entryNode := startEdges[0].target;
    if entryNode == START { return Some(EntryIsStart); }
    EntryIsSingle(spec);
    assert entryNode in SENTINELS + nodeNameSet by {
      assert Edge(START, entryNode) in spec.edges;
    }

    var endEdges := EdgesTo(spec.edges, END);
    if endEdges == [] { return Some(NoExitEdge); }
    assert endEdges[0] in endEdges;

    var unique := EdgesAreDistinct(spec.edges);
    if !unique { return Some(DuplicateEdge); }
    var loops := FindSelfLoop(spec);
    if loops { return Some(SelfLoop); }

    var forwardAdj := BuildForward(spec.edges, nodeNameSet);
    var unreachable := NamesNotReached(spec, entryNode, forwardAdj);
    if unreachable != {} { return Some(Unreachable(unreachable)); }
    var cantReachEnd := NamesNotReachingEnd(spec);
    if cantReachEnd != {} { return Some(CannotReachEnd(cantReachEnd)); }

    if maxNodes.Some? && |nodeNames| > maxNodes.value { return Some(TooManyNodes); }
    if maxDepth.Some? {
      var tooDeep := DepthCheckFails(spec, entryNode, forwardAdj, maxDepth.value);
      if tooDeep { return Some(TooDeep); }
    }
    if spec.maxIterations <= 0 { return Some(NonPositiveMaxIterations); }
    return None;
  }

  /** Accepts exactly the acceptable specifications, and refuses for a reason that holds. */
  method Validate(spec: GraphSpec, maxDepth: Option<int>, maxNodes: Option<int>) returns (fault: Option<TopologyError>)
    ensures fault == FirstFault(spec, maxDepth, maxNodes)
    ensures fault.None? <==> Acceptable(spec, maxDepth, maxNodes)
    ensures fault.Some? ==> Justified(spec, maxDepth, maxNodes, fault.value)
  {
    AcceptedExactly(spec, maxDepth, maxNodes);
    RefusedFor(spec, maxDepth, maxNodes);
    fault := FailedCheck(spec, maxDepth, maxNodes);
  }
}
