/** `Graph`: the mutable builder and its `compile` (graph.py:51-342).
    `BuildFault` says over declared edges alone which check rejects the graph. */
module GraphBuilder {
  import opened Outcomes
  import opened Sequences
  import opened Walks
  import opened CycleDetection

  class NodeObject {
    var name: Name
    constructor ()
      ensures name == ""
    {
      name := "";
    }
  }

  datatype SchedulerKind = Linear | Parallel
  datatype CycleMode = Warn | Raise | Off

  datatype RoutingError =
    | NoEntryNode
    | MultipleEntryNodes
    | EntryNotRegistered
    | EndpointNotRegistered
    | NameMismatch
    | ContainsCycles
    | UnreachableFromStart(names: set<Name>)
    | CannotReachEnd(names: set<Name>)

  datatype CompiledGraph = CompiledGraph(nodes: map<Name, NodeObject>, edges: seq<Edge>, entryNode: Name)

  ghost predicate EndpointsRegistered(names: set<Name>, edges: seq<Edge>) {
    forall e :: e in edges ==> e.source in names && e.target in names
  }

  ghost function UnreachableFrom(names: set<Name>, edges: seq<Edge>): set<Name> {
    set n | n in names && n != START && n != END && !Reaches(Elements(edges), START, n)
  }

  ghost function StuckNodes(names: set<Name>, edges: seq<Edge>): set<Name> {
    set n | n in names && !Reaches(Elements(edges), n, END)
  }

  ghost function BuildFault(names: set<Name>, edges: seq<Edge>, namesMatch: bool,
                            mode: CycleMode, scheduler: SchedulerKind): Option<RoutingError>
  {
    if |EdgesFrom(edges, START)| == 0 then Some(NoEntryNode)
    else if |EdgesFrom(edges, START)| > 1 then Some(MultipleEntryNodes)
    else if EdgesFrom(edges, START)[0].target !in names then Some(EntryNotRegistered)
    else if !EndpointsRegistered(names, edges) then Some(EndpointNotRegistered)
    else if !namesMatch then Some(NameMismatch)
    else if mode == Raise && HasReachedCycle(Elements(edges), START) then Some(ContainsCycles)
    else if scheduler == Parallel && UnreachableFrom(names, edges) != {} then
      Some(UnreachableFromStart(UnreachableFrom(names, edges)))
    else if scheduler == Parallel && StuckNodes(names, edges) != {} then Some(CannotReachEnd(StuckNodes(names, edges)))
    else None
  }

  /** What a graph must be to compile, over its edges, names and walks. */
  ghost predicate Buildable(names: set<Name>, edges: seq<Edge>, namesMatch: bool, mode: CycleMode,
                            scheduler: SchedulerKind)
  {
    && (exists k :: SoleFrom(edges, START, k))
    && (forall e :: e in edges ==> e.source in names && e.target in names)
    && namesMatch
    && (mode == Raise ==> forall c :: IsCycle(Elements(edges), c) ==> !Reaches(Elements(edges), START, c[0]))
    && (scheduler == Parallel ==>
          forall n :: n in names ==> Reaches(Elements(edges), START, n) || n == END)
    && (scheduler == Parallel ==> forall n :: n in names ==> Reaches(Elements(edges), n, END))
  }

  lemma CycleMeans(R: set<Edge>)
    ensures HasReachedCycle(R, START) <==> exists c :: IsCycle(R, c) && Reaches(R, START, c[0])
  {
    if c :| IsCycle(R, c) && Reaches(R, START, c[0]) {
      assert ReachedCycle(R, START, c);
    }
  }

  lemma NoneMissing(names: set<Name>, edges: seq<Edge>)
    ensures UnreachableFrom(names, edges) == {} <==>
      forall n :: n in names ==> n == START || n == END || Reaches(Elements(edges), START, n)
    ensures StuckNodes(names, edges) == {} <==> forall n :: n in names ==> Reaches(Elements(edges), n, END)
  {
    assert forall n :: n in UnreachableFrom(names, edges) <==>
      n in names && n != START && n != END && !Reaches(Elements(edges), START, n);
    assert forall n :: n in StuckNodes(names, edges) <==> n in names && !Reaches(Elements(edges), n, END);
  }

  /** The checks in their order let exactly such graphs pass. */
  lemma BuildableExactly(names: set<Name>, edges: seq<Edge>, namesMatch: bool, mode: CycleMode,
                         scheduler: SchedulerKind)
    ensures BuildFault(names, edges, namesMatch, mode, scheduler).None?
       <==> Buildable(names, edges, namesMatch, mode, scheduler)
  {
    ReachesRefl(Elements(edges), START);
    CycleMeans(Elements(edges));
    NoneMissing(names, edges);
    if |EdgesFrom(edges, START)| == 1 {
      var k := SoleEdge(edges, START);
    }
    if k :| SoleFrom(edges, START, k) {
      SoleIsFrom(edges, START, k);
      assert edges[k] in edges;
    }
  }

  /** What each refusal means. */
  ghost predicate Justified(names: set<Name>, edges: seq<Edge>, namesMatch: bool, mode: CycleMode,
                            scheduler: SchedulerKind, fault: RoutingError)
  {
    match fault
    case NoEntryNode => forall e :: e in edges ==> e.source != START
    case MultipleEntryNodes => exists i, j ::
      0 <= i < j < |edges| && edges[i].source == START && edges[j].source == START
    case EntryNotRegistered => exists e :: e in edges && e.source == START && e.target !in names
    case EndpointNotRegistered => exists e :: e in edges && (e.source !in names || e.target !in names)
    case NameMismatch => !namesMatch
    case ContainsCycles =>
      mode == Raise && exists c :: IsCycle(Elements(edges), c) && Reaches(Elements(edges), START, c[0])
    case UnreachableFromStart(unreached) => scheduler == Parallel && unreached != {} && forall n :: n in unreached <==>
      n in names && n != START && n != END && !Reaches(Elements(edges), START, n)
    case CannotReachEnd(stuck) => scheduler == Parallel && stuck != {} && forall n :: n in stuck <==>
      n in names && !Reaches(Elements(edges), n, END)
  }

  lemma RefusedFor(names: set<Name>, edges: seq<Edge>, namesMatch: bool, mode: CycleMode, scheduler: SchedulerKind)
    ensures var fault := BuildFault(names, edges, namesMatch, mode, scheduler);
      fault.Some? ==> Justified(names, edges, namesMatch, mode, scheduler, fault.value)
  {
    CycleMeans(Elements(edges));
    var leaving := EdgesFrom(edges, START);
    if |leaving| == 0 {
      assert forall e :: e in edges && e.source == START ==> e in leaving;
    } else if |leaving| > 1 {
      var i, j := TwoFrom(edges, START);
    } else {
      assert leaving[0] in leaving;
    }
  }

  /** With every endpoint registered the edges are already a relation over names. */
  lemma WithinIsAll(names: set<Name>, edges: seq<Edge>)
    requires EndpointsRegistered(names, edges)
    ensures EdgesWithin(edges, names) == Elements(edges)
  {
  }

  /** Successor lists in declaration order; duplicates stay. */
  method BuildLists(names: set<Name>, edges: seq<Edge>) returns (adj: EdgeLists)
    requires EndpointsRegistered(names, edges)
    ensures adj.Keys == names && Lists(adj, Elements(edges))
  {
    adj := map n | n in names :: [];
    for i := 0 to |edges|
      invariant adj.Keys == names
      invariant forall u, v :: u in names ==> (v in adj[u] <==> Edge(u, v) in edges[..i])
    {
      var edge := edges[i];
      assert edges[..i + 1] == edges[..i] + [edge];
      adj := adj[edge.source := adj[edge.source] + [edge.target]];
    }
    assert edges[..|edges|] == edges;
  }

  /** The reverse dictionary only gets the keys that are edge targets. */
  method BuildPredecessors(edges: seq<Edge>) returns (adj: Adjacency)
    ensures forall u, v :: Edge(u, v) in edges <==> v in adj && u in adj[v]
  {
    adj := map[];
    for i := 0 to |edges|
      invariant forall u, v :: Edge(u, v) in edges[..i] <==> v in adj && u in adj[v]
    {
      var edge := edges[i];
      assert edges[..i + 1] == edges[..i] + [edge];
      var sofar := if edge.target in adj then adj[edge.target] else {};
      adj := adj[edge.target := sofar + {edge.source}];
    }
    assert edges[..|edges|] == edges;
  }

  class Graph {
    var nodes: map<Name, NodeObject>
    var edges: seq<Edge>

    constructor ()
      ensures nodes.Keys == {START, END} && edges == []
      ensures forall n :: n in nodes ==> fresh(nodes[n])
      ensures NamesMatch()
    {
      var startNode := new NodeObject();
      var endNode := new NodeObject();
      nodes := map[];
      edges := [];
      new;
      AddNode(START, startNode);
      AddNode(END, endNode);
      assert startNode != endNode;
    }

    ghost predicate NamesMatch()
      reads this, nodes.Values
    {
      forall n :: n in nodes ==> nodes[n].name == n
    }

    /** Registers the node and stamps its name: an object registered under two
        names keeps only the later one. */
    method AddNode(name: Name, node: NodeObject)
      modifies this, node
      ensures node.name == name
      ensures nodes == old(nodes)[name := node] && edges == old(edges)
    {
      node.name := name;
      nodes := nodes[name := node];
    }

    method AddEdge(source: Name, target: Name)
      modifies this
      ensures edges == old(edges) + [Edge(source, target)] && nodes == old(nodes)
    {
      edges := edges + [Edge(source, target)];
    }

    /** The checks in the order of the source; warns exactly when START reaches a cycle
        and the mode is "warn". */
    method Checked(mode: CycleMode, scheduler: SchedulerKind)
      returns (r: Result<CompiledGraph, RoutingError>, warned: bool)
      requires START in nodes && END in nodes
      ensures var fault := BuildFault(nodes.Keys, edges, NamesMatch(), mode, scheduler);
              if fault.None? then r == Ok(CompiledGraph(nodes, edges, START)) else r == Err(fault.value)
      ensures r.Ok? ==> (warned <==> mode == Warn && HasReachedCycle(Elements(edges), START))
    {
      warned := false;
      var startEdges := EdgesFrom(edges, START);
      if |startEdges| == 0 { return Err(NoEntryNode), warned; }
      if |startEdges| > 1 { return Err(MultipleEntryNodes), warned; }
      if startEdges[0].target !in nodes { return Err(EntryNotRegistered), warned; }

      for i := 0 to |edges|
        invariant forall k :: 0 <= k < i ==> edges[k].source in nodes && edges[k].target in nodes
      {
        if edges[i].source !in nodes || edges[i].target !in nodes {
          assert edges[i] in edges;
          return Err(EndpointNotRegistered), warned;
        }
      }
      assert EndpointsRegistered(nodes.Keys, edges);

      var names := nodes.Keys;
      var pending := names;
      while pending != {}
        invariant pending <= names
        invariant forall n :: n in names - pending ==> nodes[n].name == n
      {
        var name :| name in pending;
        if nodes[name].name != name { return Err(NameMismatch), warned; }
        pending := pending - {name};
      }
      assert NamesMatch();

      var lists := BuildLists(names, edges);
      var cycles := DetectCycles(lists, START, Elements(edges));
      if cycles != [] {
        if mode == Raise {
          return Err(ContainsCycles), warned;
        } else if mode == Warn {
          warned := true;
        }
      }
      if scheduler == Parallel {
        var fault := ValidateReachability();
        if fault.Some? { return Err(fault.value), warned; }
      }
      r := Ok(CompiledGraph(nodes, edges, START));
    }

    /** Compiles exactly the buildable graphs, and refuses for a reason that holds. */
    method Compile(mode: CycleMode, scheduler: SchedulerKind)
      returns (r: Result<CompiledGraph, RoutingError>, warned: bool)
      requires START in nodes && END in nodes
      ensures var fault := BuildFault(nodes.Keys, edges, NamesMatch(), mode, scheduler);
              if fault.None? then r == Ok(CompiledGraph(nodes, edges, START)) else r == Err(fault.value)
      ensures r.Ok? <==> Buildable(nodes.Keys, edges, NamesMatch(), mode, scheduler)
      ensures r.Err? ==> Justified(nodes.Keys, edges, NamesMatch(), mode, scheduler, r.error)
      ensures r.Ok? ==> (warned <==>
        mode == Warn && exists c :: IsCycle(Elements(edges), c) && Reaches(Elements(edges), START, c[0]))
    {
      BuildableExactly(nodes.Keys, edges, NamesMatch(), mode, scheduler);
      RefusedFor(nodes.Keys, edges, NamesMatch(), mode, scheduler);
      CycleMeans(Elements(edges));
      r, warned := Checked(mode, scheduler);
    }

    method ValidateReachability() returns (fault: Option<RoutingError>)
      requires START in nodes && END in nodes && EndpointsRegistered(nodes.Keys, edges)
      ensures fault ==
        if UnreachableFrom(nodes.Keys, edges) != {} then Some(UnreachableFromStart(UnreachableFrom(nodes.Keys, edges)))
        else if StuckNodes(nodes.Keys, edges) != {} then Some(CannotReachEnd(StuckNodes(nodes.Keys, edges)))
        else None
    {
      ghost var R := Elements(edges);
      WithinIsAll(nodes.Keys, edges);
      var forwardAdj := BuildForward(edges, nodes.Keys);
      var visitedFromStart := Bfs(forwardAdj, [START], R);
      var unreachable := nodes.Keys - {START, END} - visitedFromStart;
      assert unreachable == UnreachableFrom(nodes.Keys, edges);
      if unreachable != {} { return Some(UnreachableFromStart(unreachable)); }

      var reverseAdj := BuildPredecessors(edges);
      assert forall u, v :: Edge(u, v) in Reverse(R) <==> u in reverseAdj && v in reverseAdj[u];
      var visitedToEnd := BfsMarkingOnEnqueue(reverseAdj, nodes.Keys, END, Reverse(R));
      forall n
        ensures Reaches(Reverse(R), END, n) <==> Reaches(R, n, END)
      {
        ReverseReaches(R, END, n);
      }
      var cantReachEnd := nodes.Keys - visitedToEnd;
      assert cantReachEnd == StuckNodes(nodes.Keys, edges);
      if cantReachEnd != {} { return Some(CannotReachEnd(cantReachEnd)); }
      return None;
    }
  }
}
