/** `GraphSpecCompiler.compile` (spec_compiler.py:112-165): build, validate, then
    compile.  The validator runs over real nodes only, the builder over all nodes
    with the sentinels; what the first accepts the second never refuses. */
module SpecCompiler {
  import opened Outcomes
  import opened Sequences
  import opened Walks
  import opened TopologyValidator
  import opened GraphBuilder

  function NodeNames(spec: GraphSpec): set<Name> {
    RealNames(spec) + {START, END}
  }

  lemma RealReachIsReach(spec: GraphSpec, u: Name, v: Name)
    requires Reaches(EdgesWithin(spec.edges, RealNames(spec)), u, v)
    ensures Reaches(Elements(spec.edges), u, v)
  {
    ReachesSubset(EdgesWithin(spec.edges, RealNames(spec)), Elements(spec.edges), u, v);
  }

  lemma ValidatedReachesEnd(spec: GraphSpec, n: Name)
    requires ReachesEnd(spec, n)
    ensures Reaches(Elements(spec.edges), n, END)
  {
    var last :| Edge(last, END) in spec.edges && last in RealNames(spec)
                && Reaches(EdgesWithin(spec.edges, RealNames(spec)), n, last);
    RealReachIsReach(spec, n, last);
    ReachesEdge(Elements(spec.edges), last, END);
    ReachesTrans(Elements(spec.edges), n, last, END);
  }

  /** What acceptance says about edges and reachability. */
  lemma Accepted(spec: GraphSpec, maxDepth: Option<int>, maxNodes: Option<int>)
    requires FirstFault(spec, maxDepth, maxNodes) == None
    ensures EndpointsDeclared(spec) && |EdgesFrom(spec.edges, START)| == 1
    ensures var entry := EdgesFrom(spec.edges, START)[0].target;
      entry != START && UnreachableNames(spec, entry) == {} && DeadEnds(spec) == {}
  {
  }

  lemma TheEntry(spec: GraphSpec) returns (entry: Name)
    requires EndpointsDeclared(spec) && |EdgesFrom(spec.edges, START)| == 1
    requires EdgesFrom(spec.edges, START)[0].target != START
    ensures entry == EdgesFrom(spec.edges, START)[0].target
    ensures Edge(START, entry) in spec.edges && (entry == END || entry in RealNames(spec))
  {
    EntryIsSingle(spec);
    entry := EdgesFrom(spec.edges, START)[0].target;
    assert Edge(START, entry).target in SENTINELS + RealNames(spec);
  }

  lemma RealNodeConnected(spec: GraphSpec, entry: Name, n: Name)
    requires Edge(START, entry) in spec.edges && n in RealNames(spec)
    requires n !in UnreachableNames(spec, entry) && n !in DeadEnds(spec)
    ensures Reaches(Elements(spec.edges), START, n) && Reaches(Elements(spec.edges), n, END)
  {
    ReachesEdge(Elements(spec.edges), START, entry);
    RealReachIsReach(spec, entry, n);
    ReachesTrans(Elements(spec.edges), START, entry, n);
    ValidatedReachesEnd(spec, n);
  }

  /** The validator's real-node reachability gives the builder's reachability over
      all registered nodes, START reaching END included. */
  lemma ValidatedIsConnected(spec: GraphSpec, maxDepth: Option<int>, maxNodes: Option<int>)
    requires FirstFault(spec, maxDepth, maxNodes) == None
    ensures UnreachableFrom(NodeNames(spec), spec.edges) == {}
    ensures StuckNodes(NodeNames(spec), spec.edges) == {}
  {
    var R := Elements(spec.edges);
    Accepted(spec, maxDepth, maxNodes);
    var entry := TheEntry(spec);
    forall n | n in RealNames(spec)
      ensures Reaches(R, START, n) && Reaches(R, n, END)
    {
      RealNodeConnected(spec, entry, n);
    }
    ReachesRefl(R, END);
    ReachesEdge(R, START, entry);
    ReachesTrans(R, START, entry, END);
  }

  /** A specification the validator accepts compiles under both schedulers: with
      "warn" and "off" always, with "raise" exactly when START reaches no cycle. */
  lemma ValidatedSpecBuilds(spec: GraphSpec, maxDepth: Option<int>, maxNodes: Option<int>,
                            mode: CycleMode, scheduler: SchedulerKind)
    requires FirstFault(spec, maxDepth, maxNodes) == None
    ensures BuildFault(NodeNames(spec), spec.edges, true, mode, scheduler)
         == if mode == Raise && CycleDetection.HasReachedCycle(Elements(spec.edges), START) then Some(ContainsCycles)
            else None
  {
    ValidatedIsConnected(spec, maxDepth, maxNodes);
    Accepted(spec, maxDepth, maxNodes);
    var entry := TheEntry(spec);
  }

  datatype SpecResult =
    | Compiled(graph: CompiledGraph, warned: bool)
    | TopologyFault(e: TopologyError)
    | RoutingFault(f: RoutingError)

  method BuildGraph(spec: GraphSpec) returns (graph: Graph)
    ensures fresh(graph) && graph.nodes.Keys == NodeNames(spec) && graph.NamesMatch() && graph.edges == spec.edges
  {
    graph := new Graph();
    var pending := NodeNames(spec);
    while pending != {}
      invariant pending <= NodeNames(spec)
      invariant fresh(graph) && (forall n :: n in graph.nodes ==> fresh(graph.nodes[n]))
      invariant graph.nodes.Keys == {START, END} + (NodeNames(spec) - pending)
      invariant graph.NamesMatch() && graph.edges == []
    {
      var name :| name in pending;
      var node := new NodeObject();
      graph.AddNode(name, node);
      pending := pending - {name};
    }
    assert graph.nodes.Keys == NodeNames(spec);
    for i := 0 to |spec.edges|
      invariant fresh(graph) && graph.nodes.Keys == NodeNames(spec)
      invariant graph.NamesMatch() && graph.edges == spec.edges[..i]
    {
      assert spec.edges[..i + 1] == spec.edges[..i] + [spec.edges[i]];
      graph.AddEdge(spec.edges[i].source, spec.edges[i].target);
    }
    assert spec.edges[..|spec.edges|] == spec.edges;
  }

  /** The routing error of the last step never shows: the outcome is the
      validator's verdict, so exactly the acceptable specifications compile. */
  method CompileSpec(spec: GraphSpec, scheduler: SchedulerKind) returns (r: SpecResult)
    ensures var fault := FirstFault(spec, None, None);
            && (fault.Some? ==> r == TopologyFault(fault.value))
            && (fault.None? ==> r.Compiled? && r.graph.nodes.Keys == NodeNames(spec)
                                && r.graph.edges == spec.edges && r.graph.entryNode == START)
    ensures r.Compiled? <==> Acceptable(spec, None, None)
    ensures r.Compiled? ==> (r.warned <==> CycleDetection.HasReachedCycle(Elements(spec.edges), START))
  {
    var graph := BuildGraph(spec);
    var fault := Validate(spec, None, None);
    if fault.Some? { return TopologyFault(fault.value); }
    ValidatedSpecBuilds(spec, None, None, Warn, scheduler);
    CycleMeans(Elements(spec.edges));
    var outcome, warned := graph.Compile(Warn, scheduler);
    match outcome {
      case Ok(compiled) => r := Compiled(compiled, warned);
      case Err(error) => r := RoutingFault(error);
    }
  }

  /** The validator is strictly stricter: a node reached only through END builds
      and is refused by the validator. */
  lemma ValidatorIsStricter()
    ensures exists spec: GraphSpec ::
      && FirstFault(spec, None, None).Some?
      && BuildFault(NodeNames(spec), spec.edges, true, Warn, Parallel) == None
  {
    var spec := GraphSpec(["b"], [Edge(START, END), Edge(END, "b"), Edge("b", END)], 1);
    var R := Elements(spec.edges);
    assert |"b"| != |START| && |"b"| != |END|;
    assert RealNames(spec) == {"b"};
    assert spec.edges[1..] == [Edge(END, "b"), Edge("b", END)];
    assert spec.edges[1..][1..] == [Edge("b", END)];
    assert EdgesFrom(spec.edges[1..][1..][1..], START) == [];
    assert EdgesFrom(spec.edges[1..][1..], START) == [];
    assert EdgesFrom(spec.edges[1..], START) == [];
    assert "b" in UnreachableNames(spec, END);
    assert Edge(START, END) in R && Edge(END, "b") in R && Edge("b", END) in R by {
      assert spec.edges[0] in R && spec.edges[1] in R && spec.edges[2] in R;
    }
    ReachesEdge(R, START, END);
    ReachesEdge(R, END, "b");
    ReachesEdge(R, "b", END);
    ReachesTrans(R, START, END, "b");
    ReachesRefl(R, END);
    assert UnreachableFrom(NodeNames(spec), spec.edges) == {};
    assert StuckNodes(NodeNames(spec), spec.edges) == {};
    assert BuildFault(NodeNames(spec), spec.edges, true, Warn, Parallel) == None;
  }
}
