/** `Node.run` (node.py:152-241) over the stores it drives.  One run is given by what
    happens around it; in particular other parties may change the ledger and the rows
    in any way the stores allow while `execute` is awaited. */
module NodeRun {
  import opened Outcomes
  import opened NodeLedger

  type Name = string

  const END: Name := "__end__"

  // ---- What a run is given ----

  datatype Topology = Topology(ids: map<Name, NodeId>, edges: seq<(Name, Name)>)

  datatype Failure = Control | Error

  // One deliver call; no target means the default one.
  datatype Output = Output(next: Option<Name>, content: string)

  // What happens around one run: whether and how integration raises, the deliver calls
  // of `execute` and how it ends, the ledger and the rows when it ends, the terminal
  // status another party gave the invocation meanwhile, and the names whose dispatch
  // raises.
  datatype Script = Script(
    integration: Option<Failure>,
    outputs: seq<Output>,
    ending: Option<Failure>,
    ledger: seq<Deliver>,
    rows: Rows,
    interference: Option<Status>,
    dispatchRaises: set<Name>)

  // One run of a node.
  datatype Attempt = Attempt(name: Name, node: NodeId, invocation: int, graph: Option<Topology>, script: Script)

  datatype Event =
    | Begun | Consumed | StagedOutput | OutputsVisible | Woken(target: Name) | InputsFinished
    | MarkedCompleted | MarkedCanceled | MarkedCrashed | Finalized

  datatype Exit = ReturnsNormally | Raises(failure: Failure)

  // ---- Where a deliver call goes ----

  function Downstream(edges: seq<(Name, Name)>, name: Name): seq<Name> {
    if edges == [] then [] else (if edges[0].0 == name then [edges[0].1] else []) + Downstream(edges[1..], name)
  }

  /** `_resolve_default_target` under the strict policy: the one downstream target,
      END when there is none, and an error when there are several or no topology. */
  function DefaultTarget(graph: Option<Topology>, name: Name): Option<Name> {
    if graph.None? then None
    else
      var targets := Downstream(graph.value.edges, name);
      if |targets| > 1 then None else if |targets| == 1 then Some(targets[0]) else Some(END)
  }

  /** Two edges leave the node. */
  ghost predicate TwoLeave(edges: seq<(Name, Name)>, name: Name) {
    exists i, j :: 0 <= i < j < |edges| && edges[i].0 == name && edges[j].0 == name
  }

  lemma {:induction false} DownstreamMembers(edges: seq<(Name, Name)>, name: Name)
    ensures Downstream(edges, name) == [] <==> forall e :: e in edges ==> e.0 != name
    ensures forall e :: e in edges && e.0 == name ==> e.1 in Downstream(edges, name)
  {
    if edges != [] {
      DownstreamMembers(edges[1..], name);
      assert edges == [edges[0]] + edges[1..];
    }
  }

  lemma {:induction false} DownstreamCounts(edges: seq<(Name, Name)>, name: Name)
    ensures |Downstream(edges, name)| > 1 <==> TwoLeave(edges, name)
  {
    if edges != [] {
      var rest := edges[1..];
      DownstreamCounts(rest, name);
      DownstreamMembers(rest, name);
      assert edges == [edges[0]] + rest;
      if |Downstream(edges, name)| > 1 {
        if edges[0].0 == name {
          var e :| e in rest && e.0 == name;
          var j :| 0 <= j < |rest| && rest[j] == e;
          assert edges[0].0 == name && edges[j + 1].0 == name;
        } else {
          var i, j :| 0 <= i < j < |rest| && rest[i].0 == name && rest[j].0 == name;
          assert edges[i + 1].0 == name && edges[j + 1].0 == name;
        }
      }
      if i, j :| 0 <= i < j < |edges| && edges[i].0 == name && edges[j].0 == name {
        assert edges[j] == rest[j - 1];
        assert i > 0 ==> edges[i] == rest[i - 1];
      }
    }
  }

  /** The default target is strict: there is one exactly when the topology is known
      and at most one edge leaves the node; then it is that edge's target, or END. */
  lemma DefaultTargetExact(graph: Topology, name: Name)
    ensures DefaultTarget(None, name) == None
    ensures DefaultTarget(Some(graph), name).None? <==> TwoLeave(graph.edges, name)
    ensures DefaultTarget(Some(graph), name).Some? ==>
      var t := DefaultTarget(Some(graph), name).value;
      && (forall e :: e in graph.edges && e.0 == name ==> e.1 == t)
      && ((forall e :: e in graph.edges ==> e.0 != name) ==> t == END)
  {
    DownstreamCounts(graph.edges, name);
    DownstreamMembers(graph.edges, name);
  }

  /** The store a deliver call goes to, or nothing when it raises. */
  function Resolve(output: Output, a: Attempt, registered: set<NodeId>): Option<NodeId> {
    var target := if output.next.Some? then output.next else DefaultTarget(a.graph, a.name);
    if target.None? then None
    else
      var node := NodeOf(a.graph, target.value);
      if node.Some? && node.value in registered then node else None
  }

  /** The node a name stands for. */
  function NodeOf(graph: Option<Topology>, name: Name): Option<NodeId> {
    if graph.None? then Some(name) else if name in graph.value.ids then Some(graph.value.ids[name]) else None
  }

  /** What the name stands for: its id in the topology, without one the name itself. */
  predicate Names(graph: Option<Topology>, name: Name, node: NodeId) {
    if graph.None? then node == name else name in graph.value.ids && graph.value.ids[name] == node
  }

  /** Where a deliver call says it goes: to the node it names; if it names none, to the
      target of the one edge that leaves this node, or to END when no edge does. */
  ghost predicate Addressed(output: Output, a: Attempt, node: NodeId) {
    if output.next.Some? then Names(a.graph, output.next.value, node)
    else
      a.graph.Some? &&
      var edges := a.graph.value.edges;
      || (exists i :: SoleEdge(edges, a.name, i) && Names(a.graph, edges[i].1, node))
      || ((forall e :: e in edges ==> e.0 != a.name) && Names(a.graph, END, node))
  }

  ghost predicate SoleEdge(edges: seq<(Name, Name)>, name: Name, i: int) {
    && 0 <= i < |edges| && edges[i].0 == name
    && forall j :: 0 <= j < |edges| && edges[j].0 == name ==> j == i
  }

  /** A deliver call succeeds exactly when what it addresses is registered, and goes there. */
  lemma ResolveExact(output: Output, a: Attempt, registered: set<NodeId>, node: NodeId)
    ensures Resolve(output, a, registered) == Some(node) <==> Addressed(output, a, node) && node in registered
  {
    if output.next.None? && a.graph.Some? {
      DefaultTargetExact(a.graph.value, a.name);
      var edges := a.graph.value.edges;
      if DefaultTarget(a.graph, a.name).Some? {
        forall i | 0 <= i < |edges| && edges[i].0 == a.name
          ensures SoleEdge(edges, a.name, i) && DefaultTarget(a.graph, a.name) == Some(edges[i].1)
        {
          assert edges[i] in edges;
          forall j | 0 <= j < |edges| && edges[j].0 == a.name
            ensures j == i
          {
            assert i < j ==> TwoLeave(edges, a.name);
            assert j < i ==> TwoLeave(edges, a.name);
          }
        }
      } else {
        var i, j :| 0 <= i < j < |edges| && edges[i].0 == a.name && edges[j].0 == a.name;
        assert edges[i] in edges;
      }
    }
  }

  // ---- The ledger of a run ----

  /** The ledger after the deliver calls that did not raise, and whether none did. */
  function Staging(s: seq<Deliver>, outputs: seq<Output>, a: Attempt,
                   registered: set<NodeId>): (r: (seq<Deliver>, bool))
    ensures Forward(s, r.0) && (Numbered(s) ==> Numbered(r.0)) && r.0[..|s|] == s
    ensures forall i :: |s| <= i < |r.0| ==> StagedBy(r.0[i], a)
    decreases |outputs|
  {
    if outputs == [] then (s, true)
    else
      var target := Resolve(outputs[0], a, registered);
      if target.None? then (s, false)
      else
        var out := Deliver(|s|, target.value, a.node, a.invocation, None, outputs[0].content, Staged);
        var r := Staging(s + [out], outputs[1..], a, registered);
        assert r.0[..|s|] == r.0[..|s| + 1][..|s|];
        r
  }

  predicate StagedBy(r: Deliver, a: Attempt) {
    r.source == a.node && r.status == Staged && r.invocation == a.invocation
  }

  /** The record the k-th deliver call has made. */
  ghost predicate MadeBy(r: Deliver, output: Output, a: Attempt, registered: set<NodeId>) {
    && r.source == a.node && r.invocation == a.invocation && r.status == Staged && r.consumedBy.None?
    && r.content == output.content && Addressed(output, a, r.target) && r.target in registered
  }

  /** The first `staged` deliver calls appended their records in order, to the nodes they
      address; that was all of them unless the next addresses nothing registered. */
  ghost predicate StagedAsAddressed(s: seq<Deliver>, s': seq<Deliver>, outputs: seq<Output>, a: Attempt,
                                    registered: set<NodeId>, ok: bool, staged: int)
  {
    && 0 <= staged <= |outputs| && |s'| == |s| + staged && s'[..|s|] == s
    && (forall i :: |s| <= i < |s'| ==> s'[i].id == i && MadeBy(s'[i], outputs[i - |s|], a, registered))
    && (ok <==> staged == |outputs|)
    && (ok <==> !(staged < |outputs| && NowhereToGo(outputs[staged], a, registered)))
  }

  ghost predicate NowhereToGo(output: Output, a: Attempt, registered: set<NodeId>) {
    forall node :: node in registered ==> !Addressed(output, a, node)
  }

  lemma {:induction false} StagingMeans(s: seq<Deliver>, outputs: seq<Output>, a: Attempt, registered: set<NodeId>)
    ensures var r := Staging(s, outputs, a, registered);
      StagedAsAddressed(s, r.0, outputs, a, registered, r.1, |r.0| - |s|)
    decreases |outputs|
  {
    if outputs != [] {
      var target := Resolve(outputs[0], a, registered);
      if target.None? {
        forall node | node in registered
          ensures !Addressed(outputs[0], a, node)
        {
          ResolveExact(outputs[0], a, registered, node);
        }
      } else {
        ResolveExact(outputs[0], a, registered, target.value);
        var out := Deliver(|s|, target.value, a.node, a.invocation, None, outputs[0].content, Staged);
        StagingMeans(s + [out], outputs[1..], a, registered);
        OneMoreStaged(s, out, outputs, a, registered, Staging(s + [out], outputs[1..], a, registered));
      }
    }
  }

  lemma OneMoreStaged(s: seq<Deliver>, out: Deliver, outputs: seq<Output>, a: Attempt, registered: set<NodeId>,
                      r: (seq<Deliver>, bool))
    requires outputs != [] && out.id == |s| && MadeBy(out, outputs[0], a, registered)
    requires StagedAsAddressed(s + [out], r.0, outputs[1..], a, registered, r.1, |r.0| - |s| - 1)
    ensures StagedAsAddressed(s, r.0, outputs, a, registered, r.1, |r.0| - |s|)
  {
    var n := |r.0| - |s|;
    assert r.0[..|s| + 1] == s + [out];
    assert r.0[|s|] == r.0[..|s| + 1][|s|];
    assert r.0[..|s|] == r.0[..|s| + 1][..|s|];
    assert n < |outputs| ==> outputs[1..][n - 1] == outputs[n];
    forall i | |s| <= i < |r.0|
      ensures r.0[i].id == i && MadeBy(r.0[i], outputs[i - |s|], a, registered)
    {
      if i > |s| {
        assert outputs[1..][i - |s| - 1] == outputs[i - |s|];
      }
    }
  }

  /** The ledger after the run's own effects before the await ends. */
  ghost function ExecuteLedger(s: seq<Deliver>, a: Attempt, registered: set<NodeId>): (seq<Deliver>, bool) {
    var taken := Taken(s, a.node, a.invocation, registered);
    if a.script.integration.Some? then (taken, false) else Staging(taken, a.script.outputs, a, registered)
  }

  /** The ledger and the rows when the await has ended. */
  ghost function AwaitedLedger(s: seq<Deliver>, a: Attempt, registered: set<NodeId>): seq<Deliver> {
    if a.script.integration.Some? then ExecuteLedger(s, a, registered).0 else a.script.ledger
  }

  function AwaitedRows(rows: Rows, a: Attempt): Rows {
    if a.script.integration.Some? then rows else a.script.rows
  }

  /** Other parties only move the ledger forward and keep terminal rows. */
  ghost predicate LedgerRely(s: seq<Deliver>, a: Attempt, registered: set<NodeId>) {
    a.script.integration.None? ==>
      Forward(ExecuteLedger(s, a, registered).0, a.script.ledger) && Numbered(a.script.ledger)
  }

  ghost predicate RowsRely(rows: Rows, a: Attempt, version: nat) {
    var script := a.script;
    && script.interference != Some(Running)
    && (script.integration.None? ==>
          && TerminalKept(rows, script.rows) && RowExists(script.rows, a.node, version)
          && script.rows[a.node][version] == if script.interference.Some? then script.interference.value else Running)
  }

  /** How the try block stands when `execute` has ended. */
  function TryOutcome(script: Script, stagedAll: bool): Option<Failure> {
    if script.integration.Some? then script.integration else if !stagedAll then Some(Error) else script.ending
  }

  function TerminalFor(failure: Option<Failure>): Status {
    match failure case None => Completed case Some(Control) => Canceled case Some(Error) => Crashed
  }

  /** The first terminal status the invocation gets.  Nothing is awaited before
      integration, so another party comes first only when that has succeeded. */
  function FirstTerminal(script: Script, stagedAll: bool): Status {
    if script.integration.None? && script.interference.Some? then script.interference.value
    else TerminalFor(TryOutcome(script, stagedAll))
  }

  predicate CompletesHere(script: Script, stagedAll: bool) {
    FirstTerminal(script, stagedAll) == Completed && script.interference.None?
  }

  /** The status change of the except and finally blocks, if there is one. */
  function Marks(script: Script, stagedAll: bool): seq<Event> {
    if CompletesHere(script, stagedAll) || (script.integration.None? && script.interference.Some?) then []
    else [if FirstTerminal(script, stagedAll) == Canceled then MarkedCanceled else MarkedCrashed]
  }

  function ExitOf(script: Script, stagedAll: bool, finished: bool): Exit {
    if CompletesHere(script, stagedAll) && finished then ReturnsNormally
    else if Marks(script, stagedAll) == [MarkedCanceled] then Raises(Control)
    else Raises(Error)
  }

  /** The ledger a run leaves. */
  ghost function LedgerAfter(s: seq<Deliver>, a: Attempt, registered: set<NodeId>, finished: bool): seq<Deliver> {
    var base := AwaitedLedger(s, a, registered);
    if Completes(s, a, registered) then Promoted(base, a.node, registered, finished) else base
  }

  ghost predicate Completes(s: seq<Deliver>, a: Attempt, registered: set<NodeId>) {
    CompletesHere(a.script, ExecuteLedger(s, a, registered).1)
  }

  // ---- What a run does to the ledger ----

  lemma ExecutedPrefix(s: seq<Deliver>, a: Attempt, registered: set<NodeId>, i: nat)
    requires i < |s|
    ensures i < |ExecuteLedger(s, a, registered).0|
    ensures ExecuteLedger(s, a, registered).0[i] == Taken(s, a.node, a.invocation, registered)[i]
  {
    var staged := ExecuteLedger(s, a, registered).0;
    assert staged[..|s|] == Taken(s, a.node, a.invocation, registered);
    assert staged[i] == staged[..|s|][i];
  }

  /** A run loses and alters no deliver: statuses only move forward. */
  lemma RunMovesForward(s: seq<Deliver>, a: Attempt, registered: set<NodeId>, finished: bool)
    requires LedgerRely(s, a, registered)
    ensures Forward(s, LedgerAfter(s, a, registered, finished))
  {
    var base := AwaitedLedger(s, a, registered);
    if a.script.integration.None? {
      ForwardTrans(s, ExecuteLedger(s, a, registered).0, base);
    }
    PromotedForward(base, a.node, registered, finished);
    ForwardTrans(s, base, Promoted(base, a.node, registered, finished));
  }

  /** A run that does not complete its invocation promotes nothing: up to the end of
      `execute` it only claims inputs and stages outputs, and then changes nothing. */
  lemma FailedRunPromotesNothing(s: seq<Deliver>, a: Attempt, registered: set<NodeId>, finished: bool)
    requires !Completes(s, a, registered)
    ensures var mine := ExecuteLedger(s, a, registered).0;
      && NothingPromoted(s, mine) && (forall i :: |s| <= i < |mine| ==> StagedBy(mine[i], a))
      && LedgerAfter(s, a, registered, finished) == AwaitedLedger(s, a, registered)
  {
    forall i | 0 <= i < |s|
      ensures SamePromotion(s[i], ExecuteLedger(s, a, registered).0[i])
    {
      ExecutedPrefix(s, a, registered, i);
    }
  }

  /** Inputs the run did not claim, delivered or published while it was awaited, are
      left for the next one. */
  lemma LateInputsWait(s: seq<Deliver>, a: Attempt, registered: set<NodeId>, finished: bool, i: nat)
    requires i < |AwaitedLedger(s, a, registered)| && AwaitedLedger(s, a, registered)[i].status == Pending
    ensures LedgerAfter(s, a, registered, finished)[i] == AwaitedLedger(s, a, registered)[i]
  {
  }

  // ---- Any sequence of runs ----

  /** The ledger after a list of runs, each with whether its dispatches succeeded. */
  ghost function LedgerAfterAll(s: seq<Deliver>, runs: seq<(Attempt, bool)>, registered: set<NodeId>): seq<Deliver>
    decreases |runs|
  {
    if runs == [] then s else LedgerAfterAll(LedgerAfter(s, runs[0].0, registered, runs[0].1), runs[1..], registered)
  }

  ghost predicate RelyAlong(s: seq<Deliver>, runs: seq<(Attempt, bool)>, registered: set<NodeId>)
    decreases |runs|
  {
    runs != [] ==>
      && LedgerRely(s, runs[0].0, registered)
      && RelyAlong(LedgerAfter(s, runs[0].0, registered, runs[0].1), runs[1..], registered)
  }

  lemma {:induction false} RunsMoveForward(s: seq<Deliver>, runs: seq<(Attempt, bool)>, registered: set<NodeId>)
    requires RelyAlong(s, runs, registered)
    ensures Forward(s, LedgerAfterAll(s, runs, registered))
    decreases |runs|
  {
    if runs != [] {
      var s' := LedgerAfter(s, runs[0].0, registered, runs[0].1);
      RunMovesForward(s, runs[0].0, registered, runs[0].1);
      RunsMoveForward(s', runs[1..], registered);
      ForwardTrans(s, s', LedgerAfterAll(s', runs[1..], registered));
    }
  }

  /** At-least-once: whatever runs came before, once a run of a node completes every
      deliver the node made so far, in whichever attempt, is visible, and stays so over
      any further runs, with its target and content unchanged. */
  lemma DeliversSurvive(s: seq<Deliver>, a: Attempt, finished: bool, later: seq<(Attempt, bool)>,
                        registered: set<NodeId>, i: nat)
    requires RelyAlong(s, [(a, finished)] + later, registered) && Completes(s, a, registered)
    requires i < |LedgerAfter(s, a, registered, finished)|
    requires LedgerAfter(s, a, registered, finished)[i].source == a.node
    ensures var made := LedgerAfter(s, a, registered, finished);
      var s' := LedgerAfterAll(s, [(a, finished)] + later, registered);
      && i < |s'| && s'[i].status != Staged && SameButLater(made[i], s'[i])
      && (i < |s| ==> s'[i].target == s[i].target && s'[i].content == s[i].content)
  {
    var runs := [(a, finished)] + later;
    assert runs[1..] == later;
    RunMovesForward(s, a, registered, finished);
    RunsMoveForward(LedgerAfter(s, a, registered, finished), later, registered);
  }

  // ---- The effects of a run in order ----

  ghost function Stagings(n: nat): seq<Event> {
    seq(n, _ => StagedOutput)
  }

  ghost function Wakes(names: seq<Name>): seq<Event> {
    seq(|names|, i requires 0 <= i < |names| => Woken(names[i]))
  }

  lemma WakesSnoc(names: seq<Name>, target: Name)
    ensures Wakes(names + [target]) == Wakes(names) + [Woken(target)]
  {
  }

  // How a run went: whether all deliver calls succeeded and how many did, the names
  // woken, and whether the run got to finishing its inputs.
  datatype Course = Course(stagedAll: bool, staged: nat, woken: seq<Name>, finished: bool)

  ghost function Promotions(woken: seq<Name>, finished: bool): seq<Event> {
    [MarkedCompleted, OutputsVisible] + Wakes(woken) + (if finished then [InputsFinished] else [])
  }

  /** The effects of the try block. */
  ghost function TryEvents(script: Script, c: Course): seq<Event> {
    [Consumed] + Stagings(c.staged)
    + (if CompletesHere(script, c.stagedAll) then Promotions(c.woken, c.finished) else [])
  }

  ghost function BodyEvents(script: Script, c: Course): seq<Event> {
    TryEvents(script, c) + (Marks(script, c.stagedAll) + [Finalized])
  }

  ghost function RunEvents(script: Script, c: Course): seq<Event> {
    [Begun] + BodyEvents(script, c)
  }

  function Phase(e: Event): nat {
    match e
    case Begun => 0 case Consumed => 0 case StagedOutput => 0
    case MarkedCompleted => 1 case OutputsVisible => 2 case Woken(_) => 3 case InputsFinished => 4
    case MarkedCanceled => 5 case MarkedCrashed => 5 case Finalized => 6
  }

  ghost predicate Sorted(events: seq<Event>) {
    forall i, j :: 0 <= i < j < |events| ==> Phase(events[i]) <= Phase(events[j])
  }

  lemma InConcat(a: seq<Event>, b: seq<Event>)
    ensures forall e :: e in a + b <==> e in a || e in b
  {
  }

  lemma PromotionsOrdered(woken: seq<Name>, finished: bool)
    ensures var d := Promotions(woken, finished);
      && Sorted(d)
      && (forall e :: e in d ==> 1 <= Phase(e) <= 4)
      && MarkedCompleted in d && OutputsVisible in d && (InputsFinished in d <==> finished)
  {
    var b := [MarkedCompleted, OutputsVisible];
    var c := if finished then [InputsFinished] else [];
    InConcat(b + Wakes(woken), c);
  }

  lemma TryEventsOrdered(script: Script, c: Course)
    ensures var events := TryEvents(script, c);
      && Sorted(events)
      && (forall e :: e in events ==> Phase(e) <= 4)
      && (MarkedCompleted in events <==> CompletesHere(script, c.stagedAll))
      && (OutputsVisible in events <==> CompletesHere(script, c.stagedAll))
      && (InputsFinished in events <==> CompletesHere(script, c.stagedAll) && c.finished)
      && (forall n :: Woken(n) in events ==> CompletesHere(script, c.stagedAll))
  {
    var a := [Consumed] + Stagings(c.staged);
    var d := if CompletesHere(script, c.stagedAll) then Promotions(c.woken, c.finished) else [];
    PromotionsOrdered(c.woken, c.finished);
    InConcat(a, d);
  }

  /** The outputs become visible only after completion, targets are woken only after
      that, inputs are finished last; and a run that does not complete the
      invocation does none of it. */
  lemma EventsOrdered(script: Script, c: Course)
    ensures var events := RunEvents(script, c);
      && Sorted(events)
      && (MarkedCompleted in events <==> CompletesHere(script, c.stagedAll))
      && (OutputsVisible in events <==> CompletesHere(script, c.stagedAll))
      && (InputsFinished in events <==> CompletesHere(script, c.stagedAll) && c.finished)
      && (forall n :: Woken(n) in events ==> CompletesHere(script, c.stagedAll))
  {
    TryEventsOrdered(script, c);
  }

  lemma Regroup(z: seq<Event>, a: seq<Event>, b: seq<Event>, c: seq<Event>)
    ensures z + a + b + c == z + (a + b + c) && z + a + b == z + (a + b + [])
  {
  }

  lemma BodyLog(l0: seq<Event>, l2: seq<Event>, l3: seq<Event>, script: Script, c: Course)
    requires l2 == l0 + TryEvents(script, c)
    requires l3 == l2 + Marks(script, c.stagedAll) + [Finalized]
    ensures l3 == l0 + BodyEvents(script, c)
  {
    assert l3 == l2 + (Marks(script, c.stagedAll) + [Finalized]);
  }

  // ---- Whom a completed run wakes ----

  /** The nodes a source has staged outputs for. */
  function Affected(s: seq<Deliver>, source: NodeId): set<NodeId> {
    set i | 0 <= i < |s| && s[i].source == source && s[i].status == Staged :: s[i].target
  }

  lemma AffectedSnoc(s: seq<Deliver>, r: Deliver, source: NodeId)
    ensures Affected(s + [r], source)
         == Affected(s, source) + if r.source == source && r.status == Staged then {r.target} else {}
  {
    var t := s + [r];
    forall x | x in Affected(s, source)
      ensures x in Affected(t, source)
    {
      var i :| 0 <= i < |s| && s[i].source == source && s[i].status == Staged && s[i].target == x;
      assert t[i] == s[i];
    }
    if r.source == source && r.status == Staged {
      assert t[|s|] == r;
    }
  }

  predicate IsWakeOf(name: Name, affected: set<NodeId>, graph: Option<Topology>, raises: set<Name>) {
    name !in raises && NodeOf(graph, name).Some? && NodeOf(graph, name).value in affected
  }

  ghost predicate HasWake(names: seq<Name>, id: NodeId, graph: Option<Topology>) {
    exists n :: n in names && NodeOf(graph, n) == Some(id)
  }

  /** Each name woken stands for an affected node, none twice and none whose dispatch
      raises. */
  ghost predicate Woke(names: seq<Name>, affected: set<NodeId>, graph: Option<Topology>, raises: set<Name>) {
    && (forall n :: n in names ==> IsWakeOf(n, affected, graph, raises))
    && (forall i, j :: 0 <= i < j < |names| ==> names[i] != names[j])
  }

  /** The loop ends early exactly at a node that has no name or whose dispatch raises. */
  ghost predicate CannotWake(id: NodeId, graph: Option<Topology>, raises: set<Name>) {
    (forall n :: NodeOf(graph, n) != Some(id)) || exists n :: n in raises && NodeOf(graph, n) == Some(id)
  }

  ghost predicate WakeOutcome(names: seq<Name>, affected: set<NodeId>, graph: Option<Topology>, raises: set<Name>,
                              all: bool)
  {
    && Woke(names, affected, graph, raises)
    && (all ==> forall id :: id in affected ==> HasWake(names, id, graph))
    && (!all ==> exists id :: id in affected && CannotWake(id, graph, raises))
  }

  /** What a completed run wakes: nothing for END, otherwise the nodes it staged for. */
  ghost predicate RunWakes(woken: seq<Name>, affected: set<NodeId>, a: Attempt, finished: bool) {
    if a.name == END then woken == [] && finished
    else WakeOutcome(woken, affected, a.graph, a.script.dispatchRaises, finished)
  }

  /** The record was staged by the node. */
  predicate StagedFrom(r: Deliver, source: NodeId) {
    r.source == source && r.status == Staged
  }

  /** The woken names are names of targets the node staged for, without repetition; all of
      them when the run finished, and otherwise some target has no name or a name whose
      dispatch raises.  END wakes nobody. */
  ghost predicate WokenAsStaged(woken: seq<Name>, s: seq<Deliver>, a: Attempt, finished: bool) {
    if a.name == END then woken == [] && finished
    else
      && (forall i, j :: 0 <= i < j < |woken| ==> woken[i] != woken[j])
      && (forall n :: n in woken ==> n !in a.script.dispatchRaises && NamesStaged(n, s, a))
      && (finished ==> forall r :: r in s && StagedFrom(r, a.node) ==> NamedIn(r.target, woken, a))
      && (!finished ==> exists r :: r in s && StagedFrom(r, a.node) && Unwakeable(r.target, a))
  }

  ghost predicate NamesStaged(name: Name, s: seq<Deliver>, a: Attempt) {
    exists r :: r in s && StagedFrom(r, a.node) && Names(a.graph, name, r.target)
  }

  ghost predicate NamedIn(node: NodeId, woken: seq<Name>, a: Attempt) {
    exists n :: n in woken && Names(a.graph, n, node)
  }

  ghost predicate Unwakeable(node: NodeId, a: Attempt) {
    || (forall n :: !Names(a.graph, n, node))
    || exists n :: n in a.script.dispatchRaises && Names(a.graph, n, node)
  }

  lemma NamesExact(graph: Option<Topology>, name: Name, node: NodeId)
    ensures NodeOf(graph, name) == Some(node) <==> Names(graph, name, node)
  {
  }

  lemma AffectedExact(s: seq<Deliver>, source: NodeId, node: NodeId)
    ensures node in Affected(s, source) <==> exists r :: r in s && StagedFrom(r, source) && r.target == node
  {
    if node in Affected(s, source) {
      var i :| 0 <= i < |s| && s[i].source == source && s[i].status == Staged && s[i].target == node;
      assert s[i] in s && StagedFrom(s[i], source);
    }
  }

  /** Whom `World.Run` wakes, in terms of records and names. */
  lemma WakesMean(woken: seq<Name>, s: seq<Deliver>, a: Attempt, finished: bool)
    requires RunWakes(woken, Affected(s, a.node), a, finished)
    ensures WokenAsStaged(woken, s, a, finished)
  {
    if a.name != END {
      forall n | n in woken
        ensures NamesStaged(n, s, a)
      {
        assert IsWakeOf(n, Affected(s, a.node), a.graph, a.script.dispatchRaises);
        AffectedExact(s, a.node, NodeOf(a.graph, n).value);
      }
      if finished {
        forall r | r in s && StagedFrom(r, a.node)
          ensures NamedIn(r.target, woken, a)
        {
          AffectedExact(s, a.node, r.target);
          assert HasWake(woken, r.target, a.graph);
          var n :| n in woken && NodeOf(a.graph, n) == Some(r.target);
          NamesExact(a.graph, n, r.target);
        }
      } else {
        var id :| id in Affected(s, a.node) && CannotWake(id, a.graph, a.script.dispatchRaises);
        AffectedExact(s, a.node, id);
        forall n
          ensures NodeOf(a.graph, n) == Some(id) <==> Names(a.graph, n, id)
        {
          NamesExact(a.graph, n, id);
        }
        assert Unwakeable(id, a);
      }
    }
  }

  /** The status and the exit of a run, case by case. */
  ghost predicate EndsAs(script: Script, stagedAll: bool, finished: bool, status: Status, exit: Exit) {
    if script.integration.Some? then
      && status == (if script.integration.value.Control? then Canceled else Crashed)
      && exit == Raises(script.integration.value)
    else if script.interference.Some? then status == script.interference.value && exit == Raises(Error)
    else if !stagedAll then status == Crashed && exit == Raises(Error)
    else if script.ending.Some? then
      && status == (if script.ending.value.Control? then Canceled else Crashed)
      && exit == Raises(script.ending.value)
    else status == Completed && exit == if finished then ReturnsNormally else Raises(Error)
  }

  /** The first terminal status and the exit that `World.Run` gives are those. */
  lemma EndingMeans(script: Script, stagedAll: bool, finished: bool)
    ensures EndsAs(script, stagedAll, finished, FirstTerminal(script, stagedAll), ExitOf(script, stagedAll, finished))
  {
  }

  lemma WokeMore(names: seq<Name>, some: set<NodeId>, affected: set<NodeId>, graph: Option<Topology>, raises: set<Name>)
    requires Woke(names, some, graph, raises) && some <= affected
    ensures Woke(names, affected, graph, raises)
  {
  }

  lemma OneMoreWoken(names: seq<Name>, done: set<NodeId>, id: NodeId, name: Name, graph: Option<Topology>,
                     raises: set<Name>)
    requires Woke(names, done, graph, raises) && id !in done
    requires NodeOf(graph, name) == Some(id) && name !in raises
    ensures Woke(names + [name], done + {id}, graph, raises)
    ensures forall i :: HasWake(names, i, graph) || i == id ==> HasWake(names + [name], i, graph)
  {
    assert forall i :: 0 <= i < |names| ==> names[i] in names;
    forall i | HasWake(names, i, graph) || i == id
      ensures HasWake(names + [name], i, graph)
    {
      if i == id {
        assert name in names + [name];
      } else {
        var n :| n in names && NodeOf(graph, n) == Some(i);
        assert n in names + [name];
      }
    }
  }

  /** From before a row is begun to the end of its run. */
  lemma RowsAfter(rows0: Rows, a: Attempt, rows: Rows)
    requires RowsRely(WithNewRow(rows0, a.node), a, |Chain(rows0, a.node)|)
    requires RowChange(AwaitedRows(WithNewRow(rows0, a.node), a), rows, a.node, |Chain(rows0, a.node)|)
    ensures TerminalKept(rows0, rows)
    ensures OneRunning(AwaitedRows(WithNewRow(rows0, a.node), a)) ==> OneRunning(rows)
  {
    var rows1 := WithNewRow(rows0, a.node);
    NewRowKeeps(rows0, a.node);
    ChangeKeeps(AwaitedRows(rows1, a), rows, a.node, |Chain(rows0, a.node)|);
    TerminalTrans(rows0, rows1, AwaitedRows(rows1, a));
    TerminalTrans(rows0, AwaitedRows(rows1, a), rows);
  }

  // ---- The run ----

  class World {
    var records: seq<Deliver>
    var rows: Rows
    const registered: set<NodeId>
    ghost var log: seq<Event>

    constructor (registered: set<NodeId>)
      ensures records == [] && rows == map[] && this.registered == registered && log == []
    {
      records, rows, log := [], map[], [];
      this.registered := registered;
    }

    /** A new RUNNING row; an orphan RUNNING row before it becomes CRASHED. */
    method Begin(node: NodeId) returns (version: nat)
      modifies this`rows, this`log
      ensures version == |Chain(old(rows), node)| && rows == WithNewRow(old(rows), node)
      ensures log == old(log) + [Begun]
    {
      var chain := if node in rows then rows[node] else [];
      if |chain| > 0 && chain[|chain| - 1] == Running {
        chain := chain[|chain| - 1 := Crashed];
      }
      version := |chain|;
      rows := rows[node := chain + [Running]];
      log := log + [Begun];
    }

    /** Compare-and-swap from RUNNING: fails, changing nothing, on a terminal row. */
    method Transition(node: NodeId, version: nat, to: Status, ghost event: Event) returns (ok: bool)
      requires RowExists(rows, node, version)
      modifies this`rows, this`log
      ensures ok <==> old(rows)[node][version] == Running
      ensures rows == Moved(old(rows), node, version, to)
      ensures log == if ok then old(log) + [event] else old(log)
    {
      ok := rows[node][version] == Running;
      if ok {
        rows := rows[node := rows[node][version := to]];
        log := log + [event];
      }
    }

    /** `collect_consumable_delivers` and `mark_delivers_consumed`. */
    method Claim(node: NodeId, invocation: int)
      requires Numbered(records)
      modifies this`records, this`log
      ensures records == Taken(old(records), node, invocation, registered)
      ensures Numbered(records) && log == old(log) + [Consumed]
    {
      if node in registered {
        for i := 0 to |records|
          invariant |records| == |old(records)| && log == old(log)
          invariant forall k :: 0 <= k < i ==> records[k] == ClaimOne(old(records)[k], node, invocation)
          invariant forall k :: i <= k < |records| ==> records[k] == old(records)[k]
        {
          if Consumable(records[i], node) {
            records := records[i := records[i].(status := ConsumedPending, consumedBy := Some(invocation))];
          }
        }
        assert records == Claimed(old(records), node, invocation);
      }
      log := log + [Consumed];
    }

    /** `promote_staged_by_source`: the targets are the nodes to wake. */
    method PublishOutputs(source: NodeId) returns (affected: set<NodeId>)
      modifies this`records, this`log
      ensures records == Published(old(records), source)
      ensures affected == Affected(old(records), source)
      ensures log == old(log) + [OutputsVisible]
    {
      affected := {};
      for i := 0 to |records|
        invariant |records| == |old(records)| && log == old(log)
        invariant forall k :: 0 <= k < i ==> records[k] == PublishOne(old(records)[k], source)
        invariant forall k :: i <= k < |records| ==> records[k] == old(records)[k]
        invariant affected == Affected(old(records)[..i], source)
      {
        assert old(records)[..i + 1] == old(records)[..i] + [records[i]];
        if records[i].source == source && records[i].status == Staged {
          affected := affected + {records[i].target};
          AffectedSnoc(old(records)[..i], records[i], source);
          records := records[i := records[i].(status := Pending)];
        } else {
          AffectedSnoc(old(records)[..i], records[i], source);
        }
      }
      assert old(records)[..|records|] == old(records);
      assert records == Published(old(records), source);
      log := log + [OutputsVisible];
    }

    /** `promote_delivers`: all inputs of the node pending consumption. */
    method FinishInputs(node: NodeId)
      modifies this`records, this`log
      ensures records == if node in registered then Finished(old(records), node) else old(records)
      ensures log == old(log) + [InputsFinished]
    {
      if node in registered {
        for i := 0 to |records|
          invariant |records| == |old(records)| && log == old(log)
          invariant forall k :: 0 <= k < i ==> records[k] == FinishOne(old(records)[k], node)
          invariant forall k :: i <= k < |records| ==> records[k] == old(records)[k]
        {
          if records[i].target == node && records[i].status == ConsumedPending {
            records := records[i := records[i].(status := ConsumedCompleted)];
          }
        }
        assert records == Finished(old(records), node);
      }
      log := log + [InputsFinished];
    }

    /** The deliver calls of `execute`, up to the first that raises. */
    method StageOutputs(a: Attempt) returns (ok: bool, ghost staged: nat)
      modifies this`records, this`log
      ensures (records, ok) == Staging(old(records), a.script.outputs, a, registered)
      ensures staged == |records| - |old(records)| && log == old(log) + Stagings(staged)
      ensures StagedAsAddressed(old(records), records, a.script.outputs, a, registered, ok, staged)
    {
      ghost var before := records;
      var outputs := a.script.outputs;
      staged := 0;
      assert log == old(log) + Stagings(0);
      assert outputs[0..] == outputs;
      for i := 0 to |outputs|
        invariant Staging(records, outputs[i..], a, registered) == Staging(old(records), outputs, a, registered)
        invariant staged == |records| - |old(records)| && log == old(log) + Stagings(staged)
      {
        assert outputs[i..][1..] == outputs[i + 1..];
        var target := Resolve(outputs[i], a, registered);
        if target.None? {
          StagingMeans(before, outputs, a, registered);
          return false, staged;
        }
        records := records + [Deliver(|records|, target.value, a.node, a.invocation, None, outputs[i].content, Staged)];
        log := log + [StagedOutput];
        assert Stagings(staged) + [StagedOutput] == Stagings(staged + 1);
        staged := staged + 1;
      }
      StagingMeans(before, outputs, a, registered);
      ok := true;
    }

    /** A name of the node; without a topology its id. */
    method NameOf(graph: Option<Topology>, id: NodeId) returns (found: Option<Name>)
      ensures found.Some? ==> NodeOf(graph, found.value) == Some(id)
      ensures found.None? ==> forall n :: NodeOf(graph, n) != Some(id)
    {
      if graph.None? {
        return Some(id);
      }
      var pending := graph.value.ids.Keys;
      while pending != {}
        invariant pending <= graph.value.ids.Keys
        invariant forall n :: n in graph.value.ids.Keys - pending ==> graph.value.ids[n] != id
      {
        var n :| n in pending;
        if graph.value.ids[n] == id {
          return Some(n);
        }
        pending := pending - {n};
      }
      return None;
    }

    /** Wakes every affected target; a target without a name, or one whose dispatch
        raises, ends the loop. */
    method WakeTargets(affected: set<NodeId>, graph: Option<Topology>, dispatchRaises: set<Name>)
      returns (ok: bool, ghost names: seq<Name>)
      modifies this`log
      ensures log == old(log) + Wakes(names)
      ensures WakeOutcome(names, affected, graph, dispatchRaises, ok)
    {
      names := [];
      var pending := affected;
      assert log == old(log) + Wakes(names);
      while pending != {}
        invariant pending <= affected
        invariant log == old(log) + Wakes(names)
        invariant Woke(names, affected - pending, graph, dispatchRaises)
        invariant forall id :: id in affected - pending ==> HasWake(names, id, graph)
      {
        var id :| id in pending;
        var found := NameOf(graph, id);
        if found.None? || found.value in dispatchRaises {
          assert CannotWake(id, graph, dispatchRaises);
          WokeMore(names, affected - pending, affected, graph, dispatchRaises);
          return false, names;
        }
        log := log + [Woken(found.value)];
        WakesSnoc(names, found.value);
        OneMoreWoken(names, affected - pending, id, found.value, graph, dispatchRaises);
        assert affected - (pending - {id}) == affected - pending + {id};
        pending := pending - {id};
        names := names + [found.value];
      }
      assert affected - pending == affected;
      ok := true;
    }

    /** The try block up to the end of `execute`. */
    method IntegrateAndExecute(a: Attempt, version: nat)
      returns (failure: Option<Failure>, ghost staged: nat, ghost all: bool)
      requires Numbered(records) && RowExists(rows, a.node, version) && rows[a.node][version] == Running
      requires LedgerRely(records, a, registered) && RowsRely(rows, a, version)
      modifies this
      ensures Numbered(records) && records == AwaitedLedger(old(records), a, registered)
      ensures all == ExecuteLedger(old(records), a, registered).1
      ensures failure == TryOutcome(a.script, all)
      ensures rows == AwaitedRows(old(rows), a)
      ensures log == old(log) + [Consumed] + Stagings(staged)
    {
      staged := 0;
      Claim(a.node, a.invocation);
      assert log == old(log) + [Consumed] + Stagings(0);
      if a.script.integration.Some? {
        return a.script.integration, 0, false;
      }
      var ok;
      ok, staged := StageOutputs(a);
      all := ok;
      records, rows := a.script.ledger, a.script.rows;
      failure := if ok then a.script.ending else Some(Error);
    }

    /** The rest of the try block: complete, promote outputs, wake, finish inputs. */
    method CompleteAndPromote(a: Attempt, version: nat) returns (failure: Option<Failure>, ghost woken: seq<Name>)
      requires RowExists(rows, a.node, version)
      modifies this
      ensures failure.Some? ==> failure.value == Error
      ensures rows == Moved(old(rows), a.node, version, Completed)
      ensures old(rows)[a.node][version] != Running ==> failure.Some? && records == old(records) && log == old(log)
      ensures old(rows)[a.node][version] == Running ==>
        && records == Promoted(old(records), a.node, registered, failure.None?)
        && log == old(log) + Promotions(woken, failure.None?)
        && RunWakes(woken, Affected(old(records), a.node), a, failure.None?)
    {
      woken := [];
      var ok := Transition(a.node, version, Completed, MarkedCompleted);
      if !ok {
        return Some(Error), [];
      }
      var affected := PublishOutputs(a.node);
      assert log == old(log) + [MarkedCompleted, OutputsVisible] + Wakes([]);
      if a.name != END {
        var awake;
        awake, woken := WakeTargets(affected, a.graph, a.script.dispatchRaises);
        assert log == old(log) + [MarkedCompleted, OutputsVisible] + Wakes(woken);
        if !awake {
          return Some(Error), woken;
        }
      }
      FinishInputs(a.node);
      failure := None;
    }

    /** The except and finally blocks. */
    method Conclude(node: NodeId, version: nat, failure: Option<Failure>) returns (exit: Exit, ghost marks: seq<Event>)
      requires RowExists(rows, node, version)
      requires failure.None? ==> rows[node][version] != Running
      modifies this`rows, this`log
      ensures rows == Moved(old(rows), node, version, if failure == Some(Control) then Canceled else Crashed)
      ensures var was := old(rows)[node][version];
        && exit == (if failure.None? then ReturnsNormally
                    else if failure == Some(Control) && was == Running then Raises(Control) else Raises(Error))
        && marks == (if was != Running then []
                     else if failure == Some(Control) then [MarkedCanceled] else [MarkedCrashed])
      ensures log == old(log) + marks + [Finalized]
    {
      exit, marks := ReturnsNormally, [];
      if failure.Some? {
        if failure.value == Control {
          var ok := Transition(node, version, Canceled, MarkedCanceled);
          exit := Raises(if ok then Control else Error);
          marks := if ok then [MarkedCanceled] else [];
        } else {
          var ok := Transition(node, version, Crashed, MarkedCrashed);
          exit := Raises(Error);
          marks := if ok then [MarkedCrashed] else [];
        }
      }
      var orphan := Transition(node, version, Crashed, MarkedCrashed);
      log := log + [Finalized];
    }

    /** The run after its row was begun. */
    method RunBegun(a: Attempt, version: nat) returns (exit: Exit, ghost c: Course)
      requires Numbered(records) && RowExists(rows, a.node, version) && rows[a.node][version] == Running
      requires LedgerRely(records, a, registered) && RowsRely(rows, a, version)
      modifies this
      ensures c.stagedAll == ExecuteLedger(old(records), a, registered).1 && c.finished == (exit == ReturnsNormally)
      ensures RowChange(AwaitedRows(old(rows), a), rows, a.node, version)
      ensures rows[a.node][version] == FirstTerminal(a.script, c.stagedAll)
      ensures exit == ExitOf(a.script, c.stagedAll, c.finished)
      ensures records == LedgerAfter(old(records), a, registered, c.finished)
      ensures log == old(log) + BodyEvents(a.script, c)
      ensures Completes(old(records), a, registered) ==>
        RunWakes(c.woken, Affected(AwaitedLedger(old(records), a, registered), a.node), a, c.finished)
    {
      ghost var log0 := log;
      var failure;
      ghost var staged, all, woken, marks;
      failure, staged, all := IntegrateAndExecute(a, version);
      woken := [];
      ghost var log1, rows2 := log, rows;
      RowSame(rows, a.node, version);
      if failure.None? {
        failure, woken := CompleteAndPromote(a, version);
        MovedChange(rows2, a.node, version, Completed);
      }
      ghost var log2, rows3 := log, rows;
      ghost var went := failure.None?;
      exit, marks := Conclude(a.node, version, failure);
      MovedChange(rows3, a.node, version, if failure == Some(Control) then Canceled else Crashed);
      RowTrans(rows2, rows3, rows, a.node, version);
      c := Course(all, staged, woken, went);
      BodyLog(log0, log2, log, a.script, c);
    }

    /** One run.  The first terminal status of the invocation stays, and unless the
        run itself completed it nothing is promoted; `c` lists the effects in order
        (see `EventsOrdered`). */
    method Run(a: Attempt) returns (exit: Exit, version: nat, ghost c: Course)
      requires Numbered(records) && LedgerRely(records, a, registered)
      requires RowsRely(WithNewRow(rows, a.node), a, |Chain(rows, a.node)|)
      modifies this
      ensures version == |Chain(old(rows), a.node)| && RowExists(rows, a.node, version)
      ensures c.stagedAll == ExecuteLedger(old(records), a, registered).1 && c.finished == (exit == ReturnsNormally)
      ensures rows[a.node][version] == FirstTerminal(a.script, c.stagedAll)
      ensures exit == ExitOf(a.script, c.stagedAll, c.finished)
      ensures records == LedgerAfter(old(records), a, registered, c.finished)
      ensures log == old(log) + RunEvents(a.script, c)
      ensures Completes(old(records), a, registered) ==>
        RunWakes(c.woken, Affected(AwaitedLedger(old(records), a, registered), a.node), a, c.finished)
      ensures TerminalKept(old(rows), rows)
      ensures OneRunning(AwaitedRows(WithNewRow(old(rows), a.node), a)) ==> OneRunning(rows)
    {
      ghost var rows0 := rows;
      version := Begin(a.node);
      NewRowRuns(rows0, a.node);
      exit, c := RunBegun(a, version);
      RowsAfter(rows0, a, rows);
    }
  }
}
