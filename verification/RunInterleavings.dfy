/** Runs of any nodes interleaved.  `Node.run` awaits only `execute`, so a run is three
    kinds of atomic step (node.py:152-241): it starts, which begins its row and claims
    its inputs; it delivers outputs; and it ends, which completes, publishes, wakes and
    finishes, or fails.  An ending may be cut short, and recovery (bootstrap.py:114-145)
    repairs what that left.  Runs are named by their invocation ids. */
module RunInterleavings {
  import opened Outcomes
  import opened NodeLedger
  import opened NodeRun

  // One run: its row, whether `execute` is still awaited, and the delivers it claimed.
  datatype Active = Active(node: NodeId, version: nat, executing: bool, inputs: set<int>)

  datatype System = System(records: seq<Deliver>, rows: Rows, runs: map<int, Active>)

  const INITIAL := System([], map[], map[])

  // How far a completing run gets: its row is marked, its outputs are made visible, or
  // all is done.  A dispatch that raises stops it at the second; the end of the process
  // stops it anywhere.
  datatype Reach = Marked | Visible | Done

  datatype Step =
    | Start(run: int, node: NodeId, integration: Option<Failure>)
    | Emit(run: int, target: NodeId, content: string)
    | End(run: int, ending: Option<Failure>, reach: Reach)
    | Arrive(target: NodeId, source: NodeId, content: string)   // not from a run
    | Recover(nodes: set<NodeId>, start: NodeId)                // the graph's nodes and its START

  function Inputs(s: seq<Deliver>, node: NodeId, registered: set<NodeId>): set<int> {
    if node in registered then set i | 0 <= i < |s| && Consumable(s[i], node) else {}
  }

  /** Begin the row and claim the inputs; when integration then raises the run is over. */
  function DoStart(s: System, run: int, node: NodeId, integration: Option<Failure>, registered: set<NodeId>): System {
    if run in s.runs || run < 0 then s
    else
      var version := |Chain(s.rows, node)|;
      var rows := WithNewRow(s.rows, node);
      System(Taken(s.records, node, run, registered),
             if integration.Some? then Moved(rows, node, version, TerminalFor(integration)) else rows,
             s.runs[run := Active(node, version, integration.None?, Inputs(s.records, node, registered))])
  }

  /** A deliver call of a run whose `execute` is still awaited, orphaned or not. */
  function DoEmit(s: System, run: int, target: NodeId, content: string, registered: set<NodeId>): System {
    if run !in s.runs || !s.runs[run].executing || target !in registered then s
    else s.(records := s.records + [Deliver(|s.records|, target, s.runs[run].node, run, None, content, Staged)])
  }

  function Reached(s: seq<Deliver>, node: NodeId, registered: set<NodeId>, reach: Reach): (r: seq<Deliver>)
    ensures |r| == |s|
  {
    if reach == Marked then s else Promoted(s, node, registered, reach == Done)
  }

  /** `execute` has ended: on success complete the row and promote, unless another
      party made the row terminal; on failure mark it. */
  function DoEnd(s: System, run: int, ending: Option<Failure>, reach: Reach, registered: set<NodeId>): System {
    if run !in s.runs || !s.runs[run].executing || !RowExists(s.rows, s.runs[run].node, s.runs[run].version) then s
    else
      var a := s.runs[run];
      System(if ending.None? && s.rows[a.node][a.version] == Running
             then Reached(s.records, a.node, registered, reach) else s.records,
             Moved(s.rows, a.node, a.version, TerminalFor(ending)),
             s.runs[run := a.(executing := false)])
  }

  /** A deliver that no run makes, such as the input of the graph. */
  function DoArrive(s: System, target: NodeId, source: NodeId, content: string): System {
    s.(records := s.records + [Deliver(|s.records|, target, source, -1, None, content, Pending)])
  }

  predicate RunCompleted(s: System, run: int) {
    run in s.runs && RowExists(s.rows, s.runs[run].node, s.runs[run].version)
    && s.rows[s.runs[run].node][s.runs[run].version] == Completed
  }

  /** The run has the newest row of its node. */
  predicate Newest(s: System, run: int) {
    run in s.runs && s.runs[run].version + 1 == |Chain(s.rows, s.runs[run].node)|
  }

  /** A run that ends well while its row is RUNNING. */
  predicate EndsWell(s: System, run: int) {
    && run in s.runs && s.runs[run].executing
    && RowExists(s.rows, s.runs[run].node, s.runs[run].version)
    && s.rows[s.runs[run].node][s.runs[run].version] == Running
  }

  /** The newest row of the node is COMPLETED. */
  predicate LastCompleted(rows: Rows, node: NodeId) {
    Chain(rows, node) != [] && Chain(rows, node)[|Chain(rows, node)| - 1] == Completed
  }

  /** The invocation has the newest row of one of the nodes, and it is COMPLETED. */
  predicate LastOfNodes(s: System, run: int, nodes: set<NodeId>) {
    Newest(s, run) && RunCompleted(s, run) && s.runs[run].node in nodes
  }

  /** Some input of the node is half consumed by such an invocation. */
  predicate LeftHalfConsumed(s: System, node: NodeId, nodes: set<NodeId>) {
    exists i :: 0 <= i < |s.records| && s.records[i].target == node && s.records[i].status == ConsumedPending
                && s.records[i].consumedBy.Some? && LastOfNodes(s, s.records[i].consumedBy.value, nodes)
  }

  function RecoverOne(s: System, r: Deliver, nodes: set<NodeId>, start: NodeId, registered: set<NodeId>): Deliver {
    var r' := if r.source in nodes && LastCompleted(s.rows, r.source) then PublishOne(r, r.source) else r;
    if r'.target in registered && r'.target != start && LeftHalfConsumed(s, r'.target, nodes)
    then FinishOne(r', r'.target) else r'
  }

  /** Recovery before any node runs again: publish what the nodes completed last have
      staged, then finish the inputs, except those of START, that such an invocation
      left half consumed. */
  function DoRecover(s: System, nodes: set<NodeId>, start: NodeId, registered: set<NodeId>): System {
    s.(records := seq(|s.records|, i requires 0 <= i < |s.records| =>
         RecoverOne(s, s.records[i], nodes, start, registered)))
  }

  function Do(s: System, step: Step, registered: set<NodeId>): System {
    match step
    case Start(run, node, integration) => DoStart(s, run, node, integration, registered)
    case Emit(run, target, content) => DoEmit(s, run, target, content, registered)
    case End(run, ending, reach) => DoEnd(s, run, ending, reach, registered)
    case Arrive(target, source, content) => DoArrive(s, target, source, content)
    case Recover(nodes, start) => DoRecover(s, nodes, start, registered)
  }

  function Run(s: System, steps: seq<Step>, registered: set<NodeId>): System
    decreases |steps|
  {
    if steps == [] then s else Run(Do(s, steps[0], registered), steps[1..], registered)
  }

  // ---- What every step keeps ----

  /** Some run of the node, of this version or a later one, completed. */
  ghost predicate CompletedSince(rows: Rows, node: NodeId, version: int) {
    exists v :: version <= v && 0 <= v < |Chain(rows, node)| && Chain(rows, node)[v] == Completed
  }

  predicate HeldBy(r: Deliver, run: int) {
    r.status == ConsumedPending && r.consumedBy == Some(run)
  }

  /** Every claimed input has a consumer; as long as no newer run of the node starts
      that is the run itself, and while its row is RUNNING it holds them all. */
  ghost predicate RunOk(s: System, run: int)
    requires run in s.runs
  {
    var a := s.runs[run];
    && run >= 0
    && RowExists(s.rows, a.node, a.version)
    && (forall i :: i in a.inputs ==>
          0 <= i < |s.records| && s.records[i].target == a.node && s.records[i].consumedBy.Some?)
    && (Newest(s, run) ==> forall i :: i in a.inputs ==> s.records[i].consumedBy == Some(run))
    && (s.rows[a.node][a.version] == Running ==> forall i :: i in a.inputs ==> HeldBy(s.records[i], run))
  }

  predicate SameRow(a: Active, b: Active) {
    a.node == b.node && a.version == b.version
  }

  ghost predicate RowsDistinct(s: System) {
    forall q, r :: q in s.runs && r in s.runs && SameRow(s.runs[q], s.runs[r]) ==> q == r
  }

  /** What a consumed deliver says of its consumer: it claimed the deliver, and it has
      the newest row of the node, or it completed when the consumption is for good. */
  ghost predicate ConsumerOk(s: System, i: int, registered: set<NodeId>)
    requires 0 <= i < |s.records| && s.records[i].consumedBy.Some?
  {
    var r := s.records[i];
    var c := r.consumedBy.value;
    && r.target in registered
    && c in s.runs && i in s.runs[c].inputs && s.runs[c].node == r.target
    && (if r.status == ConsumedPending then Newest(s, c) else RunCompleted(s, c))
  }

  /** What a deliver says of its source: it is visible only once the run that made it,
      or a later one of the node, completed. */
  ghost predicate SourceOk(s: System, i: int)
    requires 0 <= i < |s.records|
  {
    var r := s.records[i];
    if r.invocation in s.runs then
      && r.source == s.runs[r.invocation].node
      && (r.status != Staged ==> CompletedSince(s.rows, r.source, s.runs[r.invocation].version))
    else r.invocation == -1
  }

  ghost predicate RecordOk(s: System, i: int, registered: set<NodeId>)
    requires 0 <= i < |s.records|
  {
    var r := s.records[i];
    && r.id == i
    && (r.consumedBy.None? <==> r.status == Staged || r.status == Pending)
    && (r.consumedBy.Some? ==> ConsumerOk(s, i, registered))
    && SourceOk(s, i)
  }

  ghost predicate Inv(s: System, registered: set<NodeId>) {
    && OneRunning(s.rows) && RowsDistinct(s)
    && (forall run :: run in s.runs ==> RunOk(s, run))
    && (forall i :: 0 <= i < |s.records| ==> RecordOk(s, i, registered))
  }

  /** What no step takes back. */
  ghost predicate StepForward(s: System, s': System) {
    && Forward(s.records, s'.records) && TerminalKept(s.rows, s'.rows)
    && forall r :: r in s.runs ==> r in s'.runs && s'.runs[r] == s.runs[r].(executing := s'.runs[r].executing)
  }

  lemma SinceKept(rows: Rows, rows': Rows, node: NodeId, version: int)
    requires TerminalKept(rows, rows') && CompletedSince(rows, node, version)
    ensures CompletedSince(rows', node, version)
  {
    var v :| version <= v && 0 <= v < |Chain(rows, node)| && Chain(rows, node)[v] == Completed;
    assert Chain(rows', node)[v] == Completed;
  }

  /** The newest RUNNING row is the last of its chain. */
  lemma RunningIsNewest(s: System, run: int)
    requires OneRunning(s.rows) && run in s.runs && RunOk(s, run)
    requires s.rows[s.runs[run].node][s.runs[run].version] == Running
    ensures Newest(s, run)
  {
  }

  // -- Starting

  lemma StartRun(s: System, run: int, node: NodeId, integration: Option<Failure>, registered: set<NodeId>, r: int)
    requires Inv(s, registered) && r in DoStart(s, run, node, integration, registered).runs
    ensures RunOk(DoStart(s, run, node, integration, registered), r)
  {
    if r in s.runs {
      assert RunOk(s, r);
    }
  }

  lemma StartRecord(s: System, run: int, node: NodeId, integration: Option<Failure>, registered: set<NodeId>, i: int)
    requires Inv(s, registered) && 0 <= i < |s.records|
    ensures RecordOk(DoStart(s, run, node, integration, registered), i, registered)
  {
    assert RecordOk(s, i, registered);
    StartSource(s, run, node, integration, registered, i);
    StartConsumer(s, run, node, integration, registered, i);
  }

  lemma StartSource(s: System, run: int, node: NodeId, integration: Option<Failure>, registered: set<NodeId>, i: int)
    requires 0 <= i < |s.records| && RecordOk(s, i, registered)
    requires TerminalKept(s.rows, DoStart(s, run, node, integration, registered).rows)
    ensures SourceOk(DoStart(s, run, node, integration, registered), i)
  {
    var r := s.records[i];
    if r.invocation in s.runs && r.status != Staged {
      SinceKept(s.rows, DoStart(s, run, node, integration, registered).rows, r.source, s.runs[r.invocation].version);
    }
  }

  lemma StartConsumer(s: System, run: int, node: NodeId, integration: Option<Failure>, registered: set<NodeId>, i: int)
    requires 0 <= i < |s.records| && RecordOk(s, i, registered)
    requires TerminalKept(s.rows, DoStart(s, run, node, integration, registered).rows)
    ensures var s' := DoStart(s, run, node, integration, registered);
      s'.records[i].consumedBy.Some? ==> ConsumerOk(s', i, registered)
  {
  }

  lemma StartKeeps(s: System, run: int, node: NodeId, integration: Option<Failure>, registered: set<NodeId>)
    requires Inv(s, registered)
    ensures var s' := DoStart(s, run, node, integration, registered);
      Inv(s', registered) && StepForward(s, s')
  {
    var s' := DoStart(s, run, node, integration, registered);
    TakenForward(s.records, node, run, registered);
    forall r | r in s'.runs
      ensures RunOk(s', r)
    {
      StartRun(s, run, node, integration, registered, r);
    }
    forall i | 0 <= i < |s'.records|
      ensures RecordOk(s', i, registered)
    {
      StartRecord(s, run, node, integration, registered, i);
    }
  }

  // -- Delivering

  lemma AppendKeeps(s: System, r: Deliver, registered: set<NodeId>)
    requires Inv(s, registered)
    requires r.id == |s.records| && r.consumedBy.None? && (r.status == Staged || r.status == Pending)
    requires if r.invocation in s.runs then r.status == Staged && r.source == s.runs[r.invocation].node
             else r.invocation == -1
    ensures var s' := s.(records := s.records + [r]);
      Inv(s', registered) && StepForward(s, s')
  {
    var s' := s.(records := s.records + [r]);
    forall q | q in s.runs
      ensures RunOk(s', q)
    {
      assert RunOk(s, q);
    }
    forall i | 0 <= i < |s.records|
      ensures RecordOk(s', i, registered)
    {
      assert RecordOk(s, i, registered);
    }
  }

  // -- Ending

  lemma EndRows(s: System, run: int, ending: Option<Failure>, reach: Reach, registered: set<NodeId>)
    requires Inv(s, registered) && run in s.runs && RunOk(s, run)
    ensures var s' := DoEnd(s, run, ending, reach, registered);
      OneRunning(s'.rows) && TerminalKept(s.rows, s'.rows) && RowsDistinct(s')
  {
    var a := s.runs[run];
    MovedChange(s.rows, a.node, a.version, TerminalFor(ending));
    ChangeKeeps(s.rows, Moved(s.rows, a.node, a.version, TerminalFor(ending)), a.node, a.version);
  }

  /** Ending changes no target and no consumer, and touches inputs pending consumption
      only of the run's own node and when it ends well. */
  lemma EndRecord(s: System, run: int, ending: Option<Failure>, reach: Reach, registered: set<NodeId>, i: int)
    requires run in s.runs && 0 <= i < |s.records|
    ensures var r, r' := s.records[i], DoEnd(s, run, ending, reach, registered).records[i];
      && r'.target == r.target && r'.consumedBy == r.consumedBy
      && (r.status == ConsumedPending && (r.target != s.runs[run].node || !EndsWell(s, run)) ==> r' == r)
  {
  }

  lemma EndRun(s: System, run: int, ending: Option<Failure>, reach: Reach, registered: set<NodeId>, r: int)
    requires Inv(s, registered) && run in s.runs && RunOk(s, run) && r in s.runs
    ensures RunOk(DoEnd(s, run, ending, reach, registered), r)
  {
    assert RunOk(s, r);
    var a, b := s.runs[run], s.runs[r];
    forall i | i in b.inputs
      ensures var r, r' := s.records[i], DoEnd(s, run, ending, reach, registered).records[i];
        && r'.target == r.target && r'.consumedBy == r.consumedBy
        && (r.status == ConsumedPending && (r.target != a.node || !EndsWell(s, run)) ==> r' == r)
    {
      EndRecord(s, run, ending, reach, registered, i);
    }
    if s.rows[b.node][b.version] == Running && s.rows[a.node][a.version] == Running && a.node == b.node {
      RunningIsNewest(s, run);
      RunningIsNewest(s, r);
      assert SameRow(a, b);
    }
  }

  lemma EndSource(s: System, run: int, ending: Option<Failure>, reach: Reach, registered: set<NodeId>, i: int)
    requires Inv(s, registered) && run in s.runs && RunOk(s, run) && 0 <= i < |s.records|
    ensures SourceOk(DoEnd(s, run, ending, reach, registered), i)
  {
    var s' := DoEnd(s, run, ending, reach, registered);
    var r, r' := s.records[i], s'.records[i];
    assert RecordOk(s, i, registered);
    EndRows(s, run, ending, reach, registered);
    if r.invocation in s.runs && r'.status != Staged {
      if r.status != Staged {
        SinceKept(s.rows, s'.rows, r.source, s.runs[r.invocation].version);
      } else {
        var a := s.runs[run];
        RunningIsNewest(s, run);
        assert RunOk(s, r.invocation);
        assert Chain(s'.rows, a.node)[a.version] == Completed;
      }
    }
  }

  lemma EndConsumer(s: System, run: int, ending: Option<Failure>, reach: Reach, registered: set<NodeId>, i: int)
    requires Inv(s, registered) && run in s.runs && RunOk(s, run) && 0 <= i < |s.records|
    ensures var s' := DoEnd(s, run, ending, reach, registered);
      s'.records[i].consumedBy.Some? ==> ConsumerOk(s', i, registered)
  {
    var s' := DoEnd(s, run, ending, reach, registered);
    var r, r' := s.records[i], s'.records[i];
    assert RecordOk(s, i, registered);
    EndRows(s, run, ending, reach, registered);
    if r.status == ConsumedPending && r'.status == ConsumedCompleted {
      RunningIsNewest(s, run);
      assert SameRow(s.runs[run], s.runs[r.consumedBy.value]);
    }
  }

  lemma EndKeeps(s: System, run: int, ending: Option<Failure>, reach: Reach, registered: set<NodeId>)
    requires Inv(s, registered) && (run in s.runs ==> RunOk(s, run))
    ensures var s' := DoEnd(s, run, ending, reach, registered);
      Inv(s', registered) && StepForward(s, s')
  {
    var s' := DoEnd(s, run, ending, reach, registered);
    if run in s.runs && s.runs[run].executing {
      EndRows(s, run, ending, reach, registered);
      PromotedForward(s.records, s.runs[run].node, registered, reach == Done);
      forall r | r in s.runs
        ensures RunOk(s', r)
      {
        EndRun(s, run, ending, reach, registered, r);
      }
      forall i | 0 <= i < |s.records|
        ensures RecordOk(s', i, registered)
      {
        assert RecordOk(s, i, registered);
        EndSource(s, run, ending, reach, registered, i);
        EndConsumer(s, run, ending, reach, registered, i);
      }
    }
  }

  // -- Recovering

  /** What recovery makes of one deliver, in terms of the rows alone. */
  function Repaired(rows: Rows, r: Deliver, nodes: set<NodeId>, start: NodeId): Deliver {
    var r' := if r.source in nodes && LastCompleted(rows, r.source) then PublishOne(r, r.source) else r;
    if r'.target in nodes && r'.target != start && LastCompleted(rows, r'.target) then FinishOne(r', r'.target) else r'
  }

  /** Inputs pending consumption belong to the newest invocation of their node, so its
      row alone decides whether they are finished. */
  lemma RecoverRepairs(s: System, nodes: set<NodeId>, start: NodeId, registered: set<NodeId>, i: int)
    requires Inv(s, registered) && 0 <= i < |s.records|
    ensures DoRecover(s, nodes, start, registered).records[i] == Repaired(s.rows, s.records[i], nodes, start)
  {
    var r := s.records[i];
    if r.status == ConsumedPending {
      assert RecordOk(s, i, registered);
      var c := r.consumedBy.value;
      assert RunOk(s, c);
      if r.target in nodes && LastCompleted(s.rows, r.target) {
        assert LastOfNodes(s, c, nodes);
      }
      if LeftHalfConsumed(s, r.target, nodes) {
        var j :| 0 <= j < |s.records| && s.records[j].target == r.target && s.records[j].status == ConsumedPending
                 && s.records[j].consumedBy.Some? && LastOfNodes(s, s.records[j].consumedBy.value, nodes);
        assert RecordOk(s, j, registered);
      }
    }
  }

  lemma RecoverSource(s: System, nodes: set<NodeId>, start: NodeId, registered: set<NodeId>, i: int)
    requires Inv(s, registered) && 0 <= i < |s.records|
    ensures SourceOk(DoRecover(s, nodes, start, registered), i)
  {
    var r := s.records[i];
    assert RecordOk(s, i, registered);
    RecoverRepairs(s, nodes, start, registered, i);
    if r.invocation in s.runs && r.status == Staged && r.source in nodes && LastCompleted(s.rows, r.source) {
      assert RunOk(s, r.invocation);
      assert Chain(s.rows, r.source)[|Chain(s.rows, r.source)| - 1] == Completed;
    }
  }

  lemma RecoverConsumer(s: System, nodes: set<NodeId>, start: NodeId, registered: set<NodeId>, i: int)
    requires Inv(s, registered) && 0 <= i < |s.records|
    ensures var s' := DoRecover(s, nodes, start, registered);
      s'.records[i].consumedBy.Some? ==> ConsumerOk(s', i, registered)
  {
    assert RecordOk(s, i, registered);
    RecoverRepairs(s, nodes, start, registered, i);
    if s.records[i].consumedBy.Some? {
      assert RunOk(s, s.records[i].consumedBy.value);
    }
  }

  /** Recovery changes no target and no consumer, and no input pending consumption of a
      node that was not completed last. */
  lemma RecoverRecord(s: System, nodes: set<NodeId>, start: NodeId, registered: set<NodeId>, i: int)
    requires Inv(s, registered) && 0 <= i < |s.records|
    ensures var r, r' := s.records[i], DoRecover(s, nodes, start, registered).records[i];
      && r'.target == r.target && r'.consumedBy == r.consumedBy
      && (r.status == ConsumedPending && !LastCompleted(s.rows, r.target) ==> r' == r)
  {
    RecoverRepairs(s, nodes, start, registered, i);
  }

  lemma RecoverRun(s: System, nodes: set<NodeId>, start: NodeId, registered: set<NodeId>, r: int)
    requires Inv(s, registered) && r in s.runs
    ensures RunOk(DoRecover(s, nodes, start, registered), r)
  {
    assert RunOk(s, r);
    var s' := DoRecover(s, nodes, start, registered);
    if s.rows[s.runs[r].node][s.runs[r].version] == Running {
      RunningIsNewest(s, r);
      assert !LastCompleted(s.rows, s.runs[r].node);
    }
    forall i | i in s.runs[r].inputs
      ensures s'.records[i].target == s.records[i].target && s'.records[i].consumedBy == s.records[i].consumedBy
      ensures HeldBy(s.records[i], r) && !LastCompleted(s.rows, s.runs[r].node) ==> HeldBy(s'.records[i], r)
    {
      RecoverRecord(s, nodes, start, registered, i);
    }
  }

  lemma RecoverKeeps(s: System, nodes: set<NodeId>, start: NodeId, registered: set<NodeId>)
    requires Inv(s, registered)
    ensures var s' := DoRecover(s, nodes, start, registered);
      Inv(s', registered) && StepForward(s, s')
  {
    var s' := DoRecover(s, nodes, start, registered);
    forall r | r in s.runs
      ensures RunOk(s', r)
    {
      RecoverRun(s, nodes, start, registered, r);
    }
    forall i | 0 <= i < |s.records|
      ensures RecordOk(s', i, registered) && SameButLater(s.records[i], s'.records[i])
    {
      assert RecordOk(s, i, registered);
      RecoverRepairs(s, nodes, start, registered, i);
      RecoverSource(s, nodes, start, registered, i);
      RecoverConsumer(s, nodes, start, registered, i);
    }
  }

  lemma StepKeeps(s: System, step: Step, registered: set<NodeId>)
    requires Inv(s, registered)
    ensures Inv(Do(s, step, registered), registered) && StepForward(s, Do(s, step, registered))
  {
    match step {
      case Start(run, node, integration) => StartKeeps(s, run, node, integration, registered);
      case Emit(run, target, content) =>
        if run in s.runs {
          var out := Deliver(|s.records|, target, s.runs[run].node, run, None, content, Staged);
          AppendKeeps(s, out, registered);
        }
      case End(run, ending, reach) =>
        assert run in s.runs ==> RunOk(s, run);
        EndKeeps(s, run, ending, reach, registered);
      case Arrive(target, source, content) =>
        forall r | r in s.runs
          ensures r >= 0
        {
          assert RunOk(s, r);
        }
        AppendKeeps(s, Deliver(|s.records|, target, source, -1, None, content, Pending), registered);
      case Recover(nodes, start) => RecoverKeeps(s, nodes, start, registered);
    }
  }
}
