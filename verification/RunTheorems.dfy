/** What holds over every interleaving of `RunInterleavings`: what a run consumes and
    publishes, what recovery repairs after endings cut short (bootstrap.py:114-145), when
    an input is given to two runs that complete, and how a single run fits in. */
module RunTheorems {
  import opened Outcomes
  import opened NodeLedger
  import opened NodeRun
  import opened RunInterleavings

  // ---- Every interleaving ----

  lemma ForwardStep(a: System, b: System, c: System)
    requires StepForward(a, b) && StepForward(b, c)
    ensures StepForward(a, c)
  {
    ForwardTrans(a.records, b.records, c.records);
    TerminalTrans(a.rows, b.rows, c.rows);
  }

  /** Whatever steps of whatever runs follow, no deliver is lost or altered, statuses
      only move forward, and no terminal row changes. */
  lemma {:induction false} RunsKeep(s: System, steps: seq<Step>, registered: set<NodeId>)
    requires Inv(s, registered)
    ensures Inv(Run(s, steps, registered), registered) && StepForward(s, Run(s, steps, registered))
    decreases |steps|
  {
    if steps != [] {
      var s' := Do(s, steps[0], registered);
      StepKeeps(s, steps[0], registered);
      RunsKeep(s', steps[1..], registered);
      ForwardStep(s, s', Run(s', steps[1..], registered));
    }
  }

  ghost predicate Reachable(s: System, registered: set<NodeId>) {
    exists steps :: s == Run(INITIAL, steps, registered)
  }

  lemma ReachableInv(s: System, registered: set<NodeId>)
    requires Reachable(s, registered)
    ensures Inv(s, registered)
  {
    var steps :| s == Run(INITIAL, steps, registered);
    RunsKeep(INITIAL, steps, registered);
  }

  /** A deliver is consumed for good by at most one invocation, which claimed it, belongs
      to its target and completed: once it is, no step changes that. */
  lemma ConsumedByOne(s: System, steps: seq<Step>, registered: set<NodeId>, i: int)
    requires Reachable(s, registered) && 0 <= i < |s.records| && s.records[i].status == ConsumedCompleted
    ensures var s' := Run(s, steps, registered);
      && i < |s'.records| && s'.records[i] == s.records[i] && s.records[i].consumedBy.Some?
      && var c := s.records[i].consumedBy.value;
         c in s'.runs && i in s'.runs[c].inputs && s'.runs[c].node == s.records[i].target && RunCompleted(s', c)
  {
    ReachableInv(s, registered);
    RunsKeep(s, steps, registered);
    var s' := Run(s, steps, registered);
    assert SameButLater(s.records[i], s'.records[i]);
    assert RecordOk(s', i, registered);
  }

  /** What a run made becomes visible only when that run, or a later one of its node,
      has completed. */
  lemma VisibleAfterCompletion(s: System, registered: set<NodeId>, i: int)
    requires Reachable(s, registered) && 0 <= i < |s.records|
    requires s.records[i].invocation in s.runs && s.records[i].status != Staged
    ensures CompletedSince(s.rows, s.records[i].source, s.runs[s.records[i].invocation].version)
  {
    ReachableInv(s, registered);
    assert RecordOk(s, i, registered);
  }

  predicate ConsumedFor(r: Deliver, run: int) {
    r.status == ConsumedCompleted && r.consumedBy == Some(run)
  }

  /** Ending well completes the run.  Unless it is cut short it consumes for good exactly
      the inputs it claimed; if it is, or the run fails, it holds them all. */
  lemma EndConsumesInputs(s: System, run: int, ending: Option<Failure>, reach: Reach, registered: set<NodeId>, i: int)
    requires Reachable(s, registered) && EndsWell(s, run) && 0 <= i < |s.records|
    ensures var s' := Do(s, End(run, ending, reach), registered);
      && (RunCompleted(s', run) <==> ending.None?)
      && (ConsumedFor(s'.records[i], run) <==> i in s.runs[run].inputs && ending.None? && reach == Done)
      && (i in s.runs[run].inputs && !ConsumedFor(s'.records[i], run) ==> HeldBy(s'.records[i], run))
  {
    ReachableInv(s, registered);
    assert RunOk(s, run) && RecordOk(s, i, registered);
  }

  lemma {:induction false} RunThen(s: System, steps: seq<Step>, more: seq<Step>, registered: set<NodeId>)
    ensures Run(s, steps + more, registered) == Run(Run(s, steps, registered), more, registered)
    decreases |steps|
  {
    if steps == [] {
      assert steps + more == more;
    } else {
      assert (steps + more)[0] == steps[0] && (steps + more)[1..] == steps[1..] + more;
      RunThen(Do(s, steps[0], registered), steps[1..], more, registered);
    }
  }

  lemma ReachableThen(s: System, steps: seq<Step>, registered: set<NodeId>)
    requires Reachable(s, registered)
    ensures Reachable(Run(s, steps, registered), registered)
  {
    var before :| s == Run(INITIAL, before, registered);
    RunThen(INITIAL, before, steps, registered);
  }

  predicate Sees(s: System, node: NodeId, registered: set<NodeId>, i: int) {
    node in registered && 0 <= i < |s.records| && Consumable(s.records[i], node)
  }

  /** Whatever steps of others come between: a run that still has its row when it ends
      consumes for good exactly what was visible to its node when it started.  What came
      later waits; and when the run fails or is cut short, it all stays visible. */
  lemma RunConsumesWhatItSaw(s: System, run: int, node: NodeId, steps: seq<Step>, s': System, ending: Option<Failure>,
                             reach: Reach, registered: set<NodeId>, i: int)
    requires Reachable(s, registered) && run !in s.runs && run >= 0
    requires s' == Run(Do(s, Start(run, node, None), registered), steps, registered)
    requires EndsWell(s', run) && 0 <= i < |s'.records|
    ensures var r := Do(s', End(run, ending, reach), registered).records[i];
      && (ConsumedFor(r, run) <==> Sees(s, node, registered, i) && ending.None? && reach == Done)
      && (Sees(s, node, registered, i) && !ConsumedFor(r, run) ==> HeldBy(r, run) && Consumable(r, node))
  {
    var s1 := Do(s, Start(run, node, None), registered);
    assert Run(s, [Start(run, node, None)], registered) == s1;
    ReachableThen(s, [Start(run, node, None)], registered);
    ReachableThen(s1, steps, registered);
    ReachableInv(s1, registered);
    RunsKeep(s1, steps, registered);
    EndConsumesInputs(s', run, ending, reach, registered, i);
    if i in s1.runs[run].inputs {
      assert SameButLater(s1.records[i], s'.records[i]);
    }
  }

  /** And publishes everything its node had staged, in whichever run; over any further
      steps it stays visible, with its target and content. */
  lemma PublishedForever(s: System, run: int, reach: Reach, steps: seq<Step>, registered: set<NodeId>, i: int)
    requires Reachable(s, registered) && EndsWell(s, run) && reach != Marked
    requires 0 <= i < |s.records| && s.records[i].source == s.runs[run].node
    ensures var s' := Run(Do(s, End(run, None, reach), registered), steps, registered);
      && i < |s'.records| && s'.records[i].status != Staged
      && s'.records[i].target == s.records[i].target && s'.records[i].content == s.records[i].content
  {
    ReachableInv(s, registered);
    var s1 := Do(s, End(run, None, reach), registered);
    StepKeeps(s, End(run, None, reach), registered);
    RunsKeep(s1, steps, registered);
    assert SameButLater(s.records[i], s1.records[i]);
    assert SameButLater(s1.records[i], Run(s1, steps, registered).records[i]);
  }

  /** What a run delivers before it ends well is visible to its target from then on, with
      its content, whatever steps come between and after. */
  lemma EmittedArrives(s: System, run: int, target: NodeId, content: string, before: seq<Step>, reach: Reach,
                       after: seq<Step>, registered: set<NodeId>)
    requires Reachable(s, registered) && run in s.runs && s.runs[run].executing && target in registered
    requires var s' := Run(Do(s, Emit(run, target, content), registered), before, registered);
      EndsWell(s', run) && reach != Marked
    ensures var s' := Run(Do(s, Emit(run, target, content), registered), before, registered);
      var s'' := Run(Do(s', End(run, None, reach), registered), after, registered);
      && |s.records| < |s''.records|
      && var r := s''.records[|s.records|];
         && r.target == target && r.content == content && r.source == s.runs[run].node && r.invocation == run
         && r.status != Staged
  {
    var s1 := Do(s, Emit(run, target, content), registered);
    var s' := Run(s1, before, registered);
    assert Run(s, [Emit(run, target, content)], registered) == s1;
    ReachableThen(s, [Emit(run, target, content)], registered);
    ReachableThen(s1, before, registered);
    ReachableInv(s1, registered);
    RunsKeep(s1, before, registered);
    assert SameButLater(s1.records[|s.records|], s'.records[|s.records|]);
    PublishedForever(s', run, reach, after, registered, |s.records|);
    var ended := Do(s', End(run, None, reach), registered);
    ReachableInv(s', registered);
    StepKeeps(s', End(run, None, reach), registered);
    RunsKeep(ended, after, registered);
    assert SameButLater(s'.records[|s.records|], ended.records[|s.records|]);
    assert SameButLater(ended.records[|s.records|], Run(ended, after, registered).records[|s.records|]);
  }

  // ---- Endings cut short ----

  /** Wherever an ending is cut short, recovery leaves what it leaves after the whole
      ending; and that, when it is the ending's own node that is recovered, is what the
      whole ending leaves.  For START, whose inputs are not recovered, it must have none. */
  lemma RecoveryCompletesEnding(s: System, run: int, reach: Reach, nodes: set<NodeId>, start: NodeId,
                                registered: set<NodeId>)
    requires Reachable(s, registered) && EndsWell(s, run) && s.runs[run].node in nodes
    requires s.runs[run].node != start || s.runs[run].inputs == {}
    ensures var cut := Do(s, End(run, None, reach), registered);
      var whole := Do(s, End(run, None, Done), registered);
      && Do(cut, Recover(nodes, start), registered) == Do(whole, Recover(nodes, start), registered)
      && (nodes == {s.runs[run].node} ==> Do(cut, Recover(nodes, start), registered) == whole)
  {
    ReachableInv(s, registered);
    var cut := Do(s, End(run, None, reach), registered);
    var whole := Do(s, End(run, None, Done), registered);
    forall i | 0 <= i < |s.records|
      ensures var r := DoRecover(cut, nodes, start, registered).records[i];
        && r == DoRecover(whole, nodes, start, registered).records[i]
        && (nodes == {s.runs[run].node} ==> r == whole.records[i])
    {
      CutRepaired(s, run, reach, nodes, start, registered, i);
    }
    assert DoRecover(cut, nodes, start, registered).records == DoRecover(whole, nodes, start, registered).records;
    if nodes == {s.runs[run].node} {
      assert DoRecover(cut, nodes, start, registered).records == whole.records;
    }
  }

  lemma CutRepaired(s: System, run: int, reach: Reach, nodes: set<NodeId>, start: NodeId,
                    registered: set<NodeId>, i: int)
    requires Inv(s, registered) && EndsWell(s, run) && s.runs[run].node in nodes && 0 <= i < |s.records|
    requires s.runs[run].node != start || s.runs[run].inputs == {}
    ensures var cut := DoEnd(s, run, None, reach, registered);
      var whole := DoEnd(s, run, None, Done, registered);
      && DoRecover(cut, nodes, start, registered).records[i] == DoRecover(whole, nodes, start, registered).records[i]
      && (nodes == {s.runs[run].node} ==>
            DoRecover(cut, nodes, start, registered).records[i] == whole.records[i])
  {
    var r, node := s.records[i], s.runs[run].node;
    EndRepaired(s, run, reach, nodes, start, registered, i);
    EndRepaired(s, run, Done, nodes, start, registered, i);
    assert RunOk(s, run);
    RunningIsNewest(s, run);
    if r.target == node && r.status == ConsumedPending {
      HeldByNewest(s, run, registered, i);
    }
    OneRepaired(EndedRows(s, run), r, node, reach, nodes, start, registered);
  }

  function EndedRows(s: System, run: int): Rows
    requires EndsWell(s, run)
  {
    Moved(s.rows, s.runs[run].node, s.runs[run].version, Completed)
  }

  function ReachedOne(r: Deliver, node: NodeId, registered: set<NodeId>, reach: Reach): Deliver {
    var r' := PublishOne(r, node);
    if reach == Marked then r else if reach == Done && node in registered then FinishOne(r', node) else r'
  }

  lemma EndRepaired(s: System, run: int, reach: Reach, nodes: set<NodeId>, start: NodeId,
                    registered: set<NodeId>, i: int)
    requires Inv(s, registered) && EndsWell(s, run) && 0 <= i < |s.records|
    ensures var ended := DoEnd(s, run, None, reach, registered);
      var r := ReachedOne(s.records[i], s.runs[run].node, registered, reach);
      && ended.records[i] == r
      && DoRecover(ended, nodes, start, registered).records[i] == Repaired(EndedRows(s, run), r, nodes, start)
  {
    assert RunOk(s, run);
    EndKeeps(s, run, None, reach, registered);
    RecoverRepairs(DoEnd(s, run, None, reach, registered), nodes, start, registered, i);
  }

  lemma OneRepaired(rows: Rows, r: Deliver, node: NodeId, reach: Reach, nodes: set<NodeId>, start: NodeId,
                    registered: set<NodeId>)
    requires LastCompleted(rows, node) && node in nodes
    requires r.target == node && r.status == ConsumedPending ==> node in registered && node != start
    ensures var cut, whole := ReachedOne(r, node, registered, reach), ReachedOne(r, node, registered, Done);
      && Repaired(rows, cut, nodes, start) == Repaired(rows, whole, nodes, start)
      && (nodes == {node} ==> Repaired(rows, cut, nodes, start) == whole)
  {
  }

  /** What is pending consumption at the node of the newest run is that run's input. */
  lemma HeldByNewest(s: System, run: int, registered: set<NodeId>, i: int)
    requires Inv(s, registered) && Newest(s, run) && 0 <= i < |s.records|
    requires s.records[i].target == s.runs[run].node && s.records[i].status == ConsumedPending
    ensures s.records[i].target in registered && i in s.runs[run].inputs && HeldBy(s.records[i], run)
  {
    assert RecordOk(s, i, registered);
    assert SameRow(s.runs[run], s.runs[s.records[i].consumedBy.value]);
  }

  // ---- Each input once ----

  /** No input is given to two runs that complete. */
  ghost predicate OnceEach(s: System) {
    forall q, r, i :: RunCompleted(s, q) && RunCompleted(s, r) && i in s.runs[q].inputs && i in s.runs[r].inputs
      ==> q == r
  }

  /** The ending of a run with inputs is cut short after its row was completed. */
  predicate CutsShort(s: System, step: Step) {
    step.End? && step.ending.None? && step.reach != Done && EndsWell(s, step.run) && s.runs[step.run].inputs != {}
  }

  predicate StartsOn(s: System, step: Step, node: NodeId) {
    step.Start? && step.node == node && step.run !in s.runs && step.run >= 0
  }

  predicate Recovers(step: Step, node: NodeId) {
    step.Recover? && node in step.nodes && node != step.start
  }

  predicate Completes(s: System, step: Step, node: NodeId) {
    step.End? && step.ending.None? && EndsWell(s, step.run) && s.runs[step.run].node == node
  }

  /** Some run of the node completes. */
  predicate CompletesIn(node: NodeId, s: System, steps: seq<Step>, registered: set<NodeId>)
    decreases |steps|
  {
    steps != [] && (Completes(s, steps[0], node)
                    || CompletesIn(node, Do(s, steps[0], registered), steps[1..], registered))
  }

  /** The node starts again with no recovery of it before, and a run of it completes. */
  predicate RedoneIn(node: NodeId, s: System, steps: seq<Step>, registered: set<NodeId>)
    decreases |steps|
  {
    && steps != [] && !Recovers(steps[0], node)
    && var s' := Do(s, steps[0], registered);
       if StartsOn(s, steps[0], node) then CompletesIn(node, s', steps[1..], registered)
       else RedoneIn(node, s', steps[1..], registered)
  }

  /** Some ending is cut short and its node redone without recovery. */
  predicate Repeats(s: System, steps: seq<Step>, registered: set<NodeId>)
    decreases |steps|
  {
    steps != [] &&
    var s' := Do(s, steps[0], registered);
    || (CutsShort(s, steps[0]) && RedoneIn(s.runs[steps[0].run].node, s', steps[1..], registered))
    || Repeats(s', steps[1..], registered)
  }

  // A completed run has finished its inputs, or still owns them, or has lost some to a
  // newer run of its node.

  ghost predicate InputsSettled(s: System, run: int)
    requires run in s.runs
  {
    forall i :: i in s.runs[run].inputs ==> 0 <= i < |s.records| && ConsumedFor(s.records[i], run)
  }

  ghost predicate Owns(s: System, run: int)
    requires run in s.runs
  {
    forall i :: i in s.runs[run].inputs ==> 0 <= i < |s.records| && s.records[i].consumedBy == Some(run)
  }

  /** A run that completed, has not finished its inputs and owns them is the newest of
      its node, and they are pending. */
  lemma OpenIsNewest(s: System, run: int, registered: set<NodeId>)
    requires Inv(s, registered) && RunCompleted(s, run) && !InputsSettled(s, run) && Owns(s, run)
    ensures Newest(s, run) && s.runs[run].node in registered
    ensures exists i :: i in s.runs[run].inputs && 0 <= i < |s.records| && HeldBy(s.records[i], run)
  {
    var i :| i in s.runs[run].inputs && !ConsumedFor(s.records[i], run);
    assert RecordOk(s, i, registered);
  }

  lemma SettledStays(s: System, step: Step, registered: set<NodeId>, run: int)
    requires Inv(s, registered) && RunCompleted(s, run) && InputsSettled(s, run)
    ensures var s' := Do(s, step, registered);
      RunCompleted(s', run) && InputsSettled(s', run)
  {
    StepKeeps(s, step, registered);
    forall i | i in s.runs[run].inputs
      ensures ConsumedFor(Do(s, step, registered).records[i], run)
    {
      assert SameButLater(s.records[i], Do(s, step, registered).records[i]);
    }
  }

  lemma LostStays(s: System, step: Step, registered: set<NodeId>, run: int)
    requires Inv(s, registered) && RunCompleted(s, run) && !Owns(s, run)
    ensures var s' := Do(s, step, registered);
      RunCompleted(s', run) && !Owns(s', run)
  {
    StepKeeps(s, step, registered);
    assert RunOk(s, run);
    var i :| i in s.runs[run].inputs && s.records[i].consumedBy != Some(run);
  }

  lemma OpenSettles(s: System, step: Step, registered: set<NodeId>, run: int)
    requires Inv(s, registered) && RunCompleted(s, run) && Owns(s, run) && Newest(s, run)
    requires Recovers(step, s.runs[run].node)
    ensures var s' := Do(s, step, registered);
      RunCompleted(s', run) && InputsSettled(s', run)
  {
    assert RunOk(s, run);
    forall i | i in s.runs[run].inputs
      ensures ConsumedFor(Do(s, step, registered).records[i], run)
    {
      assert RecordOk(s, i, registered);
      RecoverRepairs(s, step.nodes, step.start, registered, i);
    }
  }

  lemma OpenIsLost(s: System, step: Step, registered: set<NodeId>, run: int)
    requires Inv(s, registered) && RunCompleted(s, run) && !InputsSettled(s, run) && Owns(s, run)
    requires StartsOn(s, step, s.runs[run].node)
    ensures var s' := Do(s, step, registered);
      RunCompleted(s', run) && !Owns(s', run)
  {
    StepKeeps(s, step, registered);
    OpenIsNewest(s, run, registered);
    var i :| i in s.runs[run].inputs && 0 <= i < |s.records| && HeldBy(s.records[i], run);
    assert RunOk(s, run);
    assert Do(s, step, registered).records[i].consumedBy == Some(step.run);
  }

  lemma OpenStays(s: System, step: Step, registered: set<NodeId>, run: int)
    requires Inv(s, registered) && RunCompleted(s, run) && !InputsSettled(s, run) && Owns(s, run)
    requires !Recovers(step, s.runs[run].node) && !StartsOn(s, step, s.runs[run].node)
    ensures var s' := Do(s, step, registered);
      RunCompleted(s', run) && !InputsSettled(s', run) && Owns(s', run)
  {
    var s' := Do(s, step, registered);
    OpenIsNewest(s, run, registered);
    var i :| i in s.runs[run].inputs && 0 <= i < |s.records| && HeldBy(s.records[i], run);
    assert RunOk(s, run);
    PendingStays(s, step, registered, run, i);
    NewestStays(s, step, registered, run);
    StepKeeps(s, step, registered);
    assert RunOk(s', run);
  }

  lemma NewestStays(s: System, step: Step, registered: set<NodeId>, run: int)
    requires Inv(s, registered) && Newest(s, run) && !StartsOn(s, step, s.runs[run].node)
    ensures Newest(Do(s, step, registered), run)
  {
  }

  lemma PendingStays(s: System, step: Step, registered: set<NodeId>, run: int, i: int)
    requires Inv(s, registered) && RunCompleted(s, run) && Newest(s, run)
    requires 0 <= i < |s.records| && HeldBy(s.records[i], run) && s.records[i].target == s.runs[run].node
    requires !Recovers(step, s.runs[run].node) && !StartsOn(s, step, s.runs[run].node)
    ensures HeldBy(Do(s, step, registered).records[i], run)
  {
    match step {
      case Start(_, _, _) =>
      case Emit(_, _, _) =>
      case End(other, _, _) =>
        if other in s.runs && EndsWell(s, other) {
          assert RunOk(s, other);
          RunningIsNewest(s, other);
          assert SameRow(s.runs[run], s.runs[other]) || s.runs[other].node != s.runs[run].node;
        }
      case Arrive(_, _, _) =>
      case Recover(nodes, start) => RecoverRepairs(s, nodes, start, registered, i);
    }
  }

  /** Only ending well completes a run; it then owns its inputs, and has finished them
      unless it was cut short. */
  lemma NewlyCompleted(s: System, step: Step, registered: set<NodeId>, run: int)
    requires Inv(s, registered) && !RunCompleted(s, run) && RunCompleted(Do(s, step, registered), run)
    ensures step.End? && step.run == run && step.ending.None? && EndsWell(s, run)
    ensures var s' := Do(s, step, registered);
      Owns(s', run) && (InputsSettled(s', run) <==> !CutsShort(s, step))
  {
    if run in s.runs {
      assert RunOk(s, run);
    }
    assert step.End? && step.run in s.runs && RunOk(s, step.run);
    assert SameRow(s.runs[run], s.runs[step.run]);
    EndedInputs(s, run, step.reach, registered);
  }

  lemma EndedInputs(s: System, run: int, reach: Reach, registered: set<NodeId>)
    requires Inv(s, registered) && EndsWell(s, run)
    ensures var s' := DoEnd(s, run, None, reach, registered);
      Owns(s', run) && (InputsSettled(s', run) <==> reach == Done || s.runs[run].inputs == {})
  {
    assert RunOk(s, run);
    var s' := DoEnd(s, run, None, reach, registered);
    forall i | i in s.runs[run].inputs
      ensures s'.records[i].consumedBy == Some(run)
      ensures ConsumedFor(s'.records[i], run) <==> reach == Done
    {
      assert RecordOk(s, i, registered);
    }
    var inputs := s.runs[run].inputs;
    assert (forall i: int :: i !in inputs) ==> inputs == {};
    if reach != Done && inputs != {} {
      var i :| i in inputs;
      assert !ConsumedFor(s'.records[i], run);
    }
  }

  /** A step gives some input to a second completed run exactly when it completes a run
      of a node another completed run of which has lost an input. */
  lemma StepRepeats(s: System, step: Step, registered: set<NodeId>)
    requires Inv(s, registered) && OnceEach(s)
    ensures OnceEach(Do(s, step, registered))
       <==> (forall q :: RunCompleted(s, q) && !Owns(s, q) ==> !Completes(s, step, s.runs[q].node))
  {
    var s' := Do(s, step, registered);
    forall q | RunCompleted(s, q) && !Owns(s, q) && Completes(s, step, s.runs[q].node)
      ensures !OnceEach(s')
    {
      LostIsRepeated(s, step, registered, q);
    }
    if !OnceEach(s') {
      var q, r, i :| RunCompleted(s', q) && RunCompleted(s', r) && i in s'.runs[q].inputs && i in s'.runs[r].inputs
                     && q != r;
      if RunCompleted(s, q) {
        RepeatedWasLost(s, step, registered, q, r, i);
      } else {
        NewlyCompleted(s, step, registered, q);
        if !RunCompleted(s, r) {
          NewlyCompleted(s, step, registered, r);
        }
        RepeatedWasLost(s, step, registered, r, q, i);
      }
    }
  }

  lemma LostIsRepeated(s: System, step: Step, registered: set<NodeId>, q: int)
    requires Inv(s, registered) && OnceEach(s) && RunCompleted(s, q) && !Owns(s, q)
    requires Completes(s, step, s.runs[q].node)
    ensures !OnceEach(Do(s, step, registered))
  {
    var s' := Do(s, step, registered);
    StepKeeps(s, step, registered);
    assert RunOk(s, q) && RunOk(s, step.run);
    var i :| i in s.runs[q].inputs && s.records[i].consumedBy != Some(q);
    assert RecordOk(s, i, registered);
    RunningIsNewest(s, step.run);
    var c := s.records[i].consumedBy.value;
    assert SameRow(s.runs[c], s.runs[step.run]);
    assert RunCompleted(s', q) && RunCompleted(s', c) && i in s'.runs[q].inputs && i in s'.runs[c].inputs;
  }

  lemma RepeatedWasLost(s: System, step: Step, registered: set<NodeId>, q: int, r: int, i: int)
    requires Inv(s, registered) && OnceEach(s) && RunCompleted(s, q) && q != r
    requires RunCompleted(Do(s, step, registered), r) && i in s.runs[q].inputs
    requires i in Do(s, step, registered).runs[r].inputs
    ensures !Owns(s, q) && Completes(s, step, s.runs[q].node)
  {
    StepKeeps(s, step, registered);
    if !RunCompleted(s, r) {
      NewlyCompleted(s, step, registered, r);
      assert RunOk(s, q) && RunOk(s, r);
      assert HeldBy(s.records[i], r);
    }
  }

  lemma RepeatedStays(s: System, steps: seq<Step>, registered: set<NodeId>)
    requires Inv(s, registered) && !OnceEach(s)
    ensures !OnceEach(Run(s, steps, registered))
  {
    RunsKeep(s, steps, registered);
    var s' := Run(s, steps, registered);
    var q, r, i :| RunCompleted(s, q) && RunCompleted(s, r) && i in s.runs[q].inputs && i in s.runs[r].inputs && q != r;
    assert RunCompleted(s', q) && RunCompleted(s', r) && i in s'.runs[q].inputs && i in s'.runs[r].inputs;
  }

  /** What is in store for the inputs of a completed run. */
  ghost predicate WillRepeat(s: System, run: int, steps: seq<Step>, registered: set<NodeId>)
    requires run in s.runs
  {
    if InputsSettled(s, run) then false
    else if Owns(s, run) then RedoneIn(s.runs[run].node, s, steps, registered)
    else CompletesIn(s.runs[run].node, s, steps, registered)
  }

  ghost predicate SomeWillRepeat(s: System, steps: seq<Step>, registered: set<NodeId>) {
    exists run :: RunCompleted(s, run) && WillRepeat(s, run, steps, registered)
  }

  /** A step that repeats nothing leaves what is in store for a completed run. */
  lemma StoreStays(s: System, steps: seq<Step>, registered: set<NodeId>, run: int)
    requires Inv(s, registered) && RunCompleted(s, run) && steps != []
    requires !Owns(s, run) ==> !Completes(s, steps[0], s.runs[run].node)
    ensures var s' := Do(s, steps[0], registered);
      && RunCompleted(s', run)
      && (WillRepeat(s, run, steps, registered) <==> WillRepeat(s', run, steps[1..], registered))
  {
    StepKeeps(s, steps[0], registered);
    if InputsSettled(s, run) {
      SettledStays(s, steps[0], registered, run);
    } else if !Owns(s, run) {
      LostStays(s, steps[0], registered, run);
    } else if Recovers(steps[0], s.runs[run].node) {
      OpenIsNewest(s, run, registered);
      OpenSettles(s, steps[0], registered, run);
    } else if StartsOn(s, steps[0], s.runs[run].node) {
      OpenIsLost(s, steps[0], registered, run);
    } else {
      OpenStays(s, steps[0], registered, run);
    }
  }

  lemma StoreAfter(s: System, steps: seq<Step>, registered: set<NodeId>)
    requires Inv(s, registered) && OnceEach(s) && steps != [] && OnceEach(Do(s, steps[0], registered))
    ensures var s' := Do(s, steps[0], registered);
      SomeWillRepeat(s, steps, registered) || Repeats(s, steps, registered)
      <==> SomeWillRepeat(s', steps[1..], registered) || Repeats(s', steps[1..], registered)
  {
    var s', rest := Do(s, steps[0], registered), steps[1..];
    StepRepeats(s, steps[0], registered);
    forall run | RunCompleted(s, run)
      ensures RunCompleted(s', run)
      ensures WillRepeat(s, run, steps, registered) <==> WillRepeat(s', run, rest, registered)
    {
      StoreStays(s, steps, registered, run);
    }
    forall run | !RunCompleted(s, run) && RunCompleted(s', run)
      ensures WillRepeat(s', run, rest, registered) ==> Repeats(s, steps, registered)
    {
      NewlyCompleted(s, steps[0], registered, run);
    }
    if CutsShort(s, steps[0]) && RedoneIn(s.runs[steps[0].run].node, s', rest, registered) {
      var run := steps[0].run;
      assert RunOk(s, run) && RunCompleted(s', run);
      NewlyCompleted(s, steps[0], registered, run);
      assert WillRepeat(s', run, rest, registered);
    }
  }

  lemma {:induction false} OnceEachExact(s: System, steps: seq<Step>, registered: set<NodeId>)
    requires Inv(s, registered) && OnceEach(s)
    ensures OnceEach(Run(s, steps, registered))
       <==> !SomeWillRepeat(s, steps, registered) && !Repeats(s, steps, registered)
    decreases |steps|
  {
    if steps != [] {
      var s' := Do(s, steps[0], registered);
      StepKeeps(s, steps[0], registered);
      if OnceEach(s') {
        OnceEachExact(s', steps[1..], registered);
        StoreAfter(s, steps, registered);
      } else {
        RepeatedStays(s', steps[1..], registered);
        StepRepeats(s, steps[0], registered);
        var q :| RunCompleted(s, q) && !Owns(s, q) && Completes(s, steps[0], s.runs[q].node);
        assert WillRepeat(s, q, steps, registered);
      }
    }
  }

  /** Over every interleaving, no input is given to two runs that complete if and only if
      no ending is cut short whose node then starts again without recovery first and
      completes. */
  lemma EachInputOnce(steps: seq<Step>, registered: set<NodeId>)
    ensures OnceEach(Run(INITIAL, steps, registered)) <==> !Repeats(INITIAL, steps, registered)
  {
    OnceEachExact(INITIAL, steps, registered);
  }

  /** So while no dispatch raises and no ending is interrupted it always holds. */
  lemma {:induction false} NothingCutShort(s: System, steps: seq<Step>, registered: set<NodeId>)
    requires forall step :: step in steps && step.End? ==> step.reach == Done
    ensures !Repeats(s, steps, registered)
    decreases |steps|
  {
    if steps != [] {
      assert steps[0] in steps;
      NothingCutShort(Do(s, steps[0], registered), steps[1..], registered);
    }
  }

  /** A dispatch that raises, and a fresh invocation of the graph instead of recovery: the
      next run of the node gets the input again. */
  lemma InputRepeated(node: NodeId, source: NodeId, content: string)
    ensures var steps := [Arrive(node, source, content), Start(0, node, None), End(0, None, Visible),
                          Start(1, node, None), End(1, None, Done)];
      !OnceEach(Run(INITIAL, steps, {node}))
  {
    var steps := [Arrive(node, source, content), Start(0, node, None), End(0, None, Visible),
                  Start(1, node, None), End(1, None, Done)];
    assert Extended([]) == [Running] && Extended([Completed]) == [Completed, Running];
    var in0 := Deliver(0, node, source, -1, None, content, Pending);
    var s1 := Do(INITIAL, steps[0], {node});
    assert s1.records == [in0];
    var s2 := Do(s1, steps[1], {node});
    assert s2.rows == map[node := [Running]] && 0 in s2.runs[0].inputs;
    var s3 := Do(s2, steps[2], {node});
    var s4 := Do(s3, steps[3], {node});
    assert CutsShort(s2, steps[2]) && StartsOn(s3, steps[3], node) && Completes(s4, steps[4], node);
    assert CompletesIn(node, s4, steps[4..], {node});
    assert steps[3..][1..] == steps[4..] && steps[2..][1..] == steps[3..];
    assert RedoneIn(node, s3, steps[3..], {node});
    assert Repeats(s2, steps[2..], {node});
    assert steps[1..][1..] == steps[2..];
    assert Repeats(s1, steps[1..], {node});
    EachInputOnce(steps, {node});
  }

  // ---- One run among others ----

  /** Any steps of any runs are what `NodeRun` lets happen while a run is awaited. */
  lemma StepsRely(s: System, steps: seq<Step>, registered: set<NodeId>)
    requires Inv(s, registered)
    ensures var s' := Run(s, steps, registered);
      Forward(s.records, s'.records) && Numbered(s'.records) && TerminalKept(s.rows, s'.rows) && OneRunning(s'.rows)
  {
    RunsKeep(s, steps, registered);
    var s' := Run(s, steps, registered);
    forall i | 0 <= i < |s'.records|
      ensures s'.records[i].id == i
    {
      assert RecordOk(s', i, registered);
    }
  }

  /** Ending in the system others left is ending `NodeRun.World.Run` with that ledger and
      those rows. */
  lemma EndIsRun(s: System, s0: seq<Deliver>, a: Attempt, finished: bool, registered: set<NodeId>)
    requires a.invocation in s.runs && s.runs[a.invocation].executing && s.runs[a.invocation].node == a.node
    requires RowExists(s.rows, a.node, s.runs[a.invocation].version)
    requires var now := s.rows[a.node][s.runs[a.invocation].version];
      && a.script.integration.None? && a.script.ledger == s.records
      && a.script.interference == if now == Running then None else Some(now)
    requires ExecuteLedger(s0, a, registered).1
    ensures var s' := Do(s, End(a.invocation, a.script.ending, if finished then Done else Visible), registered);
      && s'.records == LedgerAfter(s0, a, registered, finished)
      && s'.rows[a.node][s.runs[a.invocation].version] == FirstTerminal(a.script, true)
  {
  }
}
