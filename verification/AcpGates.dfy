/** What the registries of `AcpServer` hold in every reachable state, and so when a
    prompt, a load or an open is admitted: the gates that close also open again. */
module AcpGates {
  import opened AcpServer

  /** A busy handle has a prompt that its RPC still awaits. */
  ghost predicate TurnsOk(s: State) {
    forall h :: h in s.turns ==> s.turns[h] in s.prompts && AwaitedOn(s, s.turns[h], h)
  }

  predicate AwaitedOn(s: State, p: int, h: Handle)
    requires p in s.prompts
  {
    s.prompts[p].waiting && s.prompts[p].h == h
  }

  /** A registered load or open is one its RPC still awaits. */
  ghost predicate OperationsOk(s: State) {
    LoadsOk(s.tasks, s.operations) && OpeningsOk(s.tasks, s.openings)
  }

  ghost predicate LoadsOk(tasks: map<TaskId, Task>, operations: map<SessionId, TaskId>) {
    forall sid :: sid in operations ==> IsLoad(tasks, operations[sid], sid)
  }

  predicate IsLoad(tasks: map<TaskId, Task>, t: TaskId, sid: SessionId) {
    t in tasks && tasks[t].kind == Load(sid) && tasks[t].waiting
  }

  ghost predicate OpeningsOk(tasks: map<TaskId, Task>, openings: set<TaskId>) {
    forall t :: t in openings ==> IsOpening(tasks, t)
  }

  predicate IsOpening(tasks: map<TaskId, Task>, t: TaskId) {
    t in tasks && tasks[t].kind.New? && tasks[t].waiting
  }

  predicate AwaitsLoad(s: State, t: TaskId, sid: SessionId) {
    IsLoad(s.tasks, t, sid)
  }

  /** What was published stays open until an aclose completes. */
  ghost predicate PublishedOpen(s: State) {
    s.ended || PublishedIn(s.fate, s.entries)
  }

  ghost predicate PublishedIn(fate: map<Handle, Fate>, entries: map<SessionId, Handle>) {
    forall h :: h in fate && fate[h] == Published ==> h.sessionId in entries && entries[h.sessionId] == h
  }

  lemma RpcKeepsTurns(s: State, t: TaskId)
    ensures DoRpcResumes(s, t).turns == s.turns && DoRpcCancelled(s, t).turns == s.turns
  {
  }

  lemma OperationKeepsTurns(s: State, step: Step)
    requires OfOperation(step)
    ensures DoOperation(s, step).turns == s.turns
  {
    match step {
      case NewSession(t) => assert DoNewSession(s, t).turns == s.turns;
      case LoadSession(t, sid) => assert DoLoadSession(s, t, sid).turns == s.turns;
      case BackendReturns(t, h) => assert DoBackendReturns(s, t, h).turns == s.turns;
      case ReplayDone(t) => assert DoReplayDone(s, t).turns == s.turns;
      case OpenFails(t) => assert DoOpenFails(s, t).turns == s.turns;
      case ReplayDies(t) => assert DoReplayDies(s, t).turns == s.turns;
      case ReleaseDone(t) => assert DoReleaseDone(s, t).turns == s.turns;
      case RpcResumes(t) => RpcKeepsTurns(s, t);
      case RpcCancelled(t) => RpcKeepsTurns(s, t);
    }
  }

  lemma CloseKeepsTurns(s: State, step: Step)
    requires !OfOperation(step) && !OfPrompt(step)
    ensures DoClose(s, step).turns == s.turns
  {
  }

  lemma PromptKeepsTurnsOk(s: State, step: Step)
    requires OfPrompt(step) && AllPrompts(s) && TurnsOk(s)
    ensures TurnsOk(DoPrompt(s, step))
  {
    var s' := DoPrompt(s, step);
    assert forall p :: p in s.prompts ==> PromptOk(s, p);
    forall h | h in s'.turns
      ensures s'.turns[h] in s'.prompts && AwaitedOn(s', s'.turns[h], h)
    {
      assert h in s.turns ==> AwaitedOn(s, s.turns[h], h);
    }
  }

  lemma StepKeepsTurnsOk(s: State, step: Step)
    requires Inv(s) && TurnsOk(s)
    ensures TurnsOk(Do(s, step))
  {
    if OfOperation(step) {
      OperationKeepsPrompts(s, step);
      OperationKeepsTurns(s, step);
      SameTurns(s, Do(s, step));
    } else if OfPrompt(step) {
      PromptKeepsTurnsOk(s, step);
    } else {
      CloseKeepsPrompts(s, step);
      CloseKeepsTurns(s, step);
      SameTurns(s, Do(s, step));
    }
  }

  lemma SameTurns(s: State, s': State)
    requires TurnsOk(s) && s'.turns == s.turns && s'.prompts == s.prompts
    ensures TurnsOk(s')
  {
    forall h | h in s'.turns
      ensures AwaitedOn(s', s'.turns[h], h)
    {
      assert AwaitedOn(s, s.turns[h], h);
    }
  }

  lemma PromptKeepsRest(s: State, step: Step)
    requires OfPrompt(step)
    ensures var s' := DoPrompt(s, step);
      && s'.tasks == s.tasks && s'.operations == s.operations && s'.openings == s.openings
      && s'.fate == s.fate && s'.entries == s.entries && s'.ended == s.ended
  {
  }

  // -- Loads and opens

  lemma LoadsStay(tasks: map<TaskId, Task>, operations: map<SessionId, TaskId>, t: TaskId, task: Task)
    requires LoadsOk(tasks, operations)
    requires t in tasks ==> task.kind == tasks[t].kind && task.waiting == tasks[t].waiting
    ensures LoadsOk(tasks[t := task], operations)
  {
    forall sid | sid in operations
      ensures IsLoad(tasks[t := task], operations[sid], sid)
    {
      assert IsLoad(tasks, operations[sid], sid);
    }
  }

  lemma OpeningsStay(tasks: map<TaskId, Task>, openings: set<TaskId>, t: TaskId, task: Task)
    requires OpeningsOk(tasks, openings)
    requires t in tasks ==> task.kind == tasks[t].kind && task.waiting == tasks[t].waiting
    ensures OpeningsOk(tasks[t := task], openings)
  {
    forall u | u in openings
      ensures IsOpening(tasks[t := task], u)
    {
      assert IsOpening(tasks, u);
    }
  }

  /** A task moves on, and the registries are as they were. */
  lemma PhaseMoved(s: State, t: TaskId, phase: Phase, fate: map<Handle, Fate>)
    requires OperationsOk(s) && t in s.tasks
    ensures OperationsOk(s.(tasks := s.tasks[t := s.tasks[t].(phase := phase)], fate := fate))
  {
    LoadsStay(s.tasks, s.operations, t, s.tasks[t].(phase := phase));
    OpeningsStay(s.tasks, s.openings, t, s.tasks[t].(phase := phase));
  }

  lemma SameOperations(s: State, s': State)
    requires OperationsOk(s) && s'.tasks == s.tasks
    requires s'.openings == s.openings && (s'.operations == s.operations || s'.operations == map[])
    ensures OperationsOk(s')
  {
  }

  lemma NewKeeps(s: State, t: TaskId)
    requires OperationsOk(s)
    ensures OperationsOk(DoNewSession(s, t))
  {
    if t !in s.tasks {
      LoadsStay(s.tasks, s.operations, t, Task(New, Opening, true));
      OpeningsStay(s.tasks, s.openings, t, Task(New, Opening, true));
    }
  }

  lemma LoadKeeps(s: State, t: TaskId, sid: SessionId)
    requires OperationsOk(s)
    ensures OperationsOk(DoLoadSession(s, t, sid))
  {
    if t !in s.tasks {
      LoadsStay(s.tasks, s.operations, t, Task(Load(sid), Opening, true));
      OpeningsStay(s.tasks, s.openings, t, Task(Load(sid), Opening, true));
    }
  }

  lemma BackendKeeps(s: State, t: TaskId, h: Handle)
    requires OperationsOk(s)
    ensures OperationsOk(DoBackendReturns(s, t, h))
  {
    if t in s.tasks {
      PhaseMoved(s, t, Returned(h), s.fate[h := Pending(t)]);
      PhaseMoved(s, t, Replaying(h), s.fate[h := Pending(t)]);
    }
  }

  lemma FailKeeps(s: State, t: TaskId)
    requires OperationsOk(s)
    ensures OperationsOk(DoOpenFails(s, t))
  {
    if t in s.tasks {
      PhaseMoved(s, t, Failed, s.fate);
    }
  }

  lemma ReplayKeeps(s: State, t: TaskId)
    requires OperationsOk(s)
    ensures OperationsOk(DoReplayDone(s, t)) && OperationsOk(DoReplayDies(s, t))
  {
    if t in s.tasks && s.tasks[t].phase.Replaying? {
      var h := s.tasks[t].phase.h;
      PhaseMoved(s, t, Returned(h), s.fate);
      PhaseMoved(s, t, Releasing(h), s.fate[h := Closed]);
    }
  }

  lemma ReleaseKeeps(s: State, t: TaskId)
    requires OperationsOk(s)
    ensures OperationsOk(DoReleaseDone(s, t))
  {
    if t in s.tasks {
      PhaseMoved(s, t, Failed, s.fate);
    }
  }

  lemma SettledLoads(tasks: map<TaskId, Task>, operations: map<SessionId, TaskId>, t: TaskId, task: Task)
    requires LoadsOk(tasks, operations) && t in tasks && task.kind == tasks[t].kind
    ensures LoadsOk(tasks[t := task], if task.kind.Load? then operations - {task.kind.sessionId} else operations)
  {
    var operations' := if task.kind.Load? then operations - {task.kind.sessionId} else operations;
    forall sid | sid in operations'
      ensures IsLoad(tasks[t := task], operations'[sid], sid)
    {
      assert IsLoad(tasks, operations[sid], sid);
    }
  }

  lemma SettledOpenings(tasks: map<TaskId, Task>, openings: set<TaskId>, t: TaskId, task: Task)
    requires OpeningsOk(tasks, openings)
    ensures OpeningsOk(tasks[t := task], openings - {t})
  {
    forall u | u in openings - {t}
      ensures IsOpening(tasks[t := task], u)
    {
      assert IsOpening(tasks, u);
    }
  }

  lemma SettleKeepsOperations(s: State, t: TaskId, fate: Fate)
    requires OperationsOk(s) && t in s.tasks && !Running(s.tasks[t].phase)
    ensures OperationsOk(Settle(s, t, fate))
  {
    SettledLoads(s.tasks, s.operations, t, s.tasks[t].(waiting := false));
    SettledOpenings(s.tasks, s.openings, t, s.tasks[t].(waiting := false));
  }

  lemma RpcKeeps(s: State, t: TaskId)
    requires OperationsOk(s)
    ensures OperationsOk(DoRpcResumes(s, t)) && OperationsOk(DoRpcCancelled(s, t))
  {
    if t in s.tasks && !Running(s.tasks[t].phase) {
      SettleKeepsOperations(s, t, Closed);
      SettleKeepsOperations(s, t, Lost);
      SettleKeepsOperations(s, t, Published);
    }
  }

  lemma OperationKeepsOperations(s: State, step: Step)
    requires OperationsOk(s) && OfOperation(step)
    ensures OperationsOk(DoOperation(s, step))
  {
    match step {
      case NewSession(t) => NewKeeps(s, t);
      case LoadSession(t, sid) => LoadKeeps(s, t, sid);
      case BackendReturns(t, h) => BackendKeeps(s, t, h);
      case ReplayDone(t) => ReplayKeeps(s, t);
      case OpenFails(t) => FailKeeps(s, t);
      case ReplayDies(t) => ReplayKeeps(s, t);
      case ReleaseDone(t) => ReleaseKeeps(s, t);
      case RpcResumes(t) => RpcKeeps(s, t);
      case RpcCancelled(t) => RpcKeeps(s, t);
    }
  }

  lemma CloseKeepsOperations(s: State, step: Step)
    requires !OfOperation(step) && !OfPrompt(step)
    ensures var s' := DoClose(s, step);
      s'.tasks == s.tasks && s'.openings == s.openings && (s'.operations == s.operations || s'.operations == map[])
  {
  }

  lemma StepKeepsOperations(s: State, step: Step)
    requires OperationsOk(s)
    ensures OperationsOk(Do(s, step))
  {
    if OfOperation(step) {
      OperationKeepsOperations(s, step);
    } else if OfPrompt(step) {
      PromptKeepsRest(s, step);
      SameOperations(s, Do(s, step));
    } else {
      CloseKeepsOperations(s, step);
      SameOperations(s, Do(s, step));
    }
  }

  // -- Published handles

  lemma SettlePublishes(s: State, t: TaskId, fate: Fate)
    requires PublishedIn(s.fate, s.entries) && t in s.tasks && !Running(s.tasks[t].phase) && s.tasks[t].waiting
    ensures fate != Published ==> PublishedIn(Settle(s, t, fate).fate, s.entries)
    ensures s.tasks[t].phase.Returned? && s.tasks[t].phase.h.sessionId !in s.entries ==>
      PublishedIn(Settle(s, t, fate).fate, s.entries[s.tasks[t].phase.h.sessionId := s.tasks[t].phase.h])
  {
  }

  lemma RpcPublishes(s: State, t: TaskId)
    requires PublishedIn(s.fate, s.entries)
    ensures PublishedIn(DoRpcResumes(s, t).fate, DoRpcResumes(s, t).entries)
    ensures PublishedIn(DoRpcCancelled(s, t).fate, DoRpcCancelled(s, t).entries)
  {
    if t in s.tasks && !Running(s.tasks[t].phase) && s.tasks[t].waiting {
      SettlePublishes(s, t, Closed);
      SettlePublishes(s, t, Lost);
      SettlePublishes(s, t, Published);
    }
  }

  lemma PhasePublishes(s: State, t: TaskId, h: Handle)
    requires PublishedIn(s.fate, s.entries)
    ensures var s' := DoBackendReturns(s, t, h); PublishedIn(s'.fate, s'.entries)
    ensures var s' := DoReplayDies(s, t); PublishedIn(s'.fate, s'.entries)
  {
  }

  lemma OperationPublishes(s: State, step: Step)
    requires PublishedIn(s.fate, s.entries) && OfOperation(step)
    ensures PublishedIn(DoOperation(s, step).fate, DoOperation(s, step).entries)
  {
    match step {
      case BackendReturns(t, h) => PhasePublishes(s, t, h);
      case ReplayDies(t) => PhasePublishes(s, t, Handle(0, ""));
      case RpcResumes(t) => RpcPublishes(s, t);
      case RpcCancelled(t) => RpcPublishes(s, t);
      case _ => FatesStay(s, step);
    }
  }

  lemma FatesStay(s: State, step: Step)
    requires OfOperation(step)
    requires !step.BackendReturns? && !step.ReplayDies? && !step.RpcResumes? && !step.RpcCancelled?
    ensures DoOperation(s, step).fate == s.fate && DoOperation(s, step).entries == s.entries
  {
  }

  lemma ClosePublishes(s: State, step: Step)
    requires !OfOperation(step) && !OfPrompt(step) && PublishedOpen(s)
    ensures PublishedOpen(DoClose(s, step))
  {
  }

  lemma OperationKeepsEnded(s: State, step: Step)
    requires OfOperation(step)
    ensures DoOperation(s, step).ended == s.ended
  {
    match step {
      case NewSession(t) => assert DoNewSession(s, t).ended == s.ended;
      case LoadSession(t, sid) => assert DoLoadSession(s, t, sid).ended == s.ended;
      case BackendReturns(t, h) => assert DoBackendReturns(s, t, h).ended == s.ended;
      case ReplayDone(t) => assert DoReplayDone(s, t).ended == s.ended;
      case OpenFails(t) => assert DoOpenFails(s, t).ended == s.ended;
      case ReplayDies(t) => assert DoReplayDies(s, t).ended == s.ended;
      case ReleaseDone(t) => assert DoReleaseDone(s, t).ended == s.ended;
      case RpcResumes(t) => assert DoRpcResumes(s, t).ended == s.ended;
      case RpcCancelled(t) => assert DoRpcCancelled(s, t).ended == s.ended;
    }
  }

  lemma StepKeepsPublished(s: State, step: Step)
    requires PublishedOpen(s)
    ensures PublishedOpen(Do(s, step))
  {
    if OfOperation(step) {
      OperationKeepsEnded(s, step);
      if !s.ended {
        OperationPublishes(s, step);
      }
    } else if OfPrompt(step) {
      PromptKeepsRest(s, step);
    } else {
      ClosePublishes(s, step);
    }
  }

  /** What the registries hold in every reachable state. */
  ghost predicate Exact(s: State) {
    TurnsOk(s) && OperationsOk(s) && PublishedOpen(s)
  }

  lemma {:induction false} RunKeepsExact(s: State, steps: seq<Step>)
    requires Inv(s) && Exact(s)
    ensures Inv(Run(s, steps)) && Exact(Run(s, steps))
    decreases |steps|
  {
    if steps != [] {
      StepKeepsInv(s, steps[0]);
      StepKeepsTurnsOk(s, steps[0]);
      StepKeepsOperations(s, steps[0]);
      StepKeepsPublished(s, steps[0]);
      RunKeepsExact(Do(s, steps[0]), steps[1..]);
    }
  }

  /** A handle is busy exactly while some RPC awaits a prompt on it. */
  lemma BusyExactly(steps: seq<Step>, h: Handle)
    ensures var s := Run(INITIAL, steps);
      h in s.turns <==> exists p :: p in s.prompts && AwaitedOn(s, p, h)
  {
    RunKeepsExact(INITIAL, steps);
    var s := Run(INITIAL, steps);
    assert h in s.turns ==> AwaitedOn(s, s.turns[h], h);
    if p :| p in s.prompts && AwaitedOn(s, p, h) {
      assert PromptOk(s, p);
    }
  }

  /** A fresh prompt starts if and only if the gate is open, the session is, and no RPC
      awaits a prompt on its handle; otherwise it is refused and changes nothing. */
  lemma PromptAdmitted(steps: seq<Step>, p: int, sid: SessionId)
    requires p !in Run(INITIAL, steps).prompts
    ensures var s := Run(INITIAL, steps); var s' := Do(s, PromptStarts(p, sid));
      var free := !s.closing && sid in s.entries && !exists q :: q in s.prompts && AwaitedOn(s, q, s.entries[sid]);
      && (p in s'.prompts <==> free)
      && (free ==> s'.prompts == s.prompts[p := Prompt(s.entries[sid], false, true)])
      && (!free ==> s' == s)
  {
    var s := Run(INITIAL, steps);
    if sid in s.entries {
      BusyExactly(steps, s.entries[sid]);
    }
  }

  /** A prompt that is answered leaves the server as it found it, so the session is free
      for the next one. */
  lemma PromptAnswered(s: State, p: int, sid: SessionId)
    requires Starts(s, PromptStarts(p, sid))
    ensures Run(s, [PromptStarts(p, sid), TurnDone(p), PromptEnds(p)]) == s
  {
    var h := s.entries[sid];
    ThreeSteps(s, PromptStarts(p, sid), TurnDone(p), PromptEnds(p));
    var s1 := DoPromptStarts(s, p, sid);
    var s2 := DoTurnDone(s1, p);
    assert s2.prompts == s.prompts[p := Prompt(h, true, true)] && s2.turns == s.turns[h := p];
    assert s2.turns - {h} == s.turns && s2.prompts - {p} == s.prompts;
  }

  /** A session is being loaded, or opened, exactly while an RPC awaits that, until an
      aclose completes. */
  lemma LoadingExactly(steps: seq<Step>, sid: SessionId)
    ensures var s := Run(INITIAL, steps);
      !s.ended ==> (sid in s.operations <==> exists t :: AwaitsLoad(s, t, sid))
    ensures var s := Run(INITIAL, steps);
      !s.ended ==> forall t :: t in s.openings <==> IsOpening(s.tasks, t)
  {
    RunKeepsExact(INITIAL, steps);
    var s := Run(INITIAL, steps);
    assert sid in s.operations ==> AwaitsLoad(s, s.operations[sid], sid);
    assert forall t :: t in s.tasks ==> TaskOk(s, t);
  }

  /** A fresh load starts if and only if the gate is open, the session is not open and no
      RPC awaits a load of it; a fresh open whenever the gate is open. */
  lemma OpenAdmitted(steps: seq<Step>, t: TaskId, sid: SessionId)
    requires t !in Run(INITIAL, steps).tasks
    ensures var s := Run(INITIAL, steps); var s' := Do(s, LoadSession(t, sid));
      var free := !s.closing && sid !in s.entries && !exists u :: AwaitsLoad(s, u, sid);
      && (free ==> s'.tasks == s.tasks[t := Task(Load(sid), Opening, true)])
      && (!free ==> s' == s)
    ensures var s := Run(INITIAL, steps); var s' := Do(s, NewSession(t));
      && (!s.closing ==> s'.tasks == s.tasks[t := Task(New, Opening, true)])
      && (s.closing ==> s' == s)
  {
    LoadingExactly(steps, sid);
    ReachableInv(steps);
  }

  /** A session id is open exactly when a handle of it was published, until an aclose
      completes: then none is. */
  lemma OpenExactly(steps: seq<Step>, sid: SessionId)
    ensures var s := Run(INITIAL, steps);
      sid in s.entries <==> !s.ended && exists h :: h in s.fate && s.fate[h] == Published && h.sessionId == sid
  {
    RunKeepsExact(INITIAL, steps);
    var s := Run(INITIAL, steps);
    if sid in s.entries {
      assert EntryOk(s, sid);
      assert s.entries[sid].sessionId == sid;
    }
    if !s.ended {
      forall h | h in s.fate && s.fate[h] == Published && h.sessionId == sid
        ensures sid in s.entries
      {
        assert Open(s, h);
      }
    }
  }

  /** `session/cancel` requests the cancellation of exactly the loads of that session. */
  lemma CancelReaches(steps: seq<Step>, sid: SessionId)
    requires !Run(INITIAL, steps).ended
    ensures var s := Run(INITIAL, steps);
      forall t :: t in Do(s, CancelSession(sid)).cancelled <==> t in s.cancelled || AwaitsLoad(s, t, sid)
  {
    RunKeepsExact(INITIAL, steps);
    var s := Run(INITIAL, steps);
    assert sid in s.operations ==> IsLoad(s.tasks, s.operations[sid], sid);
    forall t | AwaitsLoad(s, t, sid)
      ensures sid in s.operations && s.operations[sid] == t
    {
      assert TaskOk(s, t);
    }
    assert Do(s, CancelSession(sid)) == DoCancelSession(s, sid);
  }

  /** Cancelling an RPC requests that of its own running operation. */
  lemma RpcCancelReaches(s: State, t: TaskId)
    requires Inv(s) && t in s.tasks && Running(s.tasks[t].phase)
    ensures Do(s, RpcCancelled(t)) == s.(cancelled := s.cancelled + {t})
  {
    assert TaskOk(s, t);
  }

  lemma LoadSteps(s: State, t: TaskId, sid: SessionId, h: Handle)
    ensures Run(s, [LoadSession(t, sid), BackendReturns(t, h)]) == DoBackendReturns(DoLoadSession(s, t, sid), t, h)
  {
    TwoSteps(s, LoadSession(t, sid), BackendReturns(t, h));
  }

  lemma ReplaySteps(s: State, t: TaskId)
    ensures Run(s, [ReplayDone(t), RpcResumes(t)]) == DoRpcResumes(DoReplayDone(s, t), t)
  {
    TwoSteps(s, ReplayDone(t), RpcResumes(t));
  }

  lemma DyingSteps(s: State, t: TaskId)
    ensures Run(s, [ReplayDies(t), ReleaseDone(t), RpcResumes(t)])
         == DoRpcResumes(DoReleaseDone(DoReplayDies(s, t), t), t)
  {
    ThreeSteps(s, ReplayDies(t), ReleaseDone(t), RpcResumes(t));
  }

  lemma RunThen(s: State, first: seq<Step>, second: seq<Step>)
    ensures Run(s, first + second) == Run(Run(s, first), second)
  {
    RunSplit(s, first + second, |first|);
    assert (first + second)[..|first|] == first && (first + second)[|first|..] == second;
  }

  /** A load that goes well opens the session and is registered no longer. */
  lemma LoadOpens(s: State, t: TaskId, sid: SessionId, h: Handle)
    requires t !in s.tasks && !s.closing && sid !in s.entries && sid !in s.operations
    requires h !in s.fate && h.sessionId !in s.entries
    ensures Run(s, [LoadSession(t, sid), BackendReturns(t, h)] + [ReplayDone(t), RpcResumes(t)])
         == s.(entries := s.entries[h.sessionId := h], fate := s.fate[h := Published],
               tasks := s.tasks[t := Task(Load(sid), Returned(h), false)], openings := s.openings - {t})
  {
    var s2 := DoBackendReturns(DoLoadSession(s, t, sid), t, h);
    RunThen(s, [LoadSession(t, sid), BackendReturns(t, h)], [ReplayDone(t), RpcResumes(t)]);
    LoadSteps(s, t, sid, h);
    ReplaySteps(s2, t);
    LoadReturned(s, t, sid, h);
    LoadResumed(s, s2, t, sid, h);
  }

  lemma LoadReturned(s: State, t: TaskId, sid: SessionId, h: Handle)
    requires t !in s.tasks && !s.closing && sid !in s.entries && sid !in s.operations && h !in s.fate
    ensures DoBackendReturns(DoLoadSession(s, t, sid), t, h)
         == s.(tasks := s.tasks[t := Task(Load(sid), Replaying(h), true)], operations := s.operations[sid := t],
               fate := s.fate[h := Pending(t)])
  {
    assert DoLoadSession(s, t, sid).tasks[t := Task(Load(sid), Replaying(h), true)]
        == s.tasks[t := Task(Load(sid), Replaying(h), true)];
  }

  lemma LoadResumed(s: State, s2: State, t: TaskId, sid: SessionId, h: Handle)
    requires !s.closing && sid !in s.operations && h.sessionId !in s.entries
    requires s2 == s.(tasks := s.tasks[t := Task(Load(sid), Replaying(h), true)], operations := s.operations[sid := t],
                      fate := s.fate[h := Pending(t)])
    ensures DoRpcResumes(DoReplayDone(s2, t), t)
         == s.(entries := s.entries[h.sessionId := h], fate := s.fate[h := Published],
               tasks := s.tasks[t := Task(Load(sid), Returned(h), false)], openings := s.openings - {t})
  {
    assert s2.operations - {sid} == s.operations;
    assert s2.fate[h := Published] == s.fate[h := Published];
    assert s2.tasks[t := Task(Load(sid), Returned(h), true)][t := Task(Load(sid), Returned(h), false)]
        == s.tasks[t := Task(Load(sid), Returned(h), false)];
  }

  /** A load that dies while it holds a handle closes it and is registered no longer. */
  lemma LoadDies(s: State, t: TaskId, sid: SessionId, h: Handle)
    requires t !in s.tasks && !s.closing && sid !in s.entries && sid !in s.operations && h !in s.fate
    ensures Run(s, [LoadSession(t, sid), BackendReturns(t, h)] + [ReplayDies(t), ReleaseDone(t), RpcResumes(t)])
         == s.(fate := s.fate[h := Closed], tasks := s.tasks[t := Task(Load(sid), Failed, false)],
               openings := s.openings - {t})
  {
    var s2 := DoBackendReturns(DoLoadSession(s, t, sid), t, h);
    RunThen(s, [LoadSession(t, sid), BackendReturns(t, h)], [ReplayDies(t), ReleaseDone(t), RpcResumes(t)]);
    LoadSteps(s, t, sid, h);
    DyingSteps(s2, t);
    LoadReturned(s, t, sid, h);
    LoadReleased(s, s2, t, sid, h);
  }

  lemma LoadReleased(s: State, s2: State, t: TaskId, sid: SessionId, h: Handle)
    requires sid !in s.operations
    requires s2 == s.(tasks := s.tasks[t := Task(Load(sid), Replaying(h), true)], operations := s.operations[sid := t],
                      fate := s.fate[h := Pending(t)])
    ensures DoRpcResumes(DoReleaseDone(DoReplayDies(s2, t), t), t)
         == s.(fate := s.fate[h := Closed], tasks := s.tasks[t := Task(Load(sid), Failed, false)],
               openings := s.openings - {t})
  {
    assert DoReleaseDone(DoReplayDies(s2, t), t)
        == s2.(tasks := s.tasks[t := Task(Load(sid), Failed, true)], fate := s.fate[h := Closed]) by {
      assert s2.tasks[t := Task(Load(sid), Failed, true)] == s.tasks[t := Task(Load(sid), Failed, true)];
    }
    FailedResumed(s, t, sid, s.fate[h := Closed]);
  }

  lemma FailedResumed(s: State, t: TaskId, sid: SessionId, fate: map<Handle, Fate>)
    requires sid !in s.operations
    ensures var failed := s.(tasks := s.tasks[t := Task(Load(sid), Failed, true)],
                             operations := s.operations[sid := t], fate := fate);
      DoRpcResumes(failed, t)
      == s.(fate := fate, tasks := s.tasks[t := Task(Load(sid), Failed, false)], openings := s.openings - {t})
  {
    assert s.operations[sid := t] - {sid} == s.operations;
    assert s.tasks[t := Task(Load(sid), Failed, true)][t := Task(Load(sid), Failed, false)]
        == s.tasks[t := Task(Load(sid), Failed, false)];
  }

  lemma FailSteps(s: State, open: Step, t: TaskId)
    ensures Run(s, [open, OpenFails(t), RpcResumes(t)]) == DoRpcResumes(DoOpenFails(Do(s, open), t), t)
  {
    ThreeSteps(s, open, OpenFails(t), RpcResumes(t));
  }

  /** An open or a load that fails leaves only its finished task behind. */
  lemma OpenFailsCleanly(s: State, t: TaskId, sid: SessionId)
    requires t !in s.tasks && !s.closing && t !in s.openings
    ensures Run(s, [NewSession(t), OpenFails(t), RpcResumes(t)])
         == s.(tasks := s.tasks[t := Task(New, Failed, false)])
    ensures sid !in s.entries && sid !in s.operations ==>
      Run(s, [LoadSession(t, sid), OpenFails(t), RpcResumes(t)])
      == s.(tasks := s.tasks[t := Task(Load(sid), Failed, false)])
  {
    FailSteps(s, NewSession(t), t);
    FailSteps(s, LoadSession(t, sid), t);
    NewFails(s, t);
    if sid !in s.entries && sid !in s.operations {
      LoadFails(s, t, sid);
    }
  }

  lemma NewFails(s: State, t: TaskId)
    requires t !in s.tasks && !s.closing && t !in s.openings
    ensures DoRpcResumes(DoOpenFails(DoNewSession(s, t), t), t) == s.(tasks := s.tasks[t := Task(New, Failed, false)])
  {
    var s2 := DoOpenFails(DoNewSession(s, t), t);
    assert s2.tasks == s.tasks[t := Task(New, Failed, true)] && s2.openings - {t} == s.openings;
    assert s2.tasks[t := Task(New, Failed, false)] == s.tasks[t := Task(New, Failed, false)];
  }

  lemma LoadFails(s: State, t: TaskId, sid: SessionId)
    requires t !in s.tasks && !s.closing && t !in s.openings && sid !in s.entries && sid !in s.operations
    ensures DoRpcResumes(DoOpenFails(DoLoadSession(s, t, sid), t), t)
         == s.(tasks := s.tasks[t := Task(Load(sid), Failed, false)])
  {
    var s2 := DoOpenFails(DoLoadSession(s, t, sid), t);
    assert s2.tasks == s.tasks[t := Task(Load(sid), Failed, true)] && s2.operations - {sid} == s.operations;
    assert s2.tasks[t := Task(Load(sid), Failed, false)] == s.tasks[t := Task(Load(sid), Failed, false)];
    assert s2.openings - {t} == s.openings;
  }

  /** An aclose that completes, or is aborted, is over; aborted, it leaves the gate shut and
      everything else as it was. */
  lemma AcloseOver(s: State, c: int)
    requires Inv(s) && c in s.closers
    ensures var s' := Do(s, AcloseAborted(c));
      s'.closing && c !in s'.closers && s == s'.(closers := s.closers)
    ensures Completes(s, AcloseEnds(c)) ==> var s' := Do(s, AcloseEnds(c)); s'.ended && c !in s'.closers
  {
  }
}
