/** `ModexAcpAgent` session registry (acp/server.py:185-386, 462-499) as a state
    machine: one step is the code between two awaits, and a run is any
    interleaving of steps of any number of new, load, prompt, cancel and aclose
    calls and of the operation tasks they start. */
module AcpServer {
  type SessionId = string
  type TaskId = int

  // One object the backend's `open` returned.
  datatype Handle = Handle(serial: int, sessionId: SessionId)

  datatype Kind = New | Load(sessionId: SessionId)

  // Where an operation task is.  Only loads replay, and only loads close the
  // handle they hold when they die.
  datatype Phase =
    | Opening
    | Replaying(h: Handle)
    | Releasing(h: Handle)
    | Returned(h: Handle)
    | Failed

  // An operation task and whether the RPC that started it still awaits it.
  datatype Task = Task(kind: Kind, phase: Phase, waiting: bool)

  // A prompt: its handle, whether its turn task has finished, and whether the RPC
  // still awaits it.  The RPC leaves a running turn behind when it is cancelled and
  // the handle's own cancel raises or is cancelled.
  datatype Prompt = Prompt(h: Handle, done: bool, waiting: bool)

  // A running aclose: the operations and sessions it saw when it began, and the
  // turns it waits for, known once the operations are done.
  datatype Closer = Closer(operations: set<TaskId>, handles: set<Handle>, collected: bool, turns: set<int>)

  datatype State = State(
    entries: map<SessionId, Handle>,
    operations: map<SessionId, TaskId>,
    openings: set<TaskId>,
    closing: bool,
    turns: map<Handle, int>,
    tasks: map<TaskId, Task>,
    prompts: map<int, Prompt>,
    closers: map<int, Closer>,
    ended: bool,               // some aclose has completed
    cancelled: set<TaskId>,    // operation tasks whose cancellation was requested
    fate: map<Handle, Fate>)   // of every handle the backend returned

  // In the hands of an operation, registered, closed, or dropped by the server.
  datatype Fate = Pending(t: TaskId) | Published | Closed | Lost

  const INITIAL := State(map[], map[], {}, false, map[], map[], map[], map[], false, {}, map[])

  datatype Step =
    | NewSession(t: TaskId)
    | LoadSession(t: TaskId, sid: SessionId)
    | BackendReturns(t: TaskId, h: Handle)
    | ReplayDone(t: TaskId)
    | OpenFails(t: TaskId)              // an exception or a delivered cancellation
    | ReplayDies(t: TaskId)
    | ReleaseDone(t: TaskId)
    | RpcResumes(t: TaskId)
    | RpcCancelled(t: TaskId)           // the RPC task itself is cancelled
    | PromptStarts(p: int, sid: SessionId)
    | TurnDone(p: int)
    | PromptEnds(p: int)
    | PromptAbandoned(p: int)           // cancelled, and the handle's cancel raised
    | CancelSession(sid: SessionId)
    | AcloseBegins(c: int)
    | AcloseCollects(c: int)
    | AcloseEnds(c: int)
    | AcloseAborted(c: int)             // aclose itself is cancelled

  predicate Running(p: Phase) { p.Opening? || p.Replaying? || p.Releasing? }

  /** The task holds a handle nobody else has seen yet. */
  predicate Holds(task: Task, h: Handle) {
    task.phase == Replaying(h) || (task.phase == Returned(h) && task.waiting)
  }

  /** The RPC stops awaiting its finished operation: the registration is dropped and
      the handle, if there is one, meets its fate. */
  function Settle(s: State, t: TaskId, fate: Fate): State
    requires t in s.tasks && !Running(s.tasks[t].phase)
  {
    var task := s.tasks[t];
    s.(tasks := s.tasks[t := task.(waiting := false)],
       openings := s.openings - {t},
       operations := if task.kind.Load? then s.operations - {task.kind.sessionId} else s.operations,
       fate := if task.phase.Failed? then s.fate else s.fate[task.phase.h := fate])
  }

  /** `_register` after the check: the handle is published under its session id. */
  function Enter(s: State, h: Handle): State {
    s.(entries := s.entries[h.sessionId := h])
  }

  /** `new_session` up to its await: the closing gate, then a tracked open task. */
  function DoNewSession(s: State, t: TaskId): State {
    if t in s.tasks || s.closing then s
    else s.(tasks := s.tasks[t := Task(New, Opening, true)], openings := s.openings + {t})
  }

  /** `load_session` up to its await: neither open nor loading already. */
  function DoLoadSession(s: State, t: TaskId, sid: SessionId): State {
    if t in s.tasks || s.closing || sid in s.entries || sid in s.operations then s
    else s.(tasks := s.tasks[t := Task(Load(sid), Opening, true)], operations := s.operations[sid := t])
  }

  /** The backend's `open` returns a fresh handle: a new-session task is done, a load
      goes on to replay. */
  function DoBackendReturns(s: State, t: TaskId, h: Handle): State {
    if t !in s.tasks || s.tasks[t].phase != Opening || h in s.fate then s
    else
      var phase := if s.tasks[t].kind.New? then Returned(h) else Replaying(h);
      s.(tasks := s.tasks[t := s.tasks[t].(phase := phase)], fate := s.fate[h := Pending(t)])
  }

  /** A load has replayed the history and returns its handle. */
  function DoReplayDone(s: State, t: TaskId): State {
    if t !in s.tasks || !s.tasks[t].phase.Replaying? then s
    else s.(tasks := s.tasks[t := s.tasks[t].(phase := Returned(s.tasks[t].phase.h))])
  }

  /** The backend's `open` ends with an exception or a delivered cancellation. */
  function DoOpenFails(s: State, t: TaskId): State {
    if t !in s.tasks || !s.tasks[t].phase.Opening? then s
    else s.(tasks := s.tasks[t := s.tasks[t].(phase := Failed)])
  }

  /** A load dies while it holds a handle, and calls close on it. */
  function DoReplayDies(s: State, t: TaskId): State {
    if t !in s.tasks || !s.tasks[t].phase.Replaying? then s
    else
      var h := s.tasks[t].phase.h;
      s.(tasks := s.tasks[t := s.tasks[t].(phase := Releasing(h))], fate := s.fate[h := Closed])
  }

  /** That close has returned. */
  function DoReleaseDone(s: State, t: TaskId): State {
    if t !in s.tasks || !s.tasks[t].phase.Releasing? then s
    else s.(tasks := s.tasks[t := s.tasks[t].(phase := Failed)])
  }

  /** The RPC wakes after its operation is done: past the gate it closes the handle,
      otherwise it registers it unless the session id is taken. */
  function DoRpcResumes(s: State, t: TaskId): State {
    if t !in s.tasks || Running(s.tasks[t].phase) || !s.tasks[t].waiting then s
    else if s.tasks[t].phase.Failed? || s.closing then Settle(s, t, Closed)
    else if s.tasks[t].phase.h.sessionId in s.entries then Settle(s, t, Lost)
    else Enter(Settle(s, t, Published), s.tasks[t].phase.h)
  }

  /** The RPC task is cancelled: the cancellation chains into a running operation;
      after the operation is done the handle is dropped. */
  function DoRpcCancelled(s: State, t: TaskId): State {
    if t !in s.tasks || !s.tasks[t].waiting then s
    else if Running(s.tasks[t].phase) then s.(cancelled := s.cancelled + {t})
    else Settle(s, t, Lost)
  }

  /** `prompt` up to its await: the closing gate and the per-session busy gate. */
  function DoPromptStarts(s: State, p: int, sid: SessionId): State {
    if p in s.prompts || s.closing || sid !in s.entries || s.entries[sid] in s.turns then s
    else s.(turns := s.turns[s.entries[sid] := p], prompts := s.prompts[p := Prompt(s.entries[sid], false, true)])
  }

  function DoTurnDone(s: State, p: int): State {
    if p !in s.prompts then s else s.(prompts := s.prompts[p := s.prompts[p].(done := true)])
  }

  /** The RPC returns or unwinds after its turn is done. */
  function DoPromptEnds(s: State, p: int): State {
    if p !in s.prompts || !s.prompts[p].done || !s.prompts[p].waiting then s
    else s.(turns := s.turns - {s.prompts[p].h}, prompts := s.prompts - {p})
  }

  /** The RPC unwinds while its turn still runs: the busy gate is freed. */
  function DoPromptAbandoned(s: State, p: int): State {
    if p !in s.prompts || s.prompts[p].done || !s.prompts[p].waiting then s
    else s.(turns := s.turns - {s.prompts[p].h}, prompts := s.prompts[p := s.prompts[p].(waiting := false)])
  }

  /** `session/cancel` of a load; of a prompt it only signals the handle. */
  function DoCancelSession(s: State, sid: SessionId): State {
    if sid in s.operations then s.(cancelled := s.cancelled + {s.operations[sid]}) else s
  }

  /** `aclose` up to its first await: the gate, then cancel whatever is tracked. */
  function DoAcloseBegins(s: State, c: int): State {
    if c in s.closers then s
    else
      var ops := s.operations.Values + s.openings;
      s.(closing := true, cancelled := s.cancelled + ops,
         closers := s.closers[c := Closer(ops, s.entries.Values, false, {})])
  }

  /** `aclose` after gathering the operations: the turns the sessions have now. */
  function DoAcloseCollects(s: State, c: int): State {
    if c !in s.closers || s.closers[c].collected || !OperationsDone(s, s.closers[c]) then s
    else s.(closers := s.closers[c := s.closers[c].(collected := true, turns := InFlight(s, s.closers[c].handles))])
  }

  /** `aclose` after gathering those turns: both registries are cleared. */
  function DoAcloseEnds(s: State, c: int): State {
    if c !in s.closers || !CloserDone(s, s.closers[c]) then s
    else s.(operations := map[], entries := map[], closers := s.closers - {c}, ended := true)
  }

  function DoAcloseAborted(s: State, c: int): State {
    s.(closers := s.closers - {c})
  }

  predicate OperationsDone(s: State, c: Closer) {
    forall t :: t in c.operations && t in s.tasks ==> !Running(s.tasks[t].phase)
  }

  function InFlight(s: State, handles: set<Handle>): set<int> {
    set h | h in handles && h in s.turns :: s.turns[h]
  }

  /** The gathers of aclose have returned. */
  predicate CloserDone(s: State, c: Closer) {
    c.collected && forall p :: p in c.turns && p in s.prompts ==> s.prompts[p].done
  }

  /** Steps of an open or a load and of the RPC that awaits it. */
  predicate OfOperation(step: Step) {
    step.NewSession? || step.LoadSession? || step.BackendReturns? || step.ReplayDone? || step.OpenFails?
    || step.ReplayDies? || step.ReleaseDone? || step.RpcResumes? || step.RpcCancelled?
  }

  /** Steps of a prompt and its turn. */
  predicate OfPrompt(step: Step) {
    step.PromptStarts? || step.TurnDone? || step.PromptEnds? || step.PromptAbandoned?
  }

  function DoOperation(s: State, step: Step): State
    requires OfOperation(step)
  {
    match step
    case NewSession(t) => DoNewSession(s, t)
    case LoadSession(t, sid) => DoLoadSession(s, t, sid)
    case BackendReturns(t, h) => DoBackendReturns(s, t, h)
    case ReplayDone(t) => DoReplayDone(s, t)
    case OpenFails(t) => DoOpenFails(s, t)
    case ReplayDies(t) => DoReplayDies(s, t)
    case ReleaseDone(t) => DoReleaseDone(s, t)
    case RpcResumes(t) => DoRpcResumes(s, t)
    case RpcCancelled(t) => DoRpcCancelled(s, t)
  }

  function DoPrompt(s: State, step: Step): State
    requires OfPrompt(step)
  {
    match step
    case PromptStarts(p, sid) => DoPromptStarts(s, p, sid)
    case TurnDone(p) => DoTurnDone(s, p)
    case PromptEnds(p) => DoPromptEnds(s, p)
    case PromptAbandoned(p) => DoPromptAbandoned(s, p)
  }

  function DoClose(s: State, step: Step): State
    requires !OfOperation(step) && !OfPrompt(step)
  {
    match step
    case CancelSession(sid) => DoCancelSession(s, sid)
    case AcloseBegins(c) => DoAcloseBegins(s, c)
    case AcloseCollects(c) => DoAcloseCollects(s, c)
    case AcloseEnds(c) => DoAcloseEnds(s, c)
    case AcloseAborted(c) => DoAcloseAborted(s, c)
  }

  /** One step; a step that is not enabled, or that the code answers with an error,
      leaves the state as it is. */
  function Do(s: State, step: Step): State {
    if OfOperation(step) then DoOperation(s, step)
    else if OfPrompt(step) then DoPrompt(s, step)
    else DoClose(s, step)
  }

  function Run(s: State, steps: seq<Step>): State
    decreases |steps|
  {
    if steps == [] then s else Run(Do(s, steps[0]), steps[1..])
  }

  // ---- What every step keeps ----

  /** An operation its RPC awaits is registered, so cancel and aclose find it. */
  ghost predicate Tracked(s: State, t: TaskId)
    requires t in s.tasks
  {
    match s.tasks[t].kind
    case New => t in s.openings
    case Load(sid) => sid in s.operations && s.operations[sid] == t
  }

  ghost predicate TaskOk(s: State, t: TaskId)
    requires t in s.tasks
  {
    var task := s.tasks[t];
    && (Running(task.phase) ==> task.waiting && !s.ended && (s.closing ==> t in s.cancelled))
    && (Running(task.phase) ==> forall c :: c in s.closers ==> t in s.closers[c].operations && !s.closers[c].collected)
    && (task.waiting && !s.ended ==> Tracked(s, t))
    && (task.phase.Replaying? || (task.phase.Returned? && task.waiting) ==>
          task.phase.h in s.fate && s.fate[task.phase.h] == Pending(t))
  }

  ghost predicate FateOk(s: State, h: Handle)
    requires h in s.fate
  {
    s.fate[h].Pending? ==> s.fate[h].t in s.tasks && Holds(s.tasks[s.fate[h].t], h)
  }

  ghost predicate EntryOk(s: State, sid: SessionId)
    requires sid in s.entries
  {
    var h := s.entries[sid];
    h.sessionId == sid && h in s.fate && s.fate[h] == Published && !s.ended
  }

  ghost predicate PromptOk(s: State, p: int)
    requires p in s.prompts
  {
    var h := s.prompts[p].h;
    s.prompts[p].waiting ==>
      && h in s.turns && s.turns[h] == p
      && (!s.prompts[p].done ==> !s.ended && Open(s, h) && forall c :: c in s.closers ==> Awaits(s.closers[c], p, h))
  }

  /** The closer will wait for the turn, or already does. */
  predicate Awaits(c: Closer, p: int, h: Handle) {
    h in c.handles && (c.collected ==> p in c.turns)
  }

  predicate Open(s: State, h: Handle) {
    h.sessionId in s.entries && s.entries[h.sessionId] == h
  }

  ghost predicate GateOk(s: State) {
    && (s.closers.Keys != {} ==> s.closing)
    && (s.ended ==> s.closing)
  }

  ghost predicate AllTasks(s: State) {
    forall t :: t in s.tasks ==> TaskOk(s, t)
  }

  ghost predicate AllFates(s: State) {
    forall h :: h in s.fate ==> FateOk(s, h)
  }

  ghost predicate AllEntries(s: State) {
    && (forall sid :: sid in s.operations ==> !s.ended)
    && (forall sid :: sid in s.entries ==> EntryOk(s, sid))
  }

  ghost predicate AllPrompts(s: State) {
    forall p :: p in s.prompts ==> PromptOk(s, p)
  }

  ghost predicate Inv(s: State) {
    GateOk(s) && AllTasks(s) && AllFates(s) && AllEntries(s) && AllPrompts(s)
  }

  /** Nothing registered, published or started in `s'` was not so in `s`. */
  ghost predicate NothingNew(s: State, s': State) {
    && (forall sid :: sid in s'.entries ==> sid in s.entries && s'.entries[sid] == s.entries[sid])
    && (forall h :: h in s'.fate && s'.fate[h] == Published ==> h in s.fate && s.fate[h] == Published)
    && (forall t :: t in s'.tasks ==> t in s.tasks)
  }

  /** What no step takes back: the gate, and the end of an aclose. */
  ghost predicate Forward(s: State, s': State) {
    && (s.closing ==> s'.closing && NothingNew(s, s'))
    && (s.ended ==> s'.ended)
  }

  lemma NewSessionKeeps(s: State, t: TaskId)
    requires Inv(s)
    ensures Inv(DoNewSession(s, t)) && Forward(s, DoNewSession(s, t))
  {
    var s' := DoNewSession(s, t);
    assert AllTasks(s');
    assert AllFates(s') && AllEntries(s') && AllPrompts(s');
  }

  lemma LoadSessionKeeps(s: State, t: TaskId, sid: SessionId)
    requires Inv(s)
    ensures Inv(DoLoadSession(s, t, sid)) && Forward(s, DoLoadSession(s, t, sid))
  {
    var s' := DoLoadSession(s, t, sid);
    assert AllTasks(s');
    assert AllFates(s') && AllEntries(s') && AllPrompts(s');
  }

  lemma BackendReturnsKeeps(s: State, t: TaskId, h: Handle)
    requires Inv(s)
    ensures Inv(DoBackendReturns(s, t, h)) && Forward(s, DoBackendReturns(s, t, h))
  {
  }

  lemma ReplayDoneKeeps(s: State, t: TaskId)
    requires Inv(s)
    ensures Inv(DoReplayDone(s, t)) && Forward(s, DoReplayDone(s, t))
  {
  }

  lemma OpenFailsKeeps(s: State, t: TaskId)
    requires Inv(s)
    ensures Inv(DoOpenFails(s, t)) && Forward(s, DoOpenFails(s, t))
  {
  }

  lemma ReplayDiesKeepsTask(s: State, t: TaskId, u: TaskId)
    requires t in s.tasks && TaskOk(s, t) && u in s.tasks && TaskOk(s, u)
    ensures TaskOk(DoReplayDies(s, t), u)
  {
  }

  lemma ReplayDiesKeepsFate(s: State, t: TaskId, h: Handle)
    requires t in s.tasks && TaskOk(s, t) && h in s.fate && FateOk(s, h)
    ensures FateOk(DoReplayDies(s, t), h)
  {
  }

  lemma ReplayDiesKeepsEntries(s: State, t: TaskId)
    requires t in s.tasks && TaskOk(s, t) && AllEntries(s)
    ensures AllEntries(DoReplayDies(s, t))
  {
  }

  lemma ReplayDiesKeeps(s: State, t: TaskId)
    requires Inv(s)
    ensures Inv(DoReplayDies(s, t)) && Forward(s, DoReplayDies(s, t))
  {
    if t in s.tasks {
      forall u | u in s.tasks
        ensures TaskOk(DoReplayDies(s, t), u)
      {
        ReplayDiesKeepsTask(s, t, u);
      }
      forall h | h in s.fate
        ensures FateOk(DoReplayDies(s, t), h)
      {
        ReplayDiesKeepsFate(s, t, h);
      }
      ReplayDiesKeepsEntries(s, t);
      assert forall p :: p in s.prompts ==> PromptOk(s, p) && PromptOk(DoReplayDies(s, t), p);
    }
  }

  lemma ReleaseDoneKeeps(s: State, t: TaskId)
    requires Inv(s)
    ensures Inv(DoReleaseDone(s, t)) && Forward(s, DoReleaseDone(s, t))
  {
  }

  lemma SettleKeepsTask(s: State, t: TaskId, fate: Fate, u: TaskId)
    requires t in s.tasks && !Running(s.tasks[t].phase) && s.tasks[t].waiting
    requires TaskOk(s, t) && u in s.tasks && TaskOk(s, u)
    ensures TaskOk(Settle(s, t, fate), u)
  {
  }

  lemma SettleKeepsFate(s: State, t: TaskId, fate: Fate, h: Handle)
    requires t in s.tasks && !Running(s.tasks[t].phase) && s.tasks[t].waiting
    requires TaskOk(s, t) && h in s.fate && FateOk(s, h) && !fate.Pending?
    ensures FateOk(Settle(s, t, fate), h)
  {
  }

  lemma SettleKeepsEntries(s: State, t: TaskId, fate: Fate)
    requires t in s.tasks && !Running(s.tasks[t].phase) && s.tasks[t].waiting
    requires TaskOk(s, t) && AllEntries(s)
    ensures AllEntries(Settle(s, t, fate))
  {
  }

  lemma SettleKeeps(s: State, t: TaskId, fate: Fate)
    requires Inv(s) && t in s.tasks && !Running(s.tasks[t].phase) && s.tasks[t].waiting && !fate.Pending?
    ensures Inv(Settle(s, t, fate))
  {
    forall u | u in s.tasks
      ensures TaskOk(Settle(s, t, fate), u)
    {
      SettleKeepsTask(s, t, fate, u);
    }
    forall h | h in s.fate
      ensures FateOk(Settle(s, t, fate), h)
    {
      SettleKeepsFate(s, t, fate, h);
    }
    SettleKeepsEntries(s, t, fate);
    assert forall p :: p in s.prompts ==> PromptOk(s, p) && PromptOk(Settle(s, t, fate), p);
  }

  lemma SettleForward(s: State, t: TaskId, fate: Fate)
    requires t in s.tasks && !Running(s.tasks[t].phase) && fate != Published
    ensures Forward(s, Settle(s, t, fate))
  {
  }

  lemma PublishKeeps(s: State, t: TaskId)
    requires Inv(s) && t in s.tasks && s.tasks[t].waiting && s.tasks[t].phase.Returned?
    requires !s.closing && s.tasks[t].phase.h.sessionId !in s.entries
    ensures Inv(Enter(Settle(s, t, Published), s.tasks[t].phase.h))
  {
    SettleKeeps(s, t, Published);
    assert TaskOk(s, t);
  }

  lemma RpcResumesKeeps(s: State, t: TaskId)
    requires Inv(s)
    ensures Inv(DoRpcResumes(s, t)) && Forward(s, DoRpcResumes(s, t))
  {
    if t in s.tasks && !Running(s.tasks[t].phase) && s.tasks[t].waiting {
      if s.tasks[t].phase.Failed? || s.closing {
        SettleKeeps(s, t, Closed);
        SettleForward(s, t, Closed);
      } else if s.tasks[t].phase.h.sessionId in s.entries {
        SettleKeeps(s, t, Lost);
      } else {
        PublishKeeps(s, t);
      }
    }
  }

  lemma RpcCancelledKeeps(s: State, t: TaskId)
    requires Inv(s)
    ensures Inv(DoRpcCancelled(s, t)) && Forward(s, DoRpcCancelled(s, t))
  {
    if t in s.tasks && s.tasks[t].waiting {
      if Running(s.tasks[t].phase) {
        CancelRequestKeeps(s, t);
      } else {
        SettleKeeps(s, t, Lost);
        SettleForward(s, t, Lost);
      }
    }
  }

  lemma CancelRequestKeeps(s: State, t: TaskId)
    requires Inv(s)
    ensures Inv(s.(cancelled := s.cancelled + {t}))
  {
  }

  lemma PromptStartsKeeps(s: State, p: int, sid: SessionId)
    requires Inv(s)
    ensures Inv(DoPromptStarts(s, p, sid)) && Forward(s, DoPromptStarts(s, p, sid))
  {
  }

  lemma TurnDoneKeeps(s: State, p: int)
    requires Inv(s)
    ensures Inv(DoTurnDone(s, p)) && Forward(s, DoTurnDone(s, p))
  {
  }

  lemma PromptEndsKeeps(s: State, p: int)
    requires Inv(s)
    ensures Inv(DoPromptEnds(s, p)) && Forward(s, DoPromptEnds(s, p))
  {
  }

  lemma PromptAbandonedKeeps(s: State, p: int)
    requires Inv(s)
    ensures Inv(DoPromptAbandoned(s, p)) && Forward(s, DoPromptAbandoned(s, p))
  {
  }

  lemma CancelSessionKeeps(s: State, sid: SessionId)
    requires Inv(s)
    ensures Inv(DoCancelSession(s, sid)) && Forward(s, DoCancelSession(s, sid))
  {
  }

  lemma AcloseBeginsKeeps(s: State, c: int)
    requires Inv(s)
    ensures Inv(DoAcloseBegins(s, c)) && Forward(s, DoAcloseBegins(s, c))
  {
    var s' := DoAcloseBegins(s, c);
    forall t | t in s.tasks
      ensures TaskOk(s', t)
    {
      AcloseBeginsTask(s, c, t);
    }
    forall p | p in s.prompts
      ensures PromptOk(s', p)
    {
      AcloseBeginsPrompt(s, c, p);
    }
    AcloseBeginsRest(s, c);
  }

  lemma AcloseBeginsPrompt(s: State, c: int, p: int)
    requires p in s.prompts && PromptOk(s, p)
    ensures PromptOk(DoAcloseBegins(s, c), p)
  {
  }

  lemma AcloseBeginsRest(s: State, c: int)
    requires GateOk(s) && AllFates(s) && AllEntries(s)
    ensures var s' := DoAcloseBegins(s, c); GateOk(s') && AllFates(s') && AllEntries(s') && Forward(s, s')
  {
  }

  lemma AcloseBeginsTask(s: State, c: int, t: TaskId)
    requires t in s.tasks && TaskOk(s, t)
    ensures TaskOk(DoAcloseBegins(s, c), t)
  {
  }

  lemma AcloseCollectsKeeps(s: State, c: int)
    requires Inv(s)
    ensures Inv(DoAcloseCollects(s, c)) && Forward(s, DoAcloseCollects(s, c))
  {
  }

  lemma AcloseAbortedKeeps(s: State, c: int)
    requires Inv(s)
    ensures Inv(DoAcloseAborted(s, c)) && Forward(s, DoAcloseAborted(s, c))
  {
  }

  lemma AcloseEndsKeeps(s: State, c: int)
    requires Inv(s)
    ensures Inv(DoAcloseEnds(s, c)) && Forward(s, DoAcloseEnds(s, c))
  {
  }

  lemma OperationKeeps(s: State, step: Step)
    requires Inv(s) && OfOperation(step)
    ensures Inv(DoOperation(s, step)) && Forward(s, DoOperation(s, step))
  {
    match step {
      case NewSession(t) => NewSessionKeeps(s, t);
      case LoadSession(t, sid) => LoadSessionKeeps(s, t, sid);
      case BackendReturns(t, h) => BackendReturnsKeeps(s, t, h);
      case ReplayDone(t) => ReplayDoneKeeps(s, t);
      case OpenFails(t) => OpenFailsKeeps(s, t);
      case ReplayDies(t) => ReplayDiesKeeps(s, t);
      case ReleaseDone(t) => ReleaseDoneKeeps(s, t);
      case RpcResumes(t) => RpcResumesKeeps(s, t);
      case RpcCancelled(t) => RpcCancelledKeeps(s, t);
    }
  }

  lemma PromptKeeps(s: State, step: Step)
    requires Inv(s) && OfPrompt(step)
    ensures Inv(DoPrompt(s, step)) && Forward(s, DoPrompt(s, step))
  {
    match step {
      case PromptStarts(p, sid) => PromptStartsKeeps(s, p, sid);
      case TurnDone(p) => TurnDoneKeeps(s, p);
      case PromptEnds(p) => PromptEndsKeeps(s, p);
      case PromptAbandoned(p) => PromptAbandonedKeeps(s, p);
    }
  }

  lemma CloseKeeps(s: State, step: Step)
    requires Inv(s) && !OfOperation(step) && !OfPrompt(step)
    ensures Inv(DoClose(s, step)) && Forward(s, DoClose(s, step))
  {
    match step {
      case CancelSession(sid) => CancelSessionKeeps(s, sid);
      case AcloseBegins(c) => AcloseBeginsKeeps(s, c);
      case AcloseCollects(c) => AcloseCollectsKeeps(s, c);
      case AcloseEnds(c) => AcloseEndsKeeps(s, c);
      case AcloseAborted(c) => AcloseAbortedKeeps(s, c);
    }
  }

  lemma StepKeepsInv(s: State, step: Step)
    requires Inv(s)
    ensures Inv(Do(s, step)) && Forward(s, Do(s, step))
  {
    if OfOperation(step) {
      OperationKeeps(s, step);
    } else if OfPrompt(step) {
      PromptKeeps(s, step);
    } else {
      CloseKeeps(s, step);
    }
  }

  // ---- Whole runs ----

  lemma {:induction false} RunKeepsInv(s: State, steps: seq<Step>)
    requires Inv(s)
    ensures Inv(Run(s, steps))
    decreases |steps|
  {
    if steps != [] {
      StepKeepsInv(s, steps[0]);
      RunKeepsInv(Do(s, steps[0]), steps[1..]);
    }
  }

  lemma ReachableInv(steps: seq<Step>)
    ensures Inv(Run(INITIAL, steps))
  {
    RunKeepsInv(INITIAL, steps);
  }

  /** Once the closing gate is set no session is registered, no handle published
      and no operation started, whatever steps follow. */
  lemma {:induction false} NothingPublishedAfterGate(s: State, steps: seq<Step>)
    requires Inv(s) && s.closing
    ensures Run(s, steps).closing && NothingNew(s, Run(s, steps))
    decreases |steps|
  {
    if steps != [] {
      StepKeepsInv(s, steps[0]);
      NothingPublishedAfterGate(Do(s, steps[0]), steps[1..]);
    }
  }

  /** A turn that runs although its RPC is gone. */
  predicate Orphan(s: State, p: int) {
    p in s.prompts && !s.prompts[p].done && !s.prompts[p].waiting
  }

  ghost predicate AllTurnsDone(s: State) {
    forall p :: p in s.prompts ==> s.prompts[p].done
  }

  /** When aclose completes no operation runs any more, and no turn either if and
      only if no abandoned turn is still running then. */
  lemma AcloseDrains(s: State, c: int)
    requires Inv(s) && c in s.closers && CloserDone(s, s.closers[c])
    ensures var s' := Do(s, AcloseEnds(c));
      && s'.ended
      && (forall t :: t in s'.tasks ==> !Running(s'.tasks[t].phase))
      && (AllTurnsDone(s') <==> forall p :: !Orphan(s, p))
  {
    var s' := Do(s, AcloseEnds(c));
    forall t | t in s.tasks
      ensures !Running(s.tasks[t].phase)
    {
      assert TaskOk(s, t);
    }
    forall p | p in s.prompts
      ensures s.prompts[p].done || Orphan(s, p)
    {
      assert PromptOk(s, p);
    }
    assert s'.prompts == s.prompts;
  }

  /** After an aclose has completed both registries stay empty. */
  lemma {:induction false} EmptyAfterAclose(s: State, steps: seq<Step>)
    requires Inv(s) && s.ended
    ensures Run(s, steps).ended
    ensures Run(s, steps).entries == map[] && Run(s, steps).operations == map[]
    decreases |steps|
  {
    if steps != [] {
      StepKeepsInv(s, steps[0]);
      EmptyAfterAclose(Do(s, steps[0]), steps[1..]);
    } else {
      assert forall sid :: sid in s.entries ==> EntryOk(s, sid);
    }
  }

  /** Every handle the backend returned is published, closed or lost, or is still
      in the hands of an operation its RPC awaits. */
  lemma HandlesAccountedFor(steps: seq<Step>, h: Handle)
    requires h in Run(INITIAL, steps).fate
    ensures var s := Run(INITIAL, steps);
      s.fate[h] in {Published, Closed, Lost} || exists t :: t in s.tasks && s.tasks[t].waiting && Holds(s.tasks[t], h)
  {
    ReachableInv(steps);
    var s := Run(INITIAL, steps);
    assert FateOk(s, h);
    if s.fate[h].Pending? {
      assert TaskOk(s, s.fate[h].t);
    }
  }

  /** The steps that drop a handle: registering under a session id already taken,
      and cancelling the RPC after its operation is done. */
  predicate Drops(s: State, step: Step) {
    match step
    case RpcResumes(t) =>
      && t in s.tasks && s.tasks[t].waiting && s.tasks[t].phase.Returned?
      && !s.closing && s.tasks[t].phase.h.sessionId in s.entries
    case RpcCancelled(t) =>
      t in s.tasks && s.tasks[t].waiting && s.tasks[t].phase.Returned?
    case _ => false
  }

  ghost predicate SomeLost(s: State) {
    exists h :: h in s.fate && s.fate[h] == Lost
  }

  lemma SettleLoses(s: State, t: TaskId, fate: Fate)
    requires Inv(s) && t in s.tasks && !Running(s.tasks[t].phase) && s.tasks[t].waiting
    ensures SomeLost(Settle(s, t, fate)) <==> SomeLost(s) || (s.tasks[t].phase.Returned? && fate == Lost)
  {
    assert TaskOk(s, t);
    var s' := Settle(s, t, fate);
    if h :| h in s.fate && s.fate[h] == Lost {
      assert s'.fate[h] == Lost;
    }
    if s.tasks[t].phase.Returned? && fate == Lost {
      assert s'.fate[s.tasks[t].phase.h] == Lost;
    }
  }

  lemma DiesLoses(s: State, t: TaskId)
    requires t in s.tasks ==> TaskOk(s, t)
    ensures SomeLost(DoReplayDies(s, t)) <==> SomeLost(s)
  {
    var s' := DoReplayDies(s, t);
    if h :| h in s.fate && s.fate[h] == Lost {
      assert s'.fate[h] == Lost;
    }
  }

  lemma ReturnsLoses(s: State, t: TaskId, h: Handle)
    ensures SomeLost(DoBackendReturns(s, t, h)) <==> SomeLost(s)
  {
    var s' := DoBackendReturns(s, t, h);
    if g :| g in s.fate && s.fate[g] == Lost {
      assert s'.fate[g] == Lost;
    }
  }

  lemma FateStays(s: State, step: Step)
    requires !step.BackendReturns? && !step.ReplayDies? && !step.RpcResumes? && !step.RpcCancelled?
    ensures Do(s, step).fate == s.fate
  {
  }

  lemma StepLoses(s: State, step: Step)
    requires Inv(s)
    ensures SomeLost(Do(s, step)) <==> SomeLost(s) || Drops(s, step)
  {
    match step {
      case BackendReturns(t, h) => ReturnsLoses(s, t, h);
      case ReplayDies(t) =>
        assert t in s.tasks ==> TaskOk(s, t);
        DiesLoses(s, t);
      case RpcResumes(t) =>
        if t in s.tasks && !Running(s.tasks[t].phase) && s.tasks[t].waiting {
          SettleLoses(s, t, Closed);
          SettleLoses(s, t, Lost);
          SettleLoses(s, t, Published);
        }
      case RpcCancelled(t) =>
        if t in s.tasks && !Running(s.tasks[t].phase) && s.tasks[t].waiting {
          SettleLoses(s, t, Lost);
        }
      case _ => FateStays(s, step);
    }
  }

  ghost predicate DropsAlong(s: State, steps: seq<Step>)
    decreases |steps|
  {
    steps != [] && (Drops(s, steps[0]) || DropsAlong(Do(s, steps[0]), steps[1..]))
  }

  /** A run loses a handle exactly when one of its steps drops one. */
  lemma {:induction false} LostExactly(s: State, steps: seq<Step>)
    requires Inv(s)
    ensures SomeLost(Run(s, steps)) <==> SomeLost(s) || DropsAlong(s, steps)
    decreases |steps|
  {
    if steps != [] {
      StepLoses(s, steps[0]);
      StepKeepsInv(s, steps[0]);
      LostExactly(Do(s, steps[0]), steps[1..]);
    }
  }

  /** The assumptions on the world: the backend never returns a session id that a
      handle not yet closed already has, and RPC tasks awaiting a finished
      operation are not cancelled. */
  ghost predicate Assumed(s: State, step: Step) {
    match step
    case BackendReturns(t, h) => forall g :: g in s.fate && s.fate[g] != Closed ==> g.sessionId != h.sessionId
    case RpcCancelled(t) => t in s.tasks ==> Running(s.tasks[t].phase)
    case _ => true
  }

  ghost predicate AssumedAlong(s: State, steps: seq<Step>)
    decreases |steps|
  {
    steps == [] || (Assumed(s, steps[0]) && AssumedAlong(Do(s, steps[0]), steps[1..]))
  }

  predicate Unclosed(s: State, h: Handle) {
    h in s.fate && s.fate[h] != Closed
  }

  ghost predicate DistinctLive(s: State) {
    forall g, h :: Unclosed(s, g) && Unclosed(s, h) && g.sessionId == h.sessionId ==> g == h
  }

  lemma DiesDistinct(s: State, t: TaskId)
    requires DistinctLive(s) && (t in s.tasks ==> TaskOk(s, t))
    ensures DistinctLive(DoReplayDies(s, t))
  {
  }

  lemma SettleDistinct(s: State, t: TaskId, fate: Fate)
    requires DistinctLive(s) && t in s.tasks && !Running(s.tasks[t].phase) && s.tasks[t].waiting && TaskOk(s, t)
    ensures DistinctLive(Settle(s, t, fate))
  {
  }

  lemma NoCollision(s: State, t: TaskId)
    requires Inv(s) && DistinctLive(s) && t in s.tasks && s.tasks[t].waiting && s.tasks[t].phase.Returned?
    ensures s.tasks[t].phase.h.sessionId !in s.entries
  {
    assert TaskOk(s, t);
    assert s.tasks[t].phase.h.sessionId in s.entries ==> EntryOk(s, s.tasks[t].phase.h.sessionId);
  }

  lemma StepKeepsDistinct(s: State, step: Step)
    requires Inv(s) && DistinctLive(s) && Assumed(s, step)
    ensures DistinctLive(Do(s, step)) && !Drops(s, step)
  {
    match step {
      case BackendReturns(t, h) =>
        assert DistinctLive(DoBackendReturns(s, t, h));
      case ReplayDies(t) =>
        assert t in s.tasks ==> TaskOk(s, t);
        DiesDistinct(s, t);
      case RpcResumes(t) =>
        if t in s.tasks && !Running(s.tasks[t].phase) && s.tasks[t].waiting {
          assert TaskOk(s, t);
          SettleDistinct(s, t, Closed);
          SettleDistinct(s, t, Published);
          if s.tasks[t].phase.Returned? {
            NoCollision(s, t);
          }
        }
      case RpcCancelled(t) =>
      case _ => FateStays(s, step);
    }
  }

  lemma {:induction false} NothingDropped(s: State, steps: seq<Step>)
    requires Inv(s) && DistinctLive(s) && AssumedAlong(s, steps)
    ensures !DropsAlong(s, steps)
    decreases |steps|
  {
    if steps != [] {
      StepKeepsDistinct(s, steps[0]);
      StepKeepsInv(s, steps[0]);
      NothingDropped(Do(s, steps[0]), steps[1..]);
    }
  }

  /** Under the assumptions, when no RPC awaits an operation any more, every handle
      the backend ever returned was published or closed. */
  lemma EveryHandleSettled(steps: seq<Step>, h: Handle)
    requires AssumedAlong(INITIAL, steps)
    requires h in Run(INITIAL, steps).fate
    requires forall t :: t in Run(INITIAL, steps).tasks ==> !Run(INITIAL, steps).tasks[t].waiting
    ensures Run(INITIAL, steps).fate[h] in {Published, Closed}
  {
    HandlesAccountedFor(steps, h);
    NothingDropped(INITIAL, steps);
    LostExactly(INITIAL, steps);
  }

  // ---- The busy gate and the drain ----

  predicate Live(s: State, p: int) {
    p in s.prompts && !s.prompts[p].done
  }

  /** A handle sees at most one turn at a time. */
  ghost predicate OnePerHandle(s: State) {
    forall p, q :: Live(s, p) && Live(s, q) && s.prompts[p].h == s.prompts[q].h ==> p == q
  }

  predicate Starts(s: State, step: Step) {
    && step.PromptStarts? && step.p !in s.prompts && !s.closing
    && step.sid in s.entries && s.entries[step.sid] !in s.turns
  }

  /** A prompt starts on a handle that still runs an abandoned turn. */
  ghost predicate Overlaps(s: State, step: Step) {
    Starts(s, step) && exists q :: Orphan(s, q) && s.prompts[q].h == s.entries[step.sid]
  }

  lemma StartsOnePerHandle(s: State, p: int, sid: SessionId)
    requires Inv(s) && OnePerHandle(s)
    ensures OnePerHandle(DoPromptStarts(s, p, sid)) <==> !Overlaps(s, PromptStarts(p, sid))
  {
    var s' := DoPromptStarts(s, p, sid);
    if Starts(s, PromptStarts(p, sid)) {
      var h := s.entries[sid];
      assert Live(s', p) && s'.prompts[p].h == h;
      assert forall q :: q in s.prompts ==> s'.prompts[q] == s.prompts[q];
      if q :| Orphan(s, q) && s.prompts[q].h == h {
        assert Live(s', q) && q != p;
      } else {
        forall q | Live(s, q)
          ensures s.prompts[q].h != h
        {
          assert PromptOk(s, q);
        }
      }
    }
  }

  lemma StepOnePerHandle(s: State, step: Step)
    requires Inv(s) && OnePerHandle(s)
    ensures OnePerHandle(Do(s, step)) <==> !Overlaps(s, step)
  {
    if step.PromptStarts? {
      StartsOnePerHandle(s, step.p, step.sid);
    } else {
      var s' := Do(s, step);
      forall p | Live(s', p)
        ensures Live(s, p) && s.prompts[p].h == s'.prompts[p].h
      {
        NoTurnRevived(s, step, p);
      }
    }
  }

  lemma NoTurnRevived(s: State, step: Step, p: int)
    requires !step.PromptStarts? && Live(Do(s, step), p)
    ensures Live(s, p) && s.prompts[p].h == Do(s, step).prompts[p].h
  {
    if OfOperation(step) {
      OperationKeepsPrompts(s, step);
    } else if OfPrompt(step) {
      PromptNotRevived(s, step, p);
    } else {
      CloseKeepsPrompts(s, step);
    }
  }

  lemma PromptNotRevived(s: State, step: Step, p: int)
    requires OfPrompt(step) && !step.PromptStarts? && Live(DoPrompt(s, step), p)
    ensures Live(s, p) && s.prompts[p].h == DoPrompt(s, step).prompts[p].h
  {
  }

  lemma RpcKeepsPrompts(s: State, t: TaskId)
    ensures DoRpcResumes(s, t).prompts == s.prompts && DoRpcCancelled(s, t).prompts == s.prompts
  {
  }

  lemma OperationKeepsPrompts(s: State, step: Step)
    requires OfOperation(step)
    ensures DoOperation(s, step).prompts == s.prompts
  {
    match step {
      case NewSession(t) => assert DoNewSession(s, t).prompts == s.prompts;
      case LoadSession(t, sid) => assert DoLoadSession(s, t, sid).prompts == s.prompts;
      case BackendReturns(t, h) => assert DoBackendReturns(s, t, h).prompts == s.prompts;
      case ReplayDone(t) => assert DoReplayDone(s, t).prompts == s.prompts;
      case OpenFails(t) => assert DoOpenFails(s, t).prompts == s.prompts;
      case ReplayDies(t) => assert DoReplayDies(s, t).prompts == s.prompts;
      case ReleaseDone(t) => assert DoReleaseDone(s, t).prompts == s.prompts;
      case RpcResumes(t) => RpcKeepsPrompts(s, t);
      case RpcCancelled(t) => RpcKeepsPrompts(s, t);
    }
  }

  lemma CloseKeepsPrompts(s: State, step: Step)
    requires !OfOperation(step) && !OfPrompt(step)
    ensures DoClose(s, step).prompts == s.prompts
  {
  }

  ghost predicate OnePerHandleAlong(s: State, steps: seq<Step>)
    decreases |steps|
  {
    OnePerHandle(s) && (steps == [] || OnePerHandleAlong(Do(s, steps[0]), steps[1..]))
  }

  ghost predicate OverlapsAlong(s: State, steps: seq<Step>)
    decreases |steps|
  {
    steps != [] && (Overlaps(s, steps[0]) || OverlapsAlong(Do(s, steps[0]), steps[1..]))
  }

  /** On every run each handle sees at most one turn at a time if and only if no
      prompt ever starts on a handle that still runs an abandoned turn. */
  lemma {:induction false} BusyGate(s: State, steps: seq<Step>)
    requires Inv(s) && OnePerHandle(s)
    ensures OnePerHandleAlong(s, steps) <==> !OverlapsAlong(s, steps)
    decreases |steps|
  {
    if steps != [] {
      StepKeepsInv(s, steps[0]);
      StepOnePerHandle(s, steps[0]);
      if OnePerHandle(Do(s, steps[0])) {
        BusyGate(Do(s, steps[0]), steps[1..]);
      }
    }
  }

  predicate Completes(s: State, step: Step) {
    step.AcloseEnds? && step.c in s.closers && CloserDone(s, s.closers[step.c])
  }

  /** Every aclose of the run that completes leaves no turn running. */
  ghost predicate DrainsAlong(s: State, steps: seq<Step>)
    decreases |steps|
  {
    steps != [] ==>
      && (Completes(s, steps[0]) ==> AllTurnsDone(Do(s, steps[0])))
      && DrainsAlong(Do(s, steps[0]), steps[1..])
  }

  /** An abandoned turn is still running when some aclose of the run completes. */
  ghost predicate OutlivesAlong(s: State, steps: seq<Step>)
    decreases |steps|
  {
    steps != [] &&
      ((Completes(s, steps[0]) && exists p :: Orphan(s, p)) || OutlivesAlong(Do(s, steps[0]), steps[1..]))
  }

  /** On every run aclose drains every turn if and only if no abandoned turn is still
      running when it completes. */
  lemma {:induction false} DrainExact(s: State, steps: seq<Step>)
    requires Inv(s)
    ensures DrainsAlong(s, steps) <==> !OutlivesAlong(s, steps)
    decreases |steps|
  {
    if steps != [] {
      if Completes(s, steps[0]) {
        AcloseDrains(s, steps[0].c);
      }
      StepKeepsInv(s, steps[0]);
      DrainExact(Do(s, steps[0]), steps[1..]);
    }
  }

  /** Both promises hold on every run in which no RPC is unwound by a failing cancel. */
  lemma {:induction false} NoTurnAbandoned(s: State, steps: seq<Step>)
    requires Inv(s) && (forall p :: !Orphan(s, p)) && forall step :: step in steps ==> !step.PromptAbandoned?
    ensures !OverlapsAlong(s, steps) && !OutlivesAlong(s, steps)
    decreases |steps|
  {
    if steps != [] {
      var s' := Do(s, steps[0]);
      assert steps[0] in steps;
      forall p
        ensures !Orphan(s', p)
      {
        NoOrphanMade(s, steps[0], p);
      }
      StepKeepsInv(s, steps[0]);
      NoTurnAbandoned(s', steps[1..]);
    }
  }

  lemma NoOrphanMade(s: State, step: Step, p: int)
    requires !step.PromptAbandoned? && !Orphan(s, p)
    ensures !Orphan(Do(s, step), p)
  {
    if OfOperation(step) {
      OperationKeepsPrompts(s, step);
    } else if !OfPrompt(step) {
      CloseKeepsPrompts(s, step);
    }
  }

  // One session is opened.
  function OpenSteps(t: TaskId, h: Handle): seq<Step> {
    [NewSession(t), BackendReturns(t, h), RpcResumes(t)]
  }

  // One session is opened, and its first prompt abandoned.
  function Abandoning(h: Handle): seq<Step> {
    OpenSteps(0, h) + [PromptStarts(0, h.sessionId), PromptAbandoned(0)]
  }

  lemma AbandoningEffect(h: Handle)
    ensures var s := Run(INITIAL, Abandoning(h));
      && s.entries == map[h.sessionId := h] && s.turns == map[] && !s.closing && s.closers == map[]
      && s.prompts == map[0 := Prompt(h, false, false)] && s.openings == {} && s.operations == map[]
  {
    var open, rest := OpenSteps(0, h), [PromptStarts(0, h.sessionId), PromptAbandoned(0)];
    RunSplit(INITIAL, open + rest, 3);
    assert (open + rest)[..3] == open && (open + rest)[3..] == rest;
    FirstOpened(h);
    TwoSteps(Run(INITIAL, open), rest[0], rest[1]);
    FirstPromptAbandoned(Run(INITIAL, open), h);
  }

  lemma FirstOpened(h: Handle)
    ensures var s := Run(INITIAL, OpenSteps(0, h));
      && s.entries == map[h.sessionId := h] && s.turns == map[] && !s.closing && s.closers == map[]
      && s.prompts == map[] && s.openings == {} && s.operations == map[]
  {
    OpenOne(INITIAL, 0, h);
  }

  lemma FirstPromptAbandoned(s: State, h: Handle)
    requires s.entries == map[h.sessionId := h] && s.prompts == map[] && s.turns == map[] && !s.closing
    ensures var s' := DoPromptAbandoned(DoPromptStarts(s, 0, h.sessionId), 0);
      && s' == s.(turns := map[], prompts := map[0 := Prompt(h, false, false)])
  {
    var s' := DoPromptStarts(s, 0, h.sessionId);
    assert s'.prompts == map[0 := Prompt(h, false, true)];
    assert s'.turns == map[h := 0];
  }

  lemma TwoSteps(s: State, a: Step, b: Step)
    ensures Run(s, [a, b]) == Do(Do(s, a), b)
  {
    assert [a, b][1..] == [b] && [b][1..] == [];
    assert Run(Do(s, a), [b]) == Do(Do(s, a), b);
  }

  /** The gate is not unconditional: after an abandoned prompt the next one starts a
      second turn on the same handle. */
  lemma TwoTurnsOnOneHandle(h: Handle)
    ensures var s := Do(Run(INITIAL, Abandoning(h)), PromptStarts(1, h.sessionId));
      && Live(s, 0) && Live(s, 1) && s.prompts[0].h == s.prompts[1].h == h && !OnePerHandle(s)
  {
    AbandoningEffect(h);
  }

  /** Nor is the drain: aclose completes while the abandoned turn still runs. */
  lemma TurnOutlivesAclose(h: Handle)
    ensures var s := Do(Do(Do(Run(INITIAL, Abandoning(h)), AcloseBegins(0)), AcloseCollects(0)), AcloseEnds(0));
      s.ended && Live(s, 0)
  {
    AbandoningEffect(h);
    ClosesAround(Run(INITIAL, Abandoning(h)));
  }

  lemma ClosesAround(s: State)
    requires s.turns == map[] && s.operations == map[] && s.openings == {} && s.closers == map[]
    ensures var s' := Do(Do(Do(s, AcloseBegins(0)), AcloseCollects(0)), AcloseEnds(0));
      s'.ended && s'.prompts == s.prompts
  {
    var s1 := DoAcloseBegins(s, 0);
    assert s1.closers[0].operations == {};
    var s2 := DoAcloseCollects(s1, 0);
    assert CloserDone(s2, s2.closers[0]);
  }

  /** Without the first assumption a handle can be lost: after a session is open, a
      second open that returns its session id again loses the new handle. */
  lemma CollisionLosesHandle(a: Handle, b: Handle)
    requires a != b && a.sessionId == b.sessionId
    ensures var s := Run(INITIAL, OpenSteps(0, a) + OpenSteps(1, b));
      b in s.fate && s.fate[b] == Lost
  {
    var first, second := OpenSteps(0, a), OpenSteps(1, b);
    RunSplit(INITIAL, first + second, 3);
    assert (first + second)[..3] == first && (first + second)[3..] == second;
    OpenOne(INITIAL, 0, a);
    OpenOne(Run(INITIAL, first), 1, b);
  }

  lemma OpenOne(s: State, t: TaskId, h: Handle)
    requires t !in s.tasks && !s.closing && h !in s.fate
    ensures var s' := Run(s, OpenSteps(t, h));
      && !s'.closing && (forall u :: u in s'.tasks ==> u in s.tasks || u == t)
      && h in s'.fate && (forall g :: g in s'.fate ==> g in s.fate || g == h)
      && s'.fate[h] == (if h.sessionId in s.entries then Lost else Published)
      && (h.sessionId !in s.entries ==> s'.entries == s.entries[h.sessionId := h])
      && s'.prompts == s.prompts && s'.turns == s.turns && s'.closers == s.closers
      && s'.openings == s.openings - {t} && s'.operations == s.operations
  {
    ThreeSteps(s, NewSession(t), BackendReturns(t, h), RpcResumes(t));
    OpenOneEffect(s, t, h);
  }

  lemma OpenOneEffect(s: State, t: TaskId, h: Handle)
    requires t !in s.tasks && !s.closing && h !in s.fate
    ensures var s' := DoRpcResumes(DoBackendReturns(DoNewSession(s, t), t, h), t);
      && !s'.closing && (forall u :: u in s'.tasks ==> u in s.tasks || u == t)
      && h in s'.fate && (forall g :: g in s'.fate ==> g in s.fate || g == h)
      && s'.fate[h] == (if h.sessionId in s.entries then Lost else Published)
      && (h.sessionId !in s.entries ==> s'.entries == s.entries[h.sessionId := h])
      && s'.prompts == s.prompts && s'.turns == s.turns && s'.closers == s.closers
      && s'.openings == s.openings - {t} && s'.operations == s.operations
  {
    OpenedEffect(s, t, h);
    ResumedEffect(DoBackendReturns(DoNewSession(s, t), t, h), t, h);
    ResumedFrame(DoBackendReturns(DoNewSession(s, t), t, h), t, h);
  }

  lemma OpenedEffect(s: State, t: TaskId, h: Handle)
    requires t !in s.tasks && !s.closing && h !in s.fate
    ensures var s' := DoBackendReturns(DoNewSession(s, t), t, h);
      && s'.tasks == s.tasks[t := Task(New, Returned(h), true)] && !s'.closing
      && s'.fate == s.fate[h := Pending(t)] && s'.entries == s.entries
      && s'.prompts == s.prompts && s'.turns == s.turns && s'.closers == s.closers
      && s'.openings == s.openings + {t} && s'.operations == s.operations
  {
  }

  lemma ResumedEffect(s: State, t: TaskId, h: Handle)
    requires t in s.tasks && s.tasks[t] == Task(New, Returned(h), true) && !s.closing && h in s.fate
    ensures var s' := DoRpcResumes(s, t);
      && !s'.closing && s'.tasks.Keys == s.tasks.Keys && s'.fate.Keys == s.fate.Keys
      && s'.fate[h] == (if h.sessionId in s.entries then Lost else Published)
      && (h.sessionId !in s.entries ==> s'.entries == s.entries[h.sessionId := h])
  {
    var fate := if h.sessionId in s.entries then Lost else Published;
    assert Settle(s, t, fate).fate == s.fate[h := fate];
  }

  lemma ResumedFrame(s: State, t: TaskId, h: Handle)
    requires t in s.tasks && s.tasks[t] == Task(New, Returned(h), true) && !s.closing
    ensures var s' := DoRpcResumes(s, t);
      && s'.prompts == s.prompts && s'.turns == s.turns && s'.closers == s.closers
      && s'.openings == s.openings - {t} && s'.operations == s.operations
  {
  }

  lemma ThreeSteps(s: State, a: Step, b: Step, c: Step)
    ensures Run(s, [a, b, c]) == Do(Do(Do(s, a), b), c)
  {
    assert [a, b, c][1..] == [b, c] && [b, c][1..] == [c] && [c][1..] == [];
    assert Run(Do(s, a), [b, c]) == Run(Do(Do(s, a), b), [c]);
  }

  lemma {:induction false} RunSplit(s: State, steps: seq<Step>, n: nat)
    requires n <= |steps|
    ensures Run(s, steps) == Run(Run(s, steps[..n]), steps[n..])
    decreases n
  {
    if n > 0 {
      RunSplit(Do(s, steps[0]), steps[1..], n - 1);
      assert steps[..n][1..] == steps[1..][..n - 1] && steps[n..] == steps[1..][n - 1..];
    } else {
      assert steps[n..] == steps;
    }
  }
}
