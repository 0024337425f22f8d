# modex: models and proofs

A Dafny model of the state machines, graph algorithms and budget rules of modex, with
their central properties proved. One module per component; every method is proved
against a specification, and the lemmas say what the specification promises.

- **Graph compilation.** `Walks` (reachability and the two breadth-first searches),
  `LongestPath` (backtracking depth search), `TopologyValidator`, `CycleDetection`
  (three-colour search), `GraphBuilder` and `SpecCompiler`, where the two independently
  written checkers meet: what the validator accepts, the builder compiles.
- **Context budgeting.** `ContextGovernance` (clearing old tool results) and `Cleanup`
  (splitting a session into a kept tail and a pruned head), over the messages of `Messages`.
- **Node runs.** `NodeLedger` (invocation rows and the deliver ledger), `NodeRun` (one run,
  with other parties acting while it is awaited), `RunInterleavings` (the runs of all nodes,
  interleaved in atomic steps, with endings cut short and recovery) and `RunTheorems` (what
  holds over every interleaving).
- **Protocols and allocators.** `Snowflake` (with `Bits`), `ControlChannel`, `AcpServer`,
  `AcpGates`, `StreamBridge`, `MediaStore`, `TokenUsage`, `RecoveryScanner`, `Base58`.

Code that updates objects is modelled by classes and loops. Asynchronous code is modelled
as atomic steps between awaits; the ACP server and the interleaved node runs are explicit
transition functions whose runs are all interleavings. Clocks, token estimators, foreign
stores, the outcomes of awaited calls, and what other parties do meanwhile are parameters,
and the theorems hold for all of them.

## Where the code and its documentation differ

The model follows the code. Where a difference bears on a result, the member named states it.

- *Depth check* (`src/modex_graph/topology_validator.py:253-299`). A START→END edge together
  with an END→END edge is reported as a path of 2 edges, though the longest simple path has 1,
  so a cap of 1 refuses it (`TopologyValidator.WronglyRefused`); that is the only way the depth
  check can be wrong once the reachability checks have passed
  (`TopologyValidator.DepthCheckExact`). A lone START→END edge gives 1, though the docstring
  promises at least 2 (`TopologyValidator.AtLeastTwo` has the exact condition).
- *Cycle detection* (`src/modex_graph/graph.py:137`, `250-256`). Mode "off" is documented to skip
  detection; the search runs (221) and its result is ignored (`GraphBuilder.Graph.Compile`). The
  search is also said to exclude the sentinels, but a cycle through one is found
  (`CycleDetection.SentinelCycleFound`).
- *Placeholder length.* The governance documentation speaks of 35 characters; the text has 33
  (`ContextGovernance.PlaceholderLength`).
- *Chain adjustment* (`src/modex_agent/memory/cleanup.py:805-833`). "The kept region never
  contains a result whose call was pruned" fails on histories where something stands between a
  call and its result (`Cleanup.InterleavedChainIsSplit`). `Cleanup.SplitExact` gives the exact
  class of histories on which it holds for every keep target.
- *The newest message* (`src/modex_agent/memory/cleanup.py:776-780`). "Always retained" fails
  when it is a tool result whose call is in the history: the chain adjustment evicts it too, and
  nothing is kept (`Cleanup.CallAndResultPruned`). `Cleanup.NewestKeptExact`: those are the only
  histories.
- *Snowflake monotonicity* fails when the clock is outside the 41-bit range
  (`Snowflake.NotMonotoneBeforeEpoch`); `Snowflake.GreaterIdExact` is the exact condition.
- *ACP busy gate and drain* (`src/modex_agent/acp/server.py:330-337`,
  `src/modex_agent/acp/backend.py:64-66`). When a prompt is cancelled and the handle's own cancel
  raises, its turn runs on with the gate free: a second turn can start on the handle, and aclose
  does not wait for the first (`AcpServer.TwoTurnsOnOneHandle`, `AcpServer.TurnOutlivesAclose`).
  `AcpServer.BusyGate` and `AcpServer.DrainExact` say exactly when the promises hold.
- *ACP handles.* A handle is dropped unclosed exactly when its session id is already registered,
  or the RPC awaiting it is cancelled after the operation finished (`AcpServer.LostExactly`).
- *Node runs.* A dispatch that fails after completion raises, and the run reports a crash while
  its row stays COMPLETED (`NodeRun.World.Run`), its inputs half consumed. Recovery finishes them
  (`RunTheorems.RecoveryCompletesEnding`); but when the crashed instance is invoked afresh
  instead (`src/modex_agent/orchestration/graph_orchestrator.py:413-428`), nothing is scanned and the
  next run of the node gets them too (`RunTheorems.InputRepeated`).
  `RunTheorems.EachInputOnce` says exactly when an input is given to two completed runs.
  A completed run also publishes what earlier, crashed attempts of the node had staged
  (`RunTheorems.PublishedForever`): at-least-once delivery.
- *Recovery scanner.* Candidates are said to be penalised when "attempted but failed", but
  RUNNING instances are never attempted and still counted: a healthy instance that outlasts the
  budget is marked FAILED (`RecoveryScanner.HealthyRunIsFailed`). For a scan the promise holds
  exactly when it loads no RUNNING instance (`RecoveryScanner.PenaltyMeansAttempt`), and for the
  FAILED marks of a run exactly when no instance RUNNING in one load is a candidate in a full
  budget of them (`RecoveryScanner.FailureMeansAttempts`).
- *Eviction.* With a negative budget everything is evicted and the budget is still not met
  (`MediaStore.BudgetEnforced`).
- *Base58.* The comment about preserving leading zeros is not implemented: a digest with leading
  zero bytes just prints shorter (`Base58.Encode`).

## Model

| member | source | states |
|---|---|---|
| `Walks.Bfs` | src/modex_graph/topology_validator.py:176-186 | the search over a queue that may hold duplicates ends, having visited exactly the nodes reachable from the seeds |
| `Walks.BfsMarkingOnEnqueue` | src/modex_graph/graph.py:327-334 | the reverse search that marks on enqueue visits exactly the registered nodes reachable backwards |
| `Walks.ReverseReaches` | src/modex_graph/topology_validator.py:196-222 | reaching along reversed edges is reaching back along the edges, both ways |
| `LongestPath.PathSearch.Dfs` | src/modex_graph/topology_validator.py:280-294 | each branch leaves the path set as it found it, and the maximum covers every simple extension of the current path and is attained by one |
| `LongestPath.LongestSimplePathToEnd` | src/modex_graph/topology_validator.py:253-299 | the result bounds every simple real path to a terminal node and, unless 1, is attained |
| `TopologyValidator.LongestIsMaximum` | src/modex_graph/topology_validator.py:253-299 | for a real entry the result is the maximum edge count over all simple START-to-END paths, and 1 exactly when there is none |
| `TopologyValidator.EntryReachingEndHasPath` | src/modex_graph/topology_validator.py:269-271 | an entry that reaches END heads a simple path of at least two edges |
| `TopologyValidator.DepthCheckExact` | src/modex_graph/topology_validator.py:230-241 | the depth check means "some simple START-to-END path has more than the cap" for every cap, if and only if it is not the case that START leads to END and END to itself |
| `TopologyValidator.WronglyRefused` | src/modex_graph/topology_validator.py:230-241 | a specification whose one path has a single edge is refused by a cap of 1 |
| `TopologyValidator.AtLeastTwo` | src/modex_graph/topology_validator.py:269-271 | the reported length is at least 2 if and only if START does not lead straight to END or END has an edge to itself |
| `TopologyValidator.NamesNotReached` | src/modex_graph/topology_validator.py:176-194 | the names reported are exactly the real nodes the entry does not reach over real edges |
| `TopologyValidator.NamesNotReachingEnd` | src/modex_graph/topology_validator.py:196-222 | the names reported are exactly the real nodes with no walk over real edges to a predecessor of END |
| `TopologyValidator.Validate` | src/modex_graph/topology_validator.py:73-251 | a specification passes if and only if its endpoints are declared, exactly one edge leaves START and not to START, some edge enters END, no edge repeats, no real node loops on itself, every real node lies on a START-to-END walk over real nodes, the caps are met and the iteration limit is positive; a refusal is for a reason that holds, with exactly the nodes concerned |
| `TopologyValidator.AcceptedExactly` | src/modex_graph/topology_validator.py:73-251 | the checks in their order come to that condition |
| `TopologyValidator.RefusedFor` | src/modex_graph/topology_validator.py:90-251 | what each kind of refusal says about edges, walks and numbers |
| `TopologyValidator.OnRouteExact` | src/modex_graph/topology_validator.py:171-222 | both searches together: a real node is reached and reaches END if and only if it lies on a walk from START to END over real nodes |
| `TopologyValidator.SmallestAccepted` | src/modex_graph/topology_validator.py:243-251 | START leading straight to END, and one node between under caps of 2 edges and 1 node, are accepted with 25 iterations |
| `CycleDetection.CycleFinder.Dfs` | src/modex_graph/graph.py:267-281 | the colour invariant: recorded cycles are closed walks reached from START, the stack is restored, and without a cycle the node is finished in post-order |
| `CycleDetection.PostOrderAcyclic` | src/modex_graph/graph.py:250-284 | a finished post-order admits no cycle reachable from its root |
| `CycleDetection.DetectCycles` | src/modex_graph/graph.py:250-284 | every list returned is a closed walk of declared edges reached from START, and none is returned exactly when that part is acyclic |
| `CycleDetection.SentinelCycleFound` | src/modex_graph/graph.py:253-256 | a cycle through a sentinel counts |
| `GraphBuilder.Graph.ValidateReachability` | src/modex_graph/graph.py:286-342 | reports exactly the nodes START does not reach, else exactly those that do not reach END |
| `GraphBuilder.Graph.Compile` | src/modex_graph/graph.py:184-248 | compiles exactly when no check rejects, otherwise with that check's error; warns exactly on a reachable cycle in mode "warn" |
| `GraphBuilder.BuildableExactly` | src/modex_graph/graph.py:184-250 | a graph compiles if and only if one edge leaves START, all endpoints are registered under their own names, no cycle is reached when cycles raise, and under the parallel scheduler START reaches every node and every node END |
| `GraphBuilder.RefusedFor` | src/modex_graph/graph.py:184-250 | what each kind of refusal says about names, edges, cycles and walks |
| `SpecCompiler.ValidatedIsConnected` | src/modex_graph/spec_compiler.py:124-126 | the validator's real-node reachability implies the builder's over all nodes, START reaching END included |
| `SpecCompiler.ValidatedSpecBuilds` | src/modex_graph/spec_compiler.py:124-165 | whatever the validator accepts compiles under both schedulers; in mode "raise" exactly when START reaches no cycle |
| `SpecCompiler.CompileSpec` | src/modex_graph/spec_compiler.py:112-165 | the outcome is the validator's verdict: its routing error never shows |
| `SpecCompiler.ValidatorIsStricter` | src/modex_graph/spec_compiler.py:124-126 | a concrete graph the builder takes and the validator refuses |
| `ContextGovernance.ExpansionOnly` | src/modex_agent/memory/context_governance.py:164-169 | on every extension of a history each placeholder is placed again, as the same message |
| `ContextGovernance.PlaceholdersAreAPrefix` | src/modex_agent/memory/context_governance.py:155-169 | every clearable result older than a placeholder is one too |
| `ContextGovernance.Idempotent` | src/modex_agent/memory/context_governance.py:171-175 | governing what was governed changes nothing |
| `ContextGovernance.FindWindow` | src/modex_agent/memory/context_governance.py:243-251 | the backward walk stops at the window: one result more would exceed the protected tokens, and the newest results are always in it |
| `ContextGovernance.ReplaceAll` | src/modex_agent/memory/context_governance.py:262-277 | count and order of messages stay, and exactly the clearable results outside the window become placeholders |
| `ContextGovernance.PruneByWindow` | src/modex_agent/memory/context_governance.py:221-279 | the loops compute the pointwise rule that reads only the messages from each result on |
| `ContextGovernance.Apply` | src/modex_agent/memory/context_governance.py:202-219 | under the threshold nothing changes; otherwise the pass computes which messages are cleared, and keeps the promise below |
| `ContextGovernance.GovernedPromised` | src/modex_agent/memory/context_governance.py:221-279 | a message that changes is a tool result outside the whitelist with text of its own and not lossy, gets the placeholder and the three reduction fields and keeps all others; exactly those change that have enough newer results and lie beyond the protected tokens, when the history is over the threshold and the gain is large enough |
| `Cleanup.FindTokenBoundary` | src/modex_agent/memory/cleanup.py:787-796 | the earliest start whose suffix fits the target, or the last message alone |
| `Cleanup.TokenBoundaryMeans` | src/modex_agent/memory/cleanup.py:784-797 | in weights, cached counts first: from the boundary on the history fits the target or only the newest message is left, and from no earlier place on does it fit |
| `Cleanup.AdjustBoundaryForToolChains` | src/modex_agent/memory/cleanup.py:805-833 | moves to the first position that is not a result with a pruned owner |
| `Cleanup.ComputeBoundary` | src/modex_agent/memory/cleanup.py:769-802 | pruned and kept parts concatenate to the input, split at the adjusted token boundary; nothing is kept exactly when every message from the token boundary on is a result with its call before it |
| `Cleanup.AdjustmentExact` | src/modex_agent/memory/cleanup.py:809-815 | adjustment never separates a kept result from its last owner, from any boundary, if and only if the history is chain-safe |
| `Cleanup.SplitExact` | src/modex_agent/memory/cleanup.py:769-833 | with positive message tokens, the split never separates a kept result from its last owner, for any keep target, if and only if the history is chain-safe |
| `Cleanup.SplitKeepsChains` | src/modex_agent/memory/cleanup.py:769-833 | on chain-safe input the split keeps results with their last owner |
| `Cleanup.NewestKeptExact` | src/modex_agent/memory/cleanup.py:776-780 | for every keep target something is kept, if and only if the newest message is not a tool result with its call in the history |
| `Cleanup.CallAndResultPruned` | src/modex_agent/memory/cleanup.py:776-780 | a history of a call and its result that do not fit the target together is pruned whole |
| `Cleanup.KeptResultsAreOwned` | src/modex_agent/memory/cleanup.py:769-833 | on input whose results follow their owner in one run, every kept result has a kept owner before it |
| `Cleanup.InterleavedChainIsSplit` | src/modex_agent/memory/cleanup.py:769-833 | with a message between a call and its result, the keep target of the last two messages puts the boundary between call and result, and adjustment leaves it there |
| `Cleanup.TriggersExactly` | src/modex_agent/memory/cleanup.py:745-766 | the trigger fires if and only if the context size is known and all but the system messages weigh more than the ratio of what the output reserve leaves of it, at least one token |
| `Cleanup.RetriggerExact` | src/modex_agent/memory/cleanup.py:745-833 | with a keep target within the threshold, the kept tail triggers again exactly when it is the newest message alone and that message exceeds the threshold |
| `Cleanup.NoImmediateRetrigger` | src/modex_agent/memory/cleanup.py:745-833 | if the newest message fits the keep target, the kept tail does not trigger |
| `Snowflake.StepMeans` | src/modex_graph/id_generator.py:142-191 | a later millisecond starts its sequence anew, an earlier one is replaced by the next after the last, the same one takes the next number, and after 4096 of them the first later reading |
| `Snowflake.ClampExact` | src/modex_graph/id_generator.py:130-140 | a worker field that fits is taken as given, a larger one folded into the range, the sign dropped |
| `Snowflake.FieldsRecovered` | src/modex_graph/id_generator.py:174-179 | an id is below 2^63 and shifting and masking give back all four fields |
| `Snowflake.WorkersNeverCollide` | src/modex_graph/id_generator.py:174-179 | generators with different worker fields never produce the same id, whatever their clocks |
| `Snowflake.RunOrdered` | src/modex_graph/id_generator.py:142-161 | over any clock stream, regressions and bursts included, (timestamp, sequence) strictly increases from call to call |
| `Snowflake.GreaterIdExact` | src/modex_graph/id_generator.py:104-107 | a later state gives a greater id if and only if the sequence grew or the 41-bit field separates the two timestamps |
| `Snowflake.IdsStrictlyIncrease` | src/modex_graph/id_generator.py:142-179 | in the 41-bit range the ids of every run strictly increase below 2^63 |
| `Snowflake.NotMonotoneBeforeEpoch` | src/modex_graph/id_generator.py:163-166 | before the epoch consecutive milliseconds share one id |
| `Snowflake.Generator.Advance` | src/modex_graph/id_generator.py:145-161 | the fields follow the transition of the reference state machine |
| `Snowflake.Generator.Generate` | src/modex_graph/id_generator.py:142-179 | the id returned is that of the new state |
| `ControlChannel.Channel.Send` | src/modex_agent/control/channel.py:79-83 | appends to one queue and indexes the time; a fresh id keeps the channel consistent |
| `ControlChannel.SentAppends` | src/modex_agent/control/channel.py:79-83 | the command becomes the last of its own queue, a type first used the last to scan, and every other queue stays |
| `ControlChannel.Channel.Drain` | src/modex_agent/control/channel.py:85-136 | hits, remaining queues and index are those of the reference scan of the requested types; other sessions are untouched and the invariant stays |
| `ControlChannel.DrainPromised` | src/modex_agent/control/channel.py:85-136 | a drain hands out only queued in-scope commands still within their own lifetime or else the default one, those of a type in sending order and none before an earlier one, at most the limit and otherwise all; everything else it forgets has outlived that time |
| `ControlChannel.Channel.DrainQueue` | src/modex_agent/control/channel.py:109-134 | one queue splits into hits, expired ids and remainder as the scan says |
| `ControlChannel.ScanSplits` | src/modex_agent/control/channel.py:109-134 | the remainder is the queue without hits and expired ones, in order |
| `ControlChannel.ScanTakesEarliest` | src/modex_agent/control/channel.py:109-134 | the hits are the first live in-scope commands, up to the limit |
| `ControlChannel.ScanPurges` | src/modex_agent/control/channel.py:109-134 | an expired command is purged exactly when the limit is not reached before it |
| `ControlChannel.DrainTakesEarliest` | src/modex_agent/control/channel.py:85-136 | across all types the drain returns the earliest live in-scope commands up to the limit |
| `ControlChannel.Channel.Peek` | src/modex_agent/control/channel.py:138-173 | shows all live in-scope commands, consumes none and purges only expired ones |
| `ControlChannel.PeekPromised` | src/modex_agent/control/channel.py:138-173 | a peek shows exactly the queued in-scope commands still within their lifetime, in sending order within a type, and forgets exactly those that have outlived it |
| `ControlChannel.DrainAfterPeek` | src/modex_agent/control/channel.py:85-173 | an unlimited drain right after a peek returns what the peek showed |
| `ControlChannel.IndexIsExact` | src/modex_agent/control/channel.py:73-83 | the index holds exactly the ids still queued |
| `ControlChannel.DrainedOnce` | src/modex_agent/control/channel.py:85-136 | over every run no id is drained twice, and none drained is queued |
| `ControlChannel.Channel.CleanupSession` | src/modex_agent/control/channel.py:183-188 | the session's queues and exactly its ids leave, nothing else changes |
| `ControlChannel.ScopeMatchesExact` | src/modex_agent/control/channel.py:175-181 | a target matches exactly the commands whose scope it is with agent, turn, both or neither forgotten |
| `AcpServer.ReachableInv` | src/modex_agent/acp/server.py:245-386 | the registry invariant holds in every state any interleaving of calls reaches |
| `AcpServer.NothingPublishedAfterGate` | src/modex_agent/acp/server.py:268-271 | once closing, no interleaving adds a session |
| `AcpServer.AcloseDrains` | src/modex_agent/acp/server.py:349-382 | when aclose completes no operation is running, and no turn either if and only if no abandoned turn is |
| `AcpServer.DrainExact` | src/modex_agent/acp/server.py:330-337 | over every run aclose drains every turn if and only if no abandoned turn is still running when it completes |
| `AcpServer.TurnOutlivesAclose` | src/modex_agent/acp/server.py:377-382 | a run in which aclose completes while an abandoned turn still runs |
| `AcpServer.EmptyAfterAclose` | src/modex_agent/acp/server.py:381-382 | and both registries stay empty for ever |
| `AcpServer.HandlesAccountedFor` | src/modex_agent/acp/server.py:462-484 | every handle the backend returned is published, closed, dropped, or held by a running operation |
| `AcpServer.LostExactly` | src/modex_agent/acp/server.py:295-309 | a handle is dropped on a run exactly when a session id collides or an RPC is cancelled after its operation finished |
| `AcpServer.NothingDropped` | src/modex_agent/acp/server.py:486-491 | with distinct live session ids and no such cancellation that never happens |
| `AcpServer.EveryHandleSettled` | src/modex_agent/acp/server.py:245-386 | then every handle is published or closed once no RPC waits |
| `AcpServer.CollisionLosesHandle` | src/modex_agent/acp/server.py:486-488 | a run with two opens returning one session id loses the second handle |
| `AcpServer.BusyGate` | src/modex_agent/acp/server.py:318-337 | over every run each handle sees at most one turn at a time if and only if no prompt starts on a handle that still runs an abandoned turn |
| `AcpServer.TwoTurnsOnOneHandle` | src/modex_agent/acp/server.py:330-337 | a run with two turns alive on one handle |
| `AcpServer.NoTurnAbandoned` | src/modex_agent/acp/backend.py:64-66 | both promises hold on every run in which no cancel of a handle fails |
| `AcpGates.BusyExactly` | src/modex_agent/acp/server.py:312-338 | in every reachable state a handle is busy if and only if some RPC awaits a prompt on it |
| `AcpGates.PromptAdmitted` | src/modex_agent/acp/server.py:312-322 | a fresh prompt starts if and only if the closing gate is open, the session is open and no RPC awaits a prompt on its handle; refused, it changes nothing |
| `AcpGates.PromptAnswered` | src/modex_agent/acp/server.py:312-338 | a prompt that is answered leaves the server exactly as it found it |
| `AcpGates.LoadingExactly` | src/modex_agent/acp/server.py:245-309 | until an aclose completes the registries of loads and opens hold exactly the operations that an RPC awaits |
| `AcpGates.OpenAdmitted` | src/modex_agent/acp/server.py:245-294 | a fresh load starts if and only if the gate is open, the session is neither open nor being loaded; a fresh open whenever the gate is open |
| `AcpGates.OpenExactly` | src/modex_agent/acp/server.py:340-386 | a session is open if and only if a handle of it was published and no aclose has completed |
| `AcpGates.CancelReaches` | src/modex_agent/acp/server.py:340-347 | `session/cancel` requests the cancellation of exactly the loads of that session |
| `AcpGates.RpcCancelReaches` | src/modex_agent/acp/server.py:293-298 | cancelling an RPC requests the cancellation of its own running operation |
| `AcpGates.LoadOpens` | src/modex_agent/acp/server.py:275-309 | a load that goes well publishes its handle under its session id and leaves the registries |
| `AcpGates.LoadDies` | src/modex_agent/acp/server.py:468-484 | a load that dies holding a handle closes it and leaves the registries |
| `AcpGates.OpenFailsCleanly` | src/modex_agent/acp/server.py:245-309 | an open or load that fails leaves only its finished task behind |
| `AcpGates.AcloseOver` | src/modex_agent/acp/server.py:349-386 | an aclose that completes or is aborted is over; aborted, it leaves the gate shut and everything else as it was |
| `NodeLedger.NewRowExact` | src/modex_graph/persistence/node_state_store.py:271-310 | beginning an invocation adds one RUNNING row; an orphan left RUNNING before it becomes CRASHED and every other row stays |
| `NodeRun.World.StageOutputs` | src/modex_graph/node.py:271-297 | the deliver calls append their records in order, each with its content and to the node it addresses, up to the first that addresses nothing registered; it fails exactly when there is such a call |
| `NodeRun.ResolveExact` | src/modex_graph/node.py:271-348 | a call goes to the node its name stands for; without a name to the target of the one edge leaving this node, or to END when none does; it fails exactly when that does not exist or is not registered |
| `NodeRun.DefaultTargetExact` | src/modex_graph/node.py:308-348 | the default target exists exactly when the topology is known and at most one edge leaves the node, and is that edge's target or END |
| `NodeRun.World.WakeTargets` | src/modex_graph/node.py:192-214 | each affected node is woken once under a name of its own; the loop ends early exactly at a node without a name or whose dispatch raises |
| `NodeRun.World.CompleteAndPromote` | src/modex_graph/node.py:187-215 | on a lost race nothing is promoted; otherwise complete, publish, wake, finish, in this order |
| `NodeRun.World.Conclude` | src/modex_graph/node.py:224-241 | a RUNNING row becomes canceled or crashed, a terminal one stays, and the exit is the code's exception |
| `NodeRun.World.Run` | src/modex_graph/node.py:152-241 | for every outcome, and whatever other parties do to ledger and rows while it is awaited, the invocation ends with the first terminal status it got, the ledger is that of the outcome, the nodes woken are those staged for, and terminal rows stay |
| `NodeRun.EndingMeans` | src/modex_graph/node.py:217-241 | the status and the exit of a run, for each outcome of integration, deliver calls, `execute`, competing parties and dispatches |
| `NodeRun.WakesMean` | src/modex_graph/node.py:188-214 | the names woken are, without repetition, those of the targets of staged records, all of them unless one has no name or its dispatch raises; END wakes nobody |
| `NodeRun.EventsOrdered` | src/modex_graph/node.py:187-215 | outputs become visible only after completion, targets wake only after that, inputs finish last; a run that does not complete does none of it |
| `NodeRun.RunMovesForward` | src/modex_graph/node.py:152-241 | no deliver is lost or altered, statuses only move forward, and what was consumed for good keeps its consumer |
| `NodeRun.FailedRunPromotesNothing` | src/modex_graph/node.py:181-241 | a run that does not complete only claims inputs and stages outputs, and changes nothing after its await |
| `NodeRun.LateInputsWait` | src/modex_graph/persistence/persistence_coordinator.py:327-349 | inputs delivered or published while the run was awaited are left for the next one |
| `NodeRun.DeliversSurvive` | src/modex_graph/constants.py:146-168 | over any list of runs, once a run of a node completes all its delivers so far are visible for good, with target and content unchanged |
| `RunInterleavings.StepKeeps` | src/modex_graph/node.py:152-297 | every atomic step of any run, every ending cut short and every recovery keeps the invariant: one RUNNING row per node, its run holding all inputs it claimed, every claimed input and every visible deliver accounted for |
| `RunTheorems.RunsKeep` | src/modex_graph/node.py:152-297 | so over every interleaving, in which nothing is lost, statuses only move forward and terminal rows stay |
| `RunTheorems.ConsumedByOne` | src/modex_graph/persistence/deliver_store.py:361-378 | a deliver is consumed for good by at most one invocation, which claimed it, belongs to its target and completed |
| `RunTheorems.VisibleAfterCompletion` | src/modex_graph/persistence/deliver_store.py:380-398 | what a run made becomes visible only when that run, or a later one of its node, completed |
| `RunTheorems.EndConsumesInputs` | src/modex_graph/node.py:187-215 | a run that completes consumes for good exactly the inputs it claimed if its ending is not cut short; otherwise, or when it fails, it holds them all |
| `RunTheorems.RunConsumesWhatItSaw` | src/modex_graph/node.py:243-257 | whatever steps of others come between its start and its end, a run that still has its row consumes for good exactly what was visible to its node when it started; when it fails or is cut short all of that stays visible to the next attempt |
| `RunTheorems.PublishedForever` | src/modex_graph/persistence/deliver_store.py:380-398 | a run that completes makes visible for good all its node had staged, crashed attempts included |
| `RunTheorems.EmittedArrives` | src/modex_graph/node.py:271-297 | what a run delivers before it ends well is visible to its target from then on, with its content, whatever steps come between and after |
| `RunInterleavings.RecoverRepairs` | src/modex_graph/scheduler/bootstrap.py:118-145 | the scan for half consumed inputs of completed invocations finishes exactly the pending inputs of the nodes, START excepted, whose newest row is COMPLETED |
| `RunTheorems.RecoveryCompletesEnding` | src/modex_graph/scheduler/bootstrap.py:114-145 | wherever the ending of a run stops after its row was completed, recovery leaves the ledger that the whole ending leaves |
| `RunTheorems.EachInputOnce` | src/modex_graph/node.py:187-257 | over every interleaving no input is given to two runs that complete, if and only if no ending is cut short whose node then starts again without recovery first and completes |
| `RunTheorems.NothingCutShort` | src/modex_graph/node.py:192-215 | so it holds on every run in which no dispatch raises and no ending is interrupted |
| `RunTheorems.InputRepeated` | src/modex_graph/scheduler/bootstrap.py:96-97 | after a dispatch that raises, a fresh invocation, which recovers nothing, gives the input to a second run that completes |
| `RunTheorems.StepsRely` | src/modex_graph/node.py:181-185 | all that any steps of other runs can do is what one run allows for |
| `RunTheorems.EndIsRun` | src/modex_graph/node.py:187-241 | ending in the system the others left is ending the single run with that ledger and those rows |
| `StreamBridge.EventAssembler.Feed` | src/modex_agent/core/stream_events.py:176-213 | accepts until closed, and its parts are the fold of what it accepted |
| `StreamBridge.EventAssembler.Result` | src/modex_agent/core/stream_events.py:215-271 | closes and gives the response of the fold, the same every time |
| `StreamBridge.FinishedResponse` | src/modex_agent/core/stream_events.py:247-271 | a finished stream gives its concatenated text (none when empty), all tool calls in order and the last usage; replayed reasoning wins over the deltas |
| `StreamBridge.FailedResponse` | src/modex_agent/core/stream_events.py:238-246 | a failed stream keeps its text behind the partial text of the failure, without calls |
| `StreamBridge.UnterminatedResponse` | src/modex_agent/core/stream_events.py:225-237 | a stream without a terminal event is a retryable timeout holding what arrived |
| `StreamBridge.Stream` | src/modex_agent/core/provider.py:345-447 | the queue for each of return, exception and cancellation |
| `StreamBridge.BridgeTerminates` | src/modex_agent/core/provider.py:345-447 | for every outcome exactly one terminal event, in last place |
| `StreamBridge.BridgeFold` | src/modex_agent/core/provider.py:345-447 | what the fold accumulates over the whole bridge |
| `StreamBridge.RoundTrip` | src/modex_agent/core/provider.py:345-447 | a non-error response comes back with its calls in order, its usage and its finish reason, and with its content and reasoning if and only if the deltas are absent or concatenate to them |
| `StreamBridge.ErrorRoundTrip` | src/modex_agent/core/provider.py:345-447 | an error response comes back as an error with its delivered text and its error information as given, or else an unknown one with the first 500 characters of its message, not to be retried |
| `StreamBridge.BrokenOffRoundTrip` | src/modex_agent/core/provider.py:418-433 | a call that raises or is cancelled comes back with everything streamed so far, as an error with its message cut to 500 characters or as cancelled |
| `StreamBridge.DeltasComeBack` | src/modex_agent/core/provider.py:345-385 | content deltas come back as content and reasoning deltas as reasoning |
| `StreamBridge.RetrySurvivesBridge` | src/modex_agent/core/provider.py:216-262 | for every ending the response folded from the bridge is retried exactly when the call itself would be |
| `StreamBridge.FoldStream` | src/modex_agent/core/provider.py:140-143 | raises exactly when an event follows a terminal one |
| `StreamBridge.ExecuteWithRetry` | src/modex_agent/core/provider.py:204-267 | ends at the first attempt not to be retried or at the last, with the configured delay before each retry |
| `MediaStore.Store.ListSession` | src/modex_agent/media/store.py:175-193 | exactly the regular files of the session, by id |
| `MediaStore.SortIsStable` | src/modex_agent/media/store.py:192-201 | sorting by a key keeps the order of entries with equal keys |
| `MediaStore.SortsByAge` | src/modex_agent/media/store.py:201 | sorting the id-ordered listing by age gives the order by age, then id |
| `MediaStore.Store.EvictInOrder` | src/modex_agent/media/store.py:200-212 | the loop removes the files of the shortest prefix that brings the tracked total within budget, skipping those it cannot remove |
| `MediaStore.Store.EnforceBudget` | src/modex_agent/media/store.py:195-217 | nothing is evicted within budget; otherwise exactly that prefix goes, an emptied directory with it, and the promise below is kept |
| `MediaStore.EvictionPromised` | src/modex_agent/media/store.py:195-217 | only removable files of the session go, oldest first and by id among equals, none before an older one; each was still needed when it went, and then the total is within budget or nothing removable is left |
| `MediaStore.SweptMeans` | src/modex_agent/media/store.py:203-217 | the files evicted leave, the others and every other session stay, and the directory goes exactly when it is emptied |
| `MediaStore.EvictionSettled` | src/modex_agent/media/store.py:200-212 | this determines what is evicted |
| `MediaStore.ShortestPrefix` | src/modex_agent/media/store.py:200-212 | without failures the evicted files are a prefix, and a suffix is within a non-negative budget exactly from its end on |
| `MediaStore.BudgetEnforced` | src/modex_agent/media/store.py:195-217 | without failures the directory then holds at most the budget if and only if the budget is not negative |
| `MediaStore.OldestEvicted` | src/modex_agent/media/store.py:200-212 | and everything left is younger than everything evicted |
| `MediaStore.StopsOnlyWithinBudget` | src/modex_agent/media/store.py:203-212 | with failures, a call still over budget has removed all it could |
| `MediaStore.SizesAddUp` | src/modex_agent/media/store.py:195-217 | sizes left, evicted and removed by others add up to the total before |
| `TokenUsage.NormalizeWireKeys` | src/modex_agent/core/llm_struct.py:54-121 | the cascade computes the declarative reading of the dictionary, errors included |
| `TokenUsage.ConservesIncludedCache` | src/modex_agent/core/llm_struct.py:95-106 | when the wire count includes cached tokens, input and cache reads add up to it, and the total to it plus creation and output |
| `TokenUsage.KeepsExclusiveInput` | src/modex_agent/core/llm_struct.py:95-106 | otherwise the wire count is the input and cache reads come on top |
| `TokenUsage.RefusedExactly` | src/modex_agent/core/llm_struct.py:108-121 | a readable dictionary is refused exactly when a count is negative or an inclusive input is smaller than the cached part; accepted counts are not negative |
| `TokenUsage.Idempotent` | src/modex_agent/core/llm_struct.py:52-121 | normalising a normalised value changes nothing |
| `TokenUsage.ShapesAgree` | src/modex_agent/core/llm_struct.py:70-106 | one call reported in any of six wire shapes gives one value: split, included and detailed cache reads, cache hits beside the prompt, and cache creation by one lifetime or both |
| `TokenUsage.NormalisedNamesWin` | src/modex_agent/core/llm_struct.py:70-106 | a normalised name wins over every provider's own where both are present |
| `TokenUsage.NotANumberRefused` | src/modex_agent/core/llm_struct.py:57-68 | a value that is not a number is refused wherever it is looked at, not taken for a missing one |
| `RecoveryScanner.Scanner.RecordAttempts` | examples/graph_patterns/recovery_scanner.py:104-128 | the loop counts, clears or fails each candidate once |
| `RecoveryScanner.Scanner.RecoverOnce` | examples/graph_patterns/recovery_scanner.py:73-84 | over all runs counts stay strictly between 0 and the limit and exact, and a scan marks FAILED exactly the instances whose unsuccessful scans since they were cleared reach the budget |
| `RecoveryScanner.RecordedAsPromised` | examples/graph_patterns/recovery_scanner.py:104-128 | an instance recovered, or no longer CRASHED or RUNNING, has its count cleared; one that still is has it raised by one and at the limit is marked FAILED and forgotten; nothing else changes |
| `RecoveryScanner.FailedAtBudget` | examples/graph_patterns/recovery_scanner.py:115-121 | with exact counts the code's test is "this scan uses the budget up" |
| `RecoveryScanner.PenaltyMeansAttempt` | examples/graph_patterns/recovery_scanner.py:76-83 | whatever recovery makes of a scan, only failed attempts are counted against an instance, if and only if no instance is RUNNING when the scan loads |
| `RecoveryScanner.FailureMeansAttempts` | examples/graph_patterns/recovery_scanner.py:73-128 | whatever the scans over given stores report and leave, an instance is marked FAILED only after a full budget of failed attempts, if and only if it is RUNNING in none of the stores or a candidate in fewer than the budget |
| `RecoveryScanner.HealthyRunIsFailed` | examples/graph_patterns/recovery_scanner.py:97-128 | an instance RUNNING throughout as many scans as the budget allows is failed though never attempted |
| `Base58.Encode` | src/modex_agent/core/session_id.py:33-42 | reading the string back gives the number; no leading zero digit except for zero itself, which is one digit |
| `Base58.OneCanonicalString` | src/modex_agent/core/session_id.py:25-42 | one string only without leading zero digit stands for a number, so different numbers print differently |
| `Base58.DigestFits` | src/modex_agent/core/session_id.py:29-30 | a 96-bit digest prints in at most 17 characters |

## Left out

- SQLite, filesystem, SHA-256, wall clocks, YAML, logging, the CLI and the web UI: abstract maps, clock streams and numbers are passed in instead.
- The asyncio event loop: `AcpServer` and `RunInterleavings` interleave atomic steps on a state value, so they do not show objects being updated in place; channel calls are atomic because they hold the lock.
- Python's recursion limit: the two recursive graph searches are proved to end, not to fit a stack.
- Iteration order of Python sets: any order is allowed, and the contracts do not depend on it.
- Node construction by the registry, ON_RECEIVE warnings and state schemas in the spec compiler: every node is a fresh object.
- Token estimation and the tool-chain sanitizer: the estimator is any function to non-negative numbers, ratios are reals, and contiguous chains are a hypothesis where they are needed.
- Cleanup.SplitExact: as in `Cleanup.NewestKeptExact` the estimate of a message is positive, as the estimator adds an overhead to each (`src/modex_agent/memory/token_estimator.py:91-108`).
- ContextGovernance.FindWindow: the number of recent results to keep is not negative.
- Snowflake.Generator.Generate: a call still spinning when the finite clock stream ends returns nothing.
- ControlChannel.Channel.Send: makes no promise of consistency for an id that was sent before.
- AcpServer.HandlesAccountedFor: "closed" means close was called; interruption of that close is not modelled.
- Permission dialogs, replayed content and argument rejections of the ACP server.
- NodeRun.World.Run: the null stores, output events to adapters and version parents are not modelled; exceptions of deliver calls propagate out of execute, and what others do between two deliver calls of one run appears after them (`RunInterleavings` interleaves it).
- RunInterleavings.StepKeeps: the code between two awaits is one step, except that an ending may stop between any two of its calls to the stores; several processes on one database could split other steps. A process that ends elsewhere is a run that takes no further step.
- RunTheorems.RecoveryCompletesEnding: recovery takes any set of nodes, which stands for those whose newest row is of the recovered graph run; the seeds it returns and their order are not modelled.
- NodeRun.World.StageOutputs: the graceful routing policy is not modelled, `_deliver` uses the strict one only.
- The schedulers: only their dispatch calls and whether they raise appear.
- StreamBridge.Stream: a consumer that abandons the stream, completion times and further response fields (item ids, encrypted reasoning, response ids) are not modelled.
- StreamBridge.ExecuteWithRetry: which error texts count as transient is a parameter of each attempt.
- MediaStore.Store.EnforceBudget: files added by other parties during the call are not modelled.
- TokenUsage.NormalizeWireKeys: `int()` of anything but an integer or an absent value is one kind of refusal.
- RecoveryScanner.Scanner.RecoverOnce: a store that raises while attempts are recorded is not modelled, nor an instance whose statuses change during that loop.
- Cache coherence of session histories after a compaction, core-memory dumps, plain enums, command handlers and plugin registration: not modelled.
