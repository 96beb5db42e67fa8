# Verified model of the Grael runtime

Grael is an event-sourced workflow runtime. A run is a graph of nodes; workers poll
for READY nodes, hold them under leases, and complete, checkpoint or fail them; a
completion may spawn further nodes; failures are retried after a backoff or unwound
by compensation. Everything that happens is an event in the run's append-only log,
and the state of a run is the replay of its log. `Apply`, which replays one event,
checks almost nothing: legality comes from the guards of the engine's operations.

The model covers the run state machine (`internal/state/state.go`), the engine's
operations, monitors and recovery (`internal/engine/engine.go`), the event store with
its subscriptions (`internal/wal/wal.go`) and the validation of definitions
(`internal/workflowdef/loader.go`).

## How it is built

- `Runtime`, `Strings`, `TimerIds`, `Workflowdef`, `Graph`: vocabulary, sorted keys,
  timer ids, definitions, and the cycle search that gates spawned nodes.
- `State`: the meaning of each event on a value (`ApplyEvent`, `Step`, `Replay`) and
  the class `ExecutionState`, whose methods update a run in place and are proved
  against it.
- `Wal`: the store and its subscribers as classes, and the same protocol as steps
  (`Feed`, `Action`) over which exactly-once delivery is proved.
- `EngineSpec`: what each operation appends to one run's log, as a function of the
  run's state. Clock readings are a parameter (`clock(k)` is stamped on event k) and
  nothing is assumed about them; iteration orders of Go maps are parameters too.
- `Guards`, `Invariant`, `Logs`: the guard of each event, the invariants of a run's
  state, and logs made of guarded events (`LegalLog`).
- `Operations`, `Quiescence`, `Runs`: every operation appends guarded events only and
  ends in a quiescent state; executions with crashes between any two appends and with
  recovery (`Reachable`).
- Whole-history theorems: `Fencing`, `ExpiredLeases`, `Timers`, `AbsoluteDeadlines`,
  `Compensation`, `Growth`, `Outcomes`, `Endings`, `Liveness`, `Recovery`, `Crashes`.
  Most are stated over `LegalLog`, which `Runs.ReachableSound` and `Runs.SoundIsLegal`
  give for every reachable log.
- `Scenarios`, `LateCompletion`: small concrete histories.
- `Lifecycle`, `Results`, `Dispatching`, `Deadlines`, `Effects`: what each event, answer,
  claim, report and sweep means, written out on the fields of the run and independent of
  how `State` and `EngineSpec` compute it.
- `Steps`, `Engine`: the class `Engine`, whose locked methods append to the store and
  update the run in place branch by branch. Its invariant says that every in-memory
  state is the replay of its log, that every log is one some execution writes, that
  every copy in a snapshot is the state of a prefix, that every subscriber follows its
  log, and that a run not in memory has no log or one that cannot be loaded.
- `Restarts`: an engine stopped at any moment leaves what the next one can start over.

## What the code does not promise

Six properties a reader might expect are false of the code. Each comes with a
history that shows it and with the condition that decides it.

- A run can end twice. Cancelling a run while a compensation task is active makes it
  CANCELLED at once; the failure report of that task then makes it FAILED
  (`Endings.CancelledThenFailed`). That report is the only operation that changes an
  ended run (`Endings.EndedChangesIff`).
- A run can be RUNNING with nothing left to do. A worker may report its node cancelled
  although the run is not (`Liveness.SelfCancelStrands`), and definitions with longer
  dependency cycles are accepted (`Liveness.CyclicAccepted`) and never complete
  (`Liveness.CyclicStartNeverCompletes`). A run can move on exactly while some
  uncompleted node neither is, nor depends on, a node that was cancelled or lies on a
  cycle (`Liveness.ProgressIff`). Every run can be ended by cancelling it
  (`Liveness.CanAlwaysEnd`).
- The absolute deadline can be extended, contrary to rule I-16 of the repository's own
  runtime rules under `docs/`: a firing that finds the node FAILED and waiting for its
  retry is spent, and the next lease arms a new one
  (`AbsoluteDeadlines.DeadlineExtended`); it is armed again exactly after such a firing,
  or one whose failure a crash cut off (`AbsoluteDeadlines.RearmsIff`).
- Work is not always undone in the reverse order of completion, as section 11.2 of those
  rules and the architecture decision on compensation
  (`docs/adr/0011-compensation-applies-only-to-completed-nodes.md:37`) have it: a node
  that is still held when compensation starts may complete while a compensation task
  runs, and is then undone later (`LateCompletion.UndoneInOrder`). The order is the
  reverse exactly if no compensable node completes after the first compensation task to
  be completed was started (`Compensation.UndoneInReverseIff`,
  `Compensation.CompensatedInReverseIff`).
- A crash can lose part of an operation for good. A retryable failure cut off before its
  backoff timer is never retried: recovery unwinds or fails the run
  (`Crashes.RetryLost`), and it changes anything exactly if the process died there
  (`Crashes.CrashLosesRetry`). In general recovery reaches the state of the whole
  operation, up to time stamps, exactly if all that was lost are run-level transitions
  (`Recovery.RecoveryCompletesIff`, listed by operation in `Recovery.HarmlessCuts`). So
  a checkpoint cut off before its timeout, a start before its deadline timers, a firing
  before the failure it causes and a failed compensation task before the failure of the
  run are not made good by recovery.
- A run can be lost by a crash. A process that dies while it saves the run's snapshot,
  or in the middle of a record, leaves a file that does not decode; the next process
  skips the run and refuses every request for it (`Restarts.LoseRun`,
  `Restarts.FirstRunLost`). Only a wrong checksum falls back to the log. A run is
  recovered exactly if its log is clean and its snapshot is absent, decodes or has a
  wrong checksum (`Engine.Engine.LoadPersistedRuns`, `Engine.Engine.Rehydrate`).

Two more differences between the documentation and the code, where the model follows
the code: starting up appends the events that reconciliation finds due, while rule I-2
wants rehydration to append nothing. Rehydration proper (`Engine.Engine.Rehydrate`)
appends nothing, and neither does a start-up at an operation boundary
(`Runs.RestartAtBoundary`). Spawned nodes may depend on each other, while rule I-15
allows only nodes that already exist. Rule I-6, that an expired lease is dead for good,
holds (`ExpiredLeases.ExpiredLeaseIsDead`).

## Model

| member | source | states |
|---|---|---|
| State.ExecutionState.Apply | internal/state/state.go:90-332 | The in-place update of a run equals the value-level step for each of the 23 event types, including which events are refused and what a refused event still changes |
| State.ExecutionState.MarkReadyNodes | internal/state/state.go:334-343 | Visiting the nodes in any order promotes exactly the PENDING nodes whose dependencies are all COMPLETED: the result does not depend on map order |
| State.ExecutionState.DependenciesCompleted | internal/state/state.go:345-353 | True exactly when every dependency names an existing COMPLETED node |
| State.ExecutionState.FromSnapshot | internal/snapshot/store.go:98-105 | A copy that decodes becomes the in-memory state as it was saved; the other outcomes of a load are cases of Engine.Engine.Rehydrate |
| State.Rehydrate | internal/state/state.go:79-87 | Succeeds exactly when every event applies in turn, and then yields the fold of the log over the empty state |
| State.ReplayConcat | internal/state/state.go:79-87 | Replay, and its success, decompose over concatenation: replay can be resumed anywhere |
| State.FirstEntry | internal/state/state.go:166-178 | Finds the first stack entry of a node, or says there is none |
| Lifecycle.RefusedIff | internal/state/state.go:90-332 | Exactly which events Apply refuses, in any state: those about unknown nodes and timers, heartbeats of nobody, expiries of another attempt; and what a refused event leaves |
| Lifecycle.NodeFollows | internal/state/state.go:117-318 | State by state, exactly which events bring a node there or leave it there, whose it is afterwards, under which attempt and with which heartbeat, for every event but a start or a completion |
| Lifecycle.StartGraph | internal/state/state.go:93-116 | After a start the nodes are those of the definition, never leased, READY exactly if nothing they depend on is open |
| Lifecycle.CompletionFollows | internal/state/state.go:275-307 | A completion leaves its node COMPLETED under its holder and on the stack if its definition names a compensation, lets the spawned nodes enter, makes exactly the PENDING nodes READY whose dependencies are now all COMPLETED, and changes nothing else |
| Lifecycle.RunFollows | internal/state/state.go:156-163 | The run's state is that of the last transition, its finishing time that of the event that ended it, and a request for cancellation stays |
| Lifecycle.StackFollows | internal/state/state.go:164-197 | A compensation task's start and completion change exactly the entry of its node, and one task is open from its start until it is reported on or expires |
| Lifecycle.TimersFollow | internal/state/state.go:198-213 | A schedule writes its timer, a firing marks it, nothing else touches the table |
| Graph.HasCycle | internal/engine/engine.go:1448-1480 | Terminates for every graph and visiting order, and answers true exactly when the graph restricted to its keys has a non-empty path from some node back to itself |
| Graph.CycleSearch.Visit | internal/engine/engine.go:1455-1472 | The grey nodes are the open call chain; a visit that finds nothing leaves the finished nodes in dependency order |
| Graph.TopologicalAcyclic | internal/engine/engine.go:1448-1480 | A dependency order over all keys excludes every cycle |
| Graph.MinimumExists | internal/engine/engine.go:1448-1480 | In an acyclic graph every non-empty set of nodes has one without a dependency inside the set |
| Workflowdef.Normalize | internal/workflowdef/loader.go:52-90 | Accepts exactly the named, non-empty definitions with unique non-empty ids, non-empty activities, closed dependencies and no self-dependency; every rejection names a defect the definition has; what it returns keeps the definition field by field, with negative numbers raised to 0 |
| Workflowdef.AcceptedMeans | internal/workflowdef/loader.go:52-90 | The accepted definitions, written out: a name, nodes with distinct ids and an activity each, dependencies on other nodes of the definition only |
| Workflowdef.NormalFormsKeep | internal/workflowdef/loader.go:92-132 | Id, activity, dependencies and compensation are kept, a retry policy is absent exactly if it was, each number is kept unless negative and is then 0; a definition without negative numbers comes back unchanged |
| Workflowdef.NormalizeIdempotent | internal/workflowdef/loader.go:52-132 | A definition is accepted exactly when its normal form is, and the normal form is its own: both feed one value to the definition hash |
| TimerIds.TimerIdInjective | internal/engine/engine.go:1214-1321 | Timers of one run share an id only if they agree on node and purpose and, except for the absolute deadline, on the attempt, even when node ids contain colons |
| TimerIds.TimerIdShown | internal/engine/engine.go:1214-1321 | The four forms of a timer id |
| Strings.LeqMeans | internal/engine/engine.go:571-575 | The order in which runs and nodes are visited is byte order: a prefix first, otherwise the first difference decides |
| Wal.AppendVisible | internal/wal/wal.go:57-115 | An appended event is read back exactly when no corrupt record precedes it |
| Wal.Store.ScanLocked | internal/wal/wal.go:273-324 | Reading yields the longest valid prefix and reports corruption exactly when there is some |
| Wal.Store.Append | internal/wal/wal.go:57-115 | The event gets the next sequence number, is added to its run's file and broadcast to every open subscriber of that run only |
| Wal.Store.List | internal/wal/wal.go:117-122 | Returns the valid prefix |
| Wal.Store.Subscribe | internal/wal/wal.go:124-156 | Replays exactly the events after the requested number into a fresh subscriber; refused exactly for an empty log; no other subscriber changes |
| Wal.Store.BroadcastLocked | internal/wal/wal.go:188-192 | Every open subscriber of the run is handed the event, no other one is |
| Wal.Store.RemoveSubscriber | internal/wal/wal.go:194-206 | Removes that subscriber only |
| Wal.Subscriber.Enqueue | internal/wal/wal.go:220-228 | Queues the event at the end unless the subscriber is closed |
| Wal.Subscriber.Next | internal/wal/wal.go:248-261 | Takes the oldest queued event, and stops exactly when closed with an empty queue |
| Wal.Subscriber.Send | internal/wal/wal.go:240-241 | The offered event is delivered once |
| Wal.Subscriber.Quit | internal/wal/wal.go:242-243 | A closed subscriber may drop the event it is offering, and delivers nothing after it |
| Wal.Subscriber.Close | internal/wal/wal.go:263-271 | Only marks the subscriber closed |
| Wal.ActKeepsInv | internal/wal/wal.go:110-271 | Each single step of the store or of a subscriber keeps delivered ++ in-flight ++ pending equal to the log suffix, for open subscribers, and delivered a prefix of it, for closed ones |
| Wal.SubscriptionExactlyOnce | internal/wal/wal.go:110-271 | Exactly-once, in-order delivery under every interleaving of Append, Subscribe, next, send, quit, close and removal |
| Wal.DrainedSubscriberHasSuffix | internal/wal/wal.go:124-156 | A subscriber from afterSeq that is drained has received exactly the events numbered afterSeq + 1 to the end |
| EngineSpec.LastOpen | internal/engine/engine.go:875-886 | The next entry to undo is the last uncompleted one |
| Guards.LegalApplies | internal/state/state.go:90-332 | Apply never refuses an event appended under the engine's guard for it |
| Guards.LegalMoves | internal/state/state.go:117-332 | No guarded event other than a completion changes a definition or the node set, and node states move only along the allowed transitions |
| Invariant.CompletionEffect | internal/state/state.go:275-307 | A completion completes one node, adds exactly the spawned nodes, and changes any other node at most from PENDING to READY |
| Invariant.InvKept | internal/state/state.go:90-332 | Every guarded event keeps all run invariants: closed graph, exact readiness, leases with a heartbeat, the compensation stack, the active task, the run phase and the timer table |
| Logs.LogInv | internal/engine/engine.go:185-1212 | On every engine-written log the invariants hold, and sequence numbers are 1, 2, 3, ... |
| Logs.ApplyNeverErrors | internal/state/state.go:79-87 | Apply never refuses an event of an engine-written log, so rehydration always succeeds |
| Logs.ReadinessExact | internal/state/state.go:334-353 | After every event: a PENDING node has a dependency that is not COMPLETED; a node in any other state but CANCELLED has none |
| Logs.SnapshotPlusDelta | internal/engine/engine.go:1032-1049 | A snapshot of any prefix plus the events after it gives the state of the full replay |
| Operations.CancelEligibleLegal | internal/engine/engine.go:845-873 | Cancelling changes exactly the PENDING, READY and AWAITING_APPROVAL nodes |
| Operations.DispatchLegal | internal/engine/engine.go:612-650 | A dispatch appends a lease and a start, and leaves the node RUNNING under the next attempt with nothing else changed |
| Operations.OpLegal | internal/engine/engine.go:185-1212 | From a state that satisfies the invariants every engine operation, whatever its arguments, clock readings and map orders, appends only events that are guarded where they are appended |
| Quiescence.QuietIffReconcileEmpty | internal/engine/engine.go:148-158 | Reconcile appends nothing exactly in quiescent states |
| Quiescence.ReconcileQuiets | internal/engine/engine.go:148-158 | Reconcile leads from any sound state to a quiescent one, so it is idempotent |
| Quiescence.TerminalStays | internal/engine/engine.go:675-678 | No operation takes a run out of the terminal states |
| Quiescence.OpQuiet | internal/engine/engine.go:185-1212 | No operation leaves a run-level transition undone: every operation boundary is quiescent |
| Runs.NextSound | internal/engine/engine.go:185-1340 | Every operation, every crash between two appends and every recovery keeps the log sound and only extends it |
| Runs.ReachableSound | internal/engine/engine.go:185-1340 | Over all executions, with crashes anywhere: the log replays without error to a state that satisfies every invariant, numbered 1, 2, 3, ... |
| Runs.CrashRecovery | internal/engine/engine.go:1323-1340 | Any non-empty prefix of a reachable log replays without error, and reconciling it yields a state in which reconciling again appends nothing |
| Runs.RestartAtBoundary | internal/engine/engine.go:1323-1340 | At an operation boundary recovery appends nothing: a restart there changes neither log nor state |
| Fencing.AttemptCountsLeases | internal/engine/engine.go:617-650 | A node's attempt is the number of its leases, modulo 2^32 |
| Fencing.LeaseNumbers | internal/engine/engine.go:617-637 | The k-th lease of a node is numbered k modulo 2^32, and is numbered k exactly when k < 2^32 |
| Fencing.LeasesDistinct | internal/engine/engine.go:617-637 | Below 2^32 leases of a node, later leases carry larger numbers |
| Fencing.LeaseTracksState | internal/state/state.go:117-155 | A node is RUNNING exactly while its history holds an uninterrupted start, and stores that start's worker and attempt |
| Fencing.ReportsUnderLease | internal/engine/engine.go:197-209 | Every completion, checkpoint and expiry follows a start of the same worker and attempt with no expiry, failure, cancellation, checkpoint, completion or new lease of that node in between |
| Fencing.FinalStates | internal/state/state.go:255-318 | COMPLETED and CANCELLED are never left |
| Fencing.CompletesOnce | internal/engine/engine.go:197-209 | A node completes at most once in a history |
| Fencing.HeartbeatIsLastSign | internal/state/state.go:127-142 | The stored heartbeat of a RUNNING node is the time of the last start or heartbeat of that very lease |
| Fencing.ExpiryJustified | internal/engine/engine.go:1081-1117 | A lease expires only when its last sign of life is more than the heartbeat timeout before, although compensation heartbeats share the event type |
| ExpiredLeases.ExpiredLeaseIsDead | internal/engine/engine.go:197-209 | Once a lease expired or was given up, every later report of that node carries a strictly larger attempt: late results never reach the log |
| ExpiredLeases.NeverStartedAgain | internal/engine/engine.go:617-637 | A lease that ended is never started again |
| Growth.CollectSpawned | internal/engine/engine.go:1401-1422 | Accepts exactly the spawns with non-empty ids and activities, pairwise distinct and new to the graph, and returns each as asked for with negative numbers raised to 0 |
| Growth.LinkSpawned | internal/engine/engine.go:1424-1440 | Reports no error exactly when every dependency names an existing or co-spawned other node, and then builds the grown graph |
| Growth.NormalizeSpawnedNodes | internal/engine/engine.go:1396-1446 | Accepts exactly the spawns that are well formed, fresh, closed and keep the whole graph acyclic, and returns each as asked for with negative numbers raised to 0 |
| Growth.SpawnMeans | internal/engine/engine.go:1396-1446 | The accepted spawns, written out: named, distinct, new nodes that depend on other existing or spawned nodes only and close no cycle |
| Growth.DefinitionsStable | internal/state/state.go:293-307 | Nodes are never removed and keep the definition they entered with |
| Growth.CompletionGraph | internal/engine/engine.go:233-257 | A completion grows the dependency graph by exactly its spawned definitions |
| Growth.AcyclicForever | internal/engine/engine.go:1396-1446 | From an acyclic start the graph stays acyclic over every history |
| Growth.RejectedSpawnAddsNothing | internal/engine/engine.go:750-776 | A rejected spawn fails its parent and changes no other node |
| Liveness.ProgressIff | internal/engine/engine.go:675-748 | A forward run, from whatever definition it was started, has a node somebody can act on exactly when some uncompleted node neither is CANCELLED or on a dependency cycle nor depends, through any number of edges, on such a node |
| Liveness.EveryCycleWaits | internal/engine/engine.go:1396-1446 | In every history all nodes on a dependency cycle are PENDING or CANCELLED: none was ever handed out, and no spawn adds a cycle |
| Liveness.DeadlockFreedom | internal/engine/engine.go:675-748 | From an acyclic start, with no worker cancelling its node of an uncancelled run, every non-terminal run at an operation boundary has an enabled step: an enabled node, a RUNNING node, or an active or next compensation, according to the phase; and some poll, approval or monitor sweep then appends something |
| Liveness.StrandedIffNothingEnabled | internal/engine/engine.go:799-813 | A quiescent forward run has nothing enabled exactly when every node is COMPLETED, CANCELLED or PENDING and not all are COMPLETED |
| Liveness.StrandedUntilCancelled | internal/engine/engine.go:675-748 | A stranded run stays stranded until it is cancelled: its log can receive only stale timer firings |
| Liveness.SelfCancelStrands | internal/engine/engine.go:357-378 | The hypothesis on workers is needed: a reachable run is RUNNING with nothing enabled after a worker cancelled its node |
| Liveness.CyclicStartNeverCompletes | internal/workflowdef/loader.go:78-87 | A run of a definition with a longer dependency cycle never completes |
| Liveness.CyclicAccepted | internal/workflowdef/loader.go:78-87 | Such a definition is accepted: two nodes that depend on each other make a reachable run that goes forward, with no node cancelled, and has nothing enabled from the start |
| Liveness.CancelledRunDrains | internal/engine/engine.go:1081-1145 | Once every lease of a cancelled run is overdue, one sweep ends the run as CANCELLED, without any worker's help |
| Liveness.CanAlwaysEnd | internal/engine/engine.go:262-293 | Every run can be ended whatever its workers do: by a cancellation request and, if nodes are still held, one sweep of the lease monitor |
| Compensation.StackIsHistory | internal/state/state.go:275-292 | The stack is exactly the completions of compensable nodes in log order, with distinct nodes, and an entry is done exactly when the log undid it |
| Compensation.ActiveIsHistory | internal/state/state.go:164-197 | The active task is exactly the compensation task the log leaves open, with its worker and attempt |
| Compensation.TaskIsLatest | internal/engine/engine.go:875-934 | A compensation task starts only when none is open, for the latest completed node not yet undone |
| Compensation.TaskReports | internal/engine/engine.go:936-1009 | Every completion, failure and expiry of a compensation task is for the open one, and no node is undone twice or without having completed |
| Compensation.CompletedMeansUndone | internal/engine/engine.go:694-708 | When compensation completes, the nodes undone are exactly the compensable nodes completed, each once |
| Compensation.UndoneInReverse | internal/engine/engine.go:875-886 | A sufficient condition that also fixes the open task: if the stack was final when compensation tasks started, the work is undone from the top downwards, and the open task is for the next entry down |
| Compensation.CompensatedInReverse | internal/engine/engine.go:694-708 | Under that condition the order of undoing, at the end, is the exact reverse of the order of completion |
| Compensation.UndoneInReverseIff | internal/engine/engine.go:875-886 | At any point of any history the nodes undone are the last completed ones in reverse order if and only if no compensable node completed after the first compensation task to be completed was started |
| Compensation.CompensatedInReverseIff | internal/engine/engine.go:694-708 | When compensation completes, the order of undoing is the exact reverse of the order of completion under that condition and only then |
| LateCompletion.UndoneInOrder | internal/engine/engine.go:185-260 | A reachable run violates the condition: a node that was still held completes after the first compensation task was handed out, and the run ends COMPENSATED with its work undone in the order in which it was done |
| Timers.TimersTrack | internal/state/state.go:198-213 | A timer is in the table exactly if the log scheduled it, pending exactly if its latest schedule is unanswered, and described as by that schedule |
| Timers.FiringJustified | internal/engine/engine.go:1147-1176 | Every firing answers the latest schedule of that timer, answered by nothing before, and never comes before the scheduled time |
| Timers.ScheduledFresh | internal/engine/engine.go:1214-1321 | A timer bound to a lease gets an id no timer of the run ever had |
| Timers.ScheduledOnce | internal/engine/engine.go:1214-1321 | No schedule of a lease-bound timer overwrites another timer, ever |
| Timers.Alternates | internal/engine/engine.go:1147-1321 | Per timer id, schedules and firings alternate, starting with a schedule |
| Timers.RetryBound | internal/engine/engine.go:1294-1321 | A node's whole history holds at most max(0, maxAttempts - 1) retry timers, whatever leases expire, checkpoints intervene or processes restart |
| Outcomes.ForwardIff | internal/engine/engine.go:595-600 | A run goes forward exactly while no cancellation request, start of compensation or terminal event is in its log |
| Outcomes.ShutIff | internal/engine/engine.go:262-293 | A run is closed to new work exactly once its log has a cancellation request or a terminal event |
| Outcomes.NoWorkAfterTheEnd | internal/engine/engine.go:595-600 | No lease or start follows a cancellation request, the start of compensation or a terminal event; no compensation task starts and no second request follows a request or a terminal event |
| Outcomes.CancelledAtBoundary | internal/engine/engine.go:679-693 | At every operation boundary a cancelled run that has not ended has no PENDING, READY or AWAITING_APPROVAL node and waits for some RUNNING one |
| Outcomes.CancelledForever | internal/engine/engine.go:679-693 | When cancellation completes every node is COMPLETED, FAILED or CANCELLED, and no later event changes any node |
| Outcomes.SecondEnding | internal/engine/engine.go:967-1009 | A second terminal event can only be the failure of the compensation task that was active when the run was cancelled |
| Outcomes.TerminalKept | internal/engine/engine.go:675-748 | A terminal run stays terminal, and its state changes at most from CANCELLED to FAILED after a late cancellation |
| Outcomes.EndsOnce | internal/engine/engine.go:675-748 | Without a cancellation request after the start of compensation a log has at most one terminal event and the run state never changes after it |
| Outcomes.TerminalActiveIsCancelled | internal/engine/engine.go:270-289 | A terminal run with an active compensation task is CANCELLED, after a late cancellation |
| Endings.EndedChangesIff | internal/engine/engine.go:967-1009 | An operation changes the state of an ended run if and only if it is the accepted failure report of an active compensation task; the run was CANCELLED and becomes FAILED |
| Endings.CancelledThenFailed | internal/engine/engine.go:270-289 | Such a run is reachable: cancelled while a compensation task is active, then failed by that task's report |
| Dispatching.OffersIff | internal/engine/engine.go:594-673 | A claim hands out a task, and appends something, exactly when the run holds one for this worker; a forward run hands out its least READY node of a handled activity with the next attempt number |
| Dispatching.OfferedIsHanded | internal/engine/engine.go:594-673 | A task is offered exactly if one may be handed out, and it is that one: going forward, the least READY node whose activity the worker is registered for, with that activity and the next attempt; unwinding with no task open, the last completed node not yet undone, with the compensation its definition names |
| Dispatching.HandedOne | internal/engine/engine.go:594-673 | What may be handed out is determined: there is never a choice |
| Results.CompleteAnswer | internal/engine/engine.go:185-236 | A completion report is answered NoError, run cancelled or invalid spawn exactly while its lease is held, whether or not the run has ended, each under its exact condition; otherwise each refusal has its exact cause; something is appended exactly if it is accepted or its spawn is invalid |
| Results.FailAnswer | internal/engine/engine.go:332-356 | Likewise for a failure or cancellation report |
| Results.CompensationAnswer | internal/engine/engine.go:936-1009 | A report on a compensation task is accepted exactly while that task is open under the reported worker and attempt, in any run |
| Results.CompletionResult | internal/engine/engine.go:238-259 | An accepted completion leaves its node COMPLETED and, if compensable, on the stack; each spawned node in the graph with what was asked for, newly entered; exactly the nodes that waited for this one alone READY; and the run settled |
| Results.InvalidSpawnResult | internal/engine/engine.go:750-776 | A rejected spawn leaves its node FAILED, adds no node, and the run settled |
| Results.CheckpointResult | internal/engine/engine.go:210-232 | A checkpoint leaves its node AWAITING_APPROVAL and nobody's; its timeout is armed, and a second event appended, exactly if the definition asks for one; nothing else changes |
| Results.CompensationResult | internal/engine/engine.go:936-965 | A completed compensation task leaves its entry done, no task open, and the run settled |
| Results.FailResult | internal/engine/engine.go:380-411 | An accepted failure leaves its node FAILED; the backoff is armed exactly if the report allows a retry and the policy has attempts left, and the run then stays as it is; otherwise no timer is, and the run settles unless another backoff is pending |
| Results.CancelledTaskResult | internal/engine/engine.go:357-378 | A cancelled task leaves its node CANCELLED and nobody's, and the run settled |
| Results.CompensationFailure | internal/engine/engine.go:967-1009 | A failed compensation task leaves no task open, the stack as it was and the run FAILED |
| Results.AdvanceSettles | internal/engine/engine.go:675-748 | Which run-level transition is due, read by the state the run ends up in, and the finishing time it gets |
| Results.ReconcileResult | internal/engine/engine.go:148-158 | Reconciling leaves an ended run alone; otherwise, under a request for cancellation, every waiting node becomes CANCELLED, and the run settles |
| Results.CancelResult | internal/engine/engine.go:262-293 | A request for cancellation has no effect exactly on a run that has ended or was asked before; otherwise it is recorded, every waiting node becomes CANCELLED, and the run settles |
| Results.ApproveResult | internal/engine/engine.go:295-330 | An approval is accepted exactly for a node AWAITING_APPROVAL of a run that has not ended; the node is then READY and nobody's, and nothing else changes |
| Results.ApprovalEffect | internal/engine/engine.go:295-330 | After an approval the run holds a task for every worker that handles the node, and the timeout it was waiting under no longer changes any node |
| Results.ClaimResult | internal/engine/engine.go:594-673 | A claim of a run going forward leaves the node RUNNING under the worker and the task's attempt from the moment of its start, with exactly the deadlines its definition asks for, and changes nothing else |
| Results.CompensationClaimResult | internal/engine/engine.go:875-934 | A claim of a run that unwinds opens the task under the worker, gives its entry the task's attempt, and changes nothing else |
| Results.HeartbeatResult | internal/engine/engine.go:413-472 | A heartbeat sets exactly the heartbeats of what the worker holds in the run, and leaves an ended run alone |
| Results.ExpireResult | internal/engine/engine.go:1081-1145 | A lease sweep makes exactly the silent RUNNING nodes READY and nobody's, closes the compensation task exactly if its worker was silent, and reconciles the run exactly if something expired |
| Results.OpStamped | internal/engine/engine.go:185-411 | Every event of a request or a poll is stamped by one clock reading made for it |
| Effects.ClaimedTaskReportable | internal/engine/engine.go:567-673 | A task handed out by a poll is one whose report the engine accepts next |
| Effects.ReportConsumesLease | internal/engine/engine.go:185-411 | A lease can be reported on once: after an accepted completion, checkpoint, failure or cancellation the same report is refused and appends nothing |
| Effects.CompensationReportConsumesTask | internal/engine/engine.go:936-965 | The same for a compensation task, whose entry is done afterwards |
| Effects.HeartbeatRenewsAll | internal/engine/engine.go:413-472 | A heartbeat renews every lease and compensation task of the worker in a run, and no other node |
| Effects.SweepLeavesNoneOverdue | internal/engine/engine.go:1081-1138 | After a lease sweep no lease and no compensation task is overdue, and no lease that was not overdue is touched |
| Deadlines.ClaimArms | internal/engine/engine.go:1214-1267 | A claim arms the execution deadline of the new attempt and leaves an absolute deadline pending, each exactly if the definition asks for it, and no other timer |
| Deadlines.CheckpointArms | internal/engine/engine.go:1269-1292 | A checkpoint leaves the node AWAITING_APPROVAL with its timeout armed for that attempt exactly if the definition asks for one; otherwise it appends one event and leaves the timers alone |
| Deadlines.FailureArmsRetry | internal/engine/engine.go:398-411 | A retryable failure with attempts left arms the backoff, leaves the node FAILED and the run as it was |
| Deadlines.SweepFiresAllDue | internal/engine/engine.go:1147-1212 | After a timer sweep of a run that has not ended no due timer is left unfired |
| Deadlines.FiringEffect | internal/engine/engine.go:1165-1203 | An execution deadline fails its node exactly if it is RUNNING under the timer's attempt, a checkpoint timeout exactly if it is AWAITING_APPROVAL under it, an absolute deadline exactly if it is READY, RUNNING or AWAITING_APPROVAL, and the run is then reconciled; a backoff makes its node READY exactly if it stands FAILED with that attempt; otherwise the timer is marked and nothing else changes |
| Deadlines.SweepEnforces | internal/engine/engine.go:1147-1212 | After a timer sweep of a run that has not ended, no node is still RUNNING under an attempt whose execution deadline, and none still AWAITING_APPROVAL under an attempt whose timeout, had come due unfired when the sweep began |
| Deadlines.SweepComplete | internal/engine/engine.go:1147-1212 | After the sweep and its reconcile no due timer is left unfired unless the run has ended, and nothing is appended exactly if none was due |
| Deadlines.TimersAsked | internal/engine/engine.go:1214-1321 | Over every history each timer in the table belongs to a node whose definition has that duration above 0, or a policy with attempts left |
| AbsoluteDeadlines.TimedOutForever | internal/engine/engine.go:1178-1203 | A node failed by a deadline is never retried, leased or failed again |
| AbsoluteDeadlines.RearmedOnlyAfterMiss | internal/engine/engine.go:1240-1267 | The absolute deadline of a node is armed again only after a firing of it that found the node FAILED, or whose failure the process did not live to record |
| AbsoluteDeadlines.RearmsIff | internal/engine/engine.go:1240-1267 | For a READY node whose deadline was armed before: the next lease will arm it again if and only if a firing since the last arming missed |
| AbsoluteDeadlines.DeadlineExtended | internal/engine/engine.go:1240-1267 | The rule that the absolute deadline cannot be extended fails: a reachable history arms it for time 1, fires it while the node waits for its retry, and arms it again for time 11 |
| Crashes.CrashLosesRetry | internal/engine/engine.go:380-411 | A retryable failure with attempts left appends two events and keeps the run RUNNING with a retry pending; cut after k of them, recovery appends something if and only if k = 1, and then exactly the start of compensation or the failure of the run |
| Crashes.RetryLost | internal/engine/engine.go:380-411 | Such a run is reachable: a node with two attempts, claimed once; whole, its report leaves the run RUNNING, cut after the first append, recovery makes it FAILED |
| Recovery.ReconcileResumes | internal/engine/engine.go:148-158 | Reconcile, cut after any number of events and started again, appends exactly the rest |
| Recovery.RecoveryCompletesIff | internal/engine/engine.go:1323-1340 | For every operation and every cut: recovery reaches the state the whole operation would have reached, up to time stamps, if and only if all the events lost are run-level transitions and cancellations of nodes nobody holds; it then appends those very events, up to time stamps, and the states differ at most in the finishing time |
| Recovery.HarmlessCuts | internal/engine/engine.go:185-673 | Which cuts those are: a claim, heartbeat, approval, checkpoint or failed compensation task must be appended whole; of any other report or a cancellation request the first event is enough, or the first two where a backoff was armed |
| Engine.Engine.AppendAt | internal/wal/wal.go:57-115 | One append reaches the store, the run's subscribers and the in-memory state together, and nothing else in the store changes |
| Engine.Engine.AdvanceRunStateLocked | internal/engine/engine.go:675-748 | Appends the one run-level transition that is due, or nothing |
| Engine.Engine.CancelEligibleNodesLocked | internal/engine/engine.go:845-873 | The in-place loop appends the specified cancellations, in ascending node order |
| Engine.Engine.ReconcileRunLocked | internal/engine/engine.go:148-158 | Refines the specified reconcile |
| Engine.Engine.Rehydrate | internal/engine/engine.go:1032-1049 | Fails exactly for a snapshot that cannot be decoded; from a copy of any prefix, and without a snapshot or with a wrong checksum, the rebuilt state is that of the whole log |
| Engine.Engine.LoadStateLocked | internal/engine/engine.go:1011-1030 | Finds the in-memory run, or rebuilds it from its log; fails exactly for a corrupt log, an empty log or an undecodable snapshot, each with its own error |
| Engine.Engine.LoadPersistedRuns | internal/engine/engine.go:1323-1340 | A persisted run ends up in memory if and only if its log is clean and not empty and its snapshot is not undecodable; it then equals its log extended by exactly its reconciliation, and every other file is left as it was |
| Engine.Engine.constructor | internal/engine/engine.go:61-75 | Over what a stopped engine left (Restarts.StoppedLeavesBehind) the new engine satisfies its invariant: each in-memory state is the replay of its log, each such log is reachable and quiescent, a run not in memory has no log or one that cannot be loaded, copies are states of prefixes, and subscribers follow their logs |
| Restarts.StoppedLeavesBehind | internal/snapshot/store.go:45-75 | An engine stopped at any moment -- after any prefix of any operation on any run, in the middle of a record, or while writing a snapshot -- leaves what a new engine can be started over |
| Restarts.RecoveryLeavesBehind | internal/engine/engine.go:1323-1340 | The same when the process dies while recovering a run |
| Restarts.Restart | internal/engine/engine.go:61-75 | From crash to service: over whatever a stopped engine left, the new one serves exactly the runs with a clean log and a snapshot that decodes, each at its log extended by its reconciliation |
| Restarts.LoseRun | internal/engine/engine.go:1333-1336 | The condition is not idle: any served run is lost when the process dies while saving its snapshot or in the middle of a record; the next process serves all others and answers every request for this run with an error |
| Restarts.FirstRunLost | internal/snapshot/store.go:71-73 | A concrete one: a fresh engine, one run, and a process that dies while saving its first snapshot |
| Engine.Engine.CountActiveRuns | internal/engine/engine.go:124-133 | Counts the runs that have not ended |
| Engine.Engine.StartRun | internal/engine/engine.go:84-122 | Under a fresh run id refused exactly at capacity or for a malformed definition; otherwise the log holds one start event with the definition as given, the snapshot its state, and the number of active runs stays within the capacity |
| Engine.Engine.RegisterWorker | internal/worker/registry.go:29-46 | Refused exactly for an empty worker id or no activities |
| Engine.Engine.GetRun | internal/engine/engine.go:474-501 | Shows the replay of the log of a run in memory; for any other run the error says exactly whether its log is corrupt, absent or next to an undecodable snapshot |
| Engine.Engine.SubscribeEvents | internal/engine/engine.go:514-544 | A subscription keeps the engine's invariant and is refused exactly for runs without a readable event |
| Engine.FeedActs | internal/wal/wal.go:110-271 | Any step of a subscription -- fetching, delivering, dropping, closing, unregistering -- keeps the whole engine's invariant |
| Engine.Engine.FetchEvent | internal/wal/wal.go:248-261 | The delivery goroutine's fetch is the step of the protocol on the run's feed and keeps the engine's invariant |
| Engine.Engine.DeliverEvent | internal/wal/wal.go:240-241 | Likewise for the delivery of the offered event |
| Engine.Engine.AbandonEvent | internal/wal/wal.go:242-243 | Likewise for giving up on the offered event |
| Engine.Engine.CancelSubscription | internal/wal/wal.go:263-271 | Likewise for closing |
| Engine.Engine.ForgetSubscriber | internal/wal/wal.go:194-206 | Likewise for unregistering |
| Engine.Engine.CompleteTask | internal/engine/engine.go:185-260 | On a run in memory: the specified error and events, state, log and snapshot in step, all other logs and snapshots untouched, the engine's invariant kept; on any other run the error of the load, and nothing changes |
| Engine.Engine.FailTask | internal/engine/engine.go:332-411 | Likewise for failures and cancellations reported by workers |
| Engine.Engine.CancelRun | internal/engine/engine.go:262-293 | Likewise for cancellation requests |
| Engine.Engine.ApproveCheckpoint | internal/engine/engine.go:295-330 | Likewise for approvals |
| Engine.Engine.Heartbeat | internal/engine/engine.go:413-472 | Every run receives the specified heartbeats, in some map order; an unknown worker changes nothing |
| Engine.Engine.TryClaimTask | internal/engine/engine.go:567-592 | No task exactly when no run holds one for this worker, and then nothing changes; otherwise the least such run id is served, with the one task that may be handed out, and only that run's log and snapshot change |
| Engine.Engine.ExpireOverdueLeases | internal/engine/engine.go:1081-1145 | Every run is swept as specified, in some map order |
| Engine.Engine.FireDueTimers | internal/engine/engine.go:1147-1212 | Every run's due timers fire as specified, in some map order |

## Left out

- File input and output, JSON and CRC bytes: a log file is a sequence of readable or corrupt records, a snapshot is a copy of a state at some log prefix, a file with a wrong checksum, or one that cannot be read or decoded. A record cut off in the middle reads as corrupt; a record that lacks only its line end, and the scanner's line limit, are not modelled.
- The error branches after a failed append or a failed snapshot write. An error from `Apply` after an append is not modelled as a branch because it cannot occur (`Logs.ApplyNeverErrors`).
- Files that change under a running engine: a log or snapshot damaged after its run was loaded.
- SHA-256 and the definition hash value, node and workflow inputs and outputs, error texts, creation times, the workflow name kept in the state: data that no decision of the engine reads.
- Wall clocks, tickers, goroutines and the waiting of `PollTask`, `WaitForQuiescence` and the subscriber's condition variable: time is a parameter, a blocked step is one that is not enabled.
- Code that runs without the engine's lock: the capacity check of `StartRun` against concurrent starts and the rehydration in `GetRun` against concurrent operations.
- `internal/worker/registry.go` beyond registration and `CanHandle`; last-seen times are not kept.
- The gRPC server, the command line, the API facade, the SDK, the demo and the web UI: thin wrappers over the operations modelled here, or projections of the log.
- `SKIPPED` and `TIMED_OUT` states, skip conditions, sub-workflows, admission and memory: described in the documentation, not in the code.
- Unconditional termination of a run: lease expiries and checkpoints allow any number of attempts. `Liveness.CanAlwaysEnd` shows that it can always be ended.
- State.ExecutionState.Apply: nodes and timers are values in a map field of the run, where the source keeps pointers; no code of the source holds such a pointer across an update of another node. A heartbeat is absent where the source stores the zero time, so a clock that returns the zero time is not represented.
- Engine.Engine.ExpireOverdueLeases: the source skips the expiry of a compensation task whose heartbeat is the zero time, which an append never stores.
- Engine.Engine.StartRun: run ids are taken as fresh (no log file of that name), where the source derives them from the workflow name and the nanosecond clock.
- Wal.Store.Subscribe: subscribers of all runs are kept in one map by their store-wide id, where the source keeps a map per run.
- Fencing.LeasesDistinct: assumes fewer than 2^32 leases of the node, beyond which the 32-bit attempt counter wraps; `Fencing.LeaseNumbers` gives the numbers in general. The same bound is assumed in `ExpiredLeases.ExpiredLeaseIsDead`, `ExpiredLeases.NeverStartedAgain`, `Timers.ScheduledFresh`, `Timers.ScheduledOnce`, `Timers.Alternates`, `Timers.RetryBound`, `AbsoluteDeadlines.TimedOutForever`, `AbsoluteDeadlines.RearmedOnlyAfterMiss`, `AbsoluteDeadlines.RearmsIff` and `Crashes.CrashLosesRetry`.
- Compensation.UndoneInReverse: the sufficient condition only; `Compensation.UndoneInReverseIff` gives the exact one.
- Recovery.HarmlessCuts: the sweeps of the monitors are not listed, because their cuts depend on what was due; `Recovery.RecoveryCompletesIff` covers them.
