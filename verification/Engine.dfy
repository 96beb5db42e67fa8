/** The engine: in-memory run states, the event store behind them, and the locked
    operations that keep the two in step (internal/engine/engine.go). */
module Engine {
  import opened Runtime
  import opened State
  import opened Strings
  import opened TimerIds
  import opened Workflowdef
  import opened EngineSpec
  import opened Guards
  import opened Invariant
  import opened Logs
  import opened Operations
  import opened Quiescence
  import opened Runs
  import opened Dispatching
  import opened Steps
  import Growth
  import Results
  import Sets
  import Wal

  type World = imap<string, (seq<Wal.Record>, Wal.Feed)>

  // Where a run stood when an operation on it began, and what all other runs hold.
  datatype Mark = Mark(origin: RunData, before: seq<Event>, others: World)

  // A snapshot file: a copy of a state, one whose checksum does not match its
  // contents, or one that cannot be read or decoded.
  datatype Snapshot = Copy(state: RunData) | BadChecksum | Undecodable

  ghost predicate TakenAt(s: RunData, log: seq<Event>, k: nat) {
    0 < k <= |log| && s == StateOf(log[..k])
  }

  /** A copy shows the state some prefix of the log replays to. */
  ghost predicate CopiesPrefix(snapshots: map<string, Snapshot>, r: string, log: seq<Event>) {
    r in snapshots && snapshots[r].Copy? ==> exists k: nat :: TakenAt(snapshots[r].state, log, k)
  }

  class Engine {
    const wal: Wal.Store
    var workers: Registry
    var runs: map<string, ExecutionState>
    var snapshots: map<string, Snapshot>
    const maxActiveRuns: int

    function Log(r: string): seq<Event>
      reads wal`files
    {
      wal.Log(r)
    }

    // The logs and subscribers of every other run.
    ghost function Others(r: string): World
      reads wal`files, wal`subscribers, wal.subscribers.Values
    {
      imap q: string | q != r :: (wal.File(q), wal.FeedOf(q))
    }

    // ---- Appending one event ----

    // A run whose log is clean and as long as its state says.
    ghost predicate InStep(st: ExecutionState)
      reads wal`files, wal`subscribers, wal`nextSubID, wal.subscribers.Values, st
    {
      && wal.Valid()
      && Wal.Clean(wal.File(st.runId))
      && st.lastSeq == |Log(st.runId)|
      && Inv(st.Value())
      && Wal.FeedInv(wal.FeedOf(st.runId))
    }

    /** Since the mark exactly these events were appended to the run of `st`, its
        state followed them, and nothing else in the store changed. */
    ghost predicate Since(st: ExecutionState, m: Mark, events: seq<Event>)
      reads wal`files, wal`subscribers, wal`nextSubID, wal.subscribers.Values, st
    {
      && InStep(st)
      && st.runId == m.origin.runId
      && st.Value() == Replay(m.origin, events)
      && Log(st.runId) == m.before + events
      && Others(st.runId) == m.others
    }

    method StoreEvent(e: Event) returns (stored: Event)
      requires wal.Valid() && Wal.Clean(wal.File(e.runId))
      modifies wal`files, wal.subscribers.Values
      ensures wal.Valid() && stored == e.(seqNo := |old(Log(e.runId))| + 1)
      ensures wal.File(e.runId) == old(wal.File(e.runId)) + [Wal.Readable(stored)]
      ensures wal.FeedOf(e.runId) == Wal.Act(old(wal.FeedOf(e.runId)), Wal.Action.Append(stored))
      ensures Others(e.runId) == old(Others(e.runId))
    {
      hide Wal.Act, Wal.Clean, Wal.ValidPrefix, Wal.Store.Valid, Wal.Store.FeedOf;
      stored := wal.Append(e);
    }

    // To the store and its subscribers.
    method AppendEvent(e: Event) returns (stored: Event)
      requires wal.Valid() && Wal.Clean(wal.File(e.runId)) && Wal.FeedInv(wal.FeedOf(e.runId))
      modifies wal`files, wal.subscribers.Values
      ensures wal.Valid() && Wal.Clean(wal.File(e.runId)) && Wal.FeedInv(wal.FeedOf(e.runId))
      ensures stored == e.(seqNo := |old(Log(e.runId))| + 1)
      ensures Log(e.runId) == old(Log(e.runId)) + [stored]
      ensures Others(e.runId) == old(Others(e.runId))
    {
      ghost var expected := e.(seqNo := |Log(e.runId)| + 1);
      Wal.AppendVisible(wal.File(e.runId), expected);
      FeedKept(wal.FeedOf(e.runId), expected);
      hide Wal.FeedInv, Wal.Act, Wal.Enabled, Wal.ValidPrefix, Wal.Store.Valid, Wal.Store.FeedOf, Wal.Store.File, Others;
      stored := StoreEvent(e);
    }

    // One event: to the store, to the subscribers, then to the state.
    method AppendAt(st: ExecutionState, t: Time, p: Payload, ghost last: Payload, ghost m: Mark, ghost done: seq<Event>)
      requires Since(st, m, done) && Legal(last, Replay(m.origin, done), EmitAt(Replay(m.origin, done), t, p))
      modifies st, wal`files, wal.subscribers.Values
      ensures Since(st, m, done + [EmitAt(Replay(m.origin, done), t, p)])
    {
      hide Legal, Inv, Step, ApplyEvent, Replay, Log, Others, Wal.FeedInv, Wal.Clean, Wal.Store.Valid, Wal.Store.File, Wal.Store.FeedOf;
      InvKept(last, st.Value(), EmitAt(st.Value(), t, p));
      ReplaySnoc(m.origin, done, EmitAt(st.Value(), t, p));
      var stored := AppendEvent(Event(0, st.runId, t, p));
      var ok := st.Apply(stored);
    }

    method AppendNow(st: ExecutionState, p: Payload, clock: Clock, ghost last: Payload, ghost m: Mark, ghost done: seq<Event>)
      requires Since(st, m, done) && Legal(last, Replay(m.origin, done), Emit(Replay(m.origin, done), clock, p))
      modifies st, wal`files, wal.subscribers.Values
      ensures Since(st, m, done + [Emit(Replay(m.origin, done), clock, p)])
    {
      hide Since, Legal, Step, Replay;
      Now(this, st, m, done);
      AppendAt(st, clock(st.lastSeq + 1), p, last, m, done);
    }

    // ---- Run-level transitions ----

    method AdvanceRunStateLocked(st: ExecutionState, clock: Clock, ghost m: Mark, ghost done: seq<Event>)
      requires Since(st, m, done)
      modifies st, wal`files, wal.subscribers.Values
      ensures Since(st, m, done + Advance(Replay(m.origin, done), clock))
    {
      hide Since, Legal, Inv, Step, Replay, AllNodesTerminal, AllNodesCompleted, HasUnrecoveredFailure, HasCompensationWork, NextEntry;
      Now(this, st, m, done);
      AdvanceStep(st.Value(), clock);
      assert done + [] == done;
      if st.IsTerminal() { return; }
      var due: Payload;
      if st.cancelRequested {
        if !AllNodesTerminal(st.Value()) { return; }
        due := CancellationCompleted;
      } else if st.runState.RunCompensating? {
        if NextEntry(st.Value()).Some? || st.active.Some? { return; }
        due := CompensationCompleted;
      } else if AllNodesCompleted(st.Value()) {
        due := WorkflowCompleted;
      } else if HasUnrecoveredFailure(st.Value()) {
        due := if HasCompensationWork(st.Value()) then CompensationStarted else WorkflowFailed;
      } else {
        return;
      }
      AppendNow(st, due, clock, ANY, m, done);
    }

    method CancelEligibleNodesLocked(st: ExecutionState, clock: Clock, ghost m: Mark, ghost done: seq<Event>)
      requires Since(st, m, done) && !st.IsTerminal() && st.cancelRequested
      modifies st, wal`files, wal.subscribers.Values
      ensures Since(st, m, done + CancelEligible(Replay(m.origin, done), clock))
    {
      hide Since, Legal, Inv, Step, Replay, CancelNodes, Sorted;
      Now(this, st, m, done);
      SortedMembers(st.nodes.Keys);
      ghost var s := Replay(m.origin, done);
      var nodeIDs := SortKeys(st.nodes.Keys);
      ghost var events := done;
      assert nodeIDs[0..] == nodeIDs;
      for i := 0 to |nodeIDs|
        invariant Since(st, m, events)
        invariant var t := Replay(m.origin, events); !t.Terminal() && t.cancelRequested && t.nodes.Keys == s.nodes.Keys
        invariant events + CancelNodes(Replay(m.origin, events), clock, nodeIDs[i..]) == done + CancelNodes(s, clock, nodeIDs)
      {
        Now(this, st, m, events);
        CancelHead(st.Value(), clock, nodeIDs, i);
        var node := st.nodes[nodeIDs[i]];
        if node.state.Pending? || node.state.Ready? || node.state.AwaitingApproval? {
          ghost var e := Emit(st.Value(), clock, NodeCancelled(nodeIDs[i], "", 0));
          ReplaySnoc(m.origin, events, e);
          AppendNow(st, NodeCancelled(nodeIDs[i], "", 0), clock, ANY, m, events);
          events := events + [e];
        }
      }
      assert nodeIDs[|nodeIDs|..] == [];
      NoIdsLeft(Replay(m.origin, events), clock);
      assert events + [] == events;
    }

    method ReconcileRunLocked(st: ExecutionState, clock: Clock, ghost m: Mark, ghost done: seq<Event>)
      requires Since(st, m, done)
      modifies st, wal`files, wal.subscribers.Values
      ensures Since(st, m, done + Reconcile(Replay(m.origin, done), clock))
    {
      hide Since, Legal, Inv, Step, Replay, CancelEligible, Advance;
      Now(this, st, m, done);
      ghost var s := Replay(m.origin, done);
      NoEvents(s);
      assert done + [] == done;
      if st.IsTerminal() { return; }
      ghost var cancelled := if s.cancelRequested then CancelEligible(s, clock) else [];
      if st.cancelRequested {
        CancelEligibleNodesLocked(st, clock, m, done);
      }
      ReplayConcat(m.origin, done, cancelled);
      AdvanceRunStateLocked(st, clock, m, done + cancelled);
      assert done + cancelled + Advance(Replay(s, cancelled), clock) == done + (cancelled + Advance(Replay(s, cancelled), clock));
    }

    // ---- Worker reports ----

    method CheckLease(st: ExecutionState, worker: string, node: string, attempt: uint32) returns (error: Error)
      ensures error == LeaseCheck(st.Value(), worker, node, attempt)
    {
      if node !in st.nodes { return TaskNotFound; }
      var n := st.nodes[node];
      if n.attempt == attempt && !n.state.Running? { return LeaseLost; }
      if !n.state.Running? || n.worker != worker || n.attempt != attempt { return AttemptMismatch; }
      return NoError;
    }

    method CheckActive(st: ExecutionState, worker: string, node: string, attempt: uint32) returns (error: Error)
      ensures error == ActiveCheck(st.Value(), worker, node, attempt)
    {
      if st.active.None? { return TaskNotFound; }
      var active := st.active.value;
      if active.node != node || active.worker != worker || active.attempt != attempt { return AttemptMismatch; }
      return NoError;
    }

    // The common tail of a report: append, apply, advance the run.
    method ReportLocked(st: ExecutionState, p: Payload, clock: Clock, ghost m: Mark, ghost done: seq<Event>)
      requires Since(st, m, done) && Legal(ANY, Replay(m.origin, done), Emit(Replay(m.origin, done), clock, p))
      modifies st, wal`files, wal.subscribers.Values
      ensures var s := Replay(m.origin, done); Since(st, m, done + ThenAdvance(s, clock, [Emit(s, clock, p)]))
    {
      hide Since, Legal, Inv, Step, Replay, Advance, ThenAdvance;
      ghost var s := Replay(m.origin, done);
      ghost var e := Emit(s, clock, p);
      ReplayReport(s, clock, e);
      ReplaySnoc(m.origin, done, e);
      AppendNow(st, p, clock, ANY, m, done);
      AdvanceRunStateLocked(st, clock, m, done + [e]);
      assert done + [e] + Advance(Step(s, e), clock) == done + ([e] + Advance(Step(s, e), clock));
    }

    method CompleteCompensationTaskLocked(st: ExecutionState, req: CompleteRequest, clock: Clock, ghost m: Mark) returns (error: Error)
      requires Since(st, m, [])
      modifies st, wal`files, wal.subscribers.Values
      ensures error == CompleteCompensation(m.origin, req, clock).error
      ensures Since(st, m, CompleteCompensation(m.origin, req, clock).events)
    {
      hide Since, Legal, Inv, Step, Replay, ThenAdvance;
      Begin(this, st, m);
      CompensationReportLegal(m.origin, req.node, req.worker, req.attempt, clock);
      error := CheckActive(st, req.worker, req.node, req.attempt);
      if error != NoError { return; }
      ReportLocked(st, CompensationTaskCompleted(req.node, req.worker, req.attempt), clock, m, []);
    }

    method ScheduleCheckpointTimeoutLocked(
        st: ExecutionState, n: string, def: NodeDef, a: uint32, clock: Clock, ghost last: Payload, ghost m: Mark, ghost done: seq<Event>)
      requires Since(st, m, done)
      requires var s := Replay(m.origin, done); var timer := CheckpointTimer(s, clock, n, def, a); timer != [] ==> Legal(last, s, timer[0])
      modifies st, wal`files, wal.subscribers.Values
      ensures Since(st, m, done + CheckpointTimer(Replay(m.origin, done), clock, n, def, a))
    {
      hide Since, Legal, Inv, Step, Replay, TimerId;
      Now(this, st, m, done);
      assert done + [] == done;
      if def.checkpointTimeout <= 0 { return; }
      var now := clock(st.lastSeq + 1);
      AppendAt(st, now, TimerScheduled(TimerId(st.runId, n, a, CheckpointTimeout), n, a, CheckpointTimeout, now + def.checkpointTimeout), last, m, done);
    }

    method ReachCheckpointLocked(st: ExecutionState, req: CompleteRequest, clock: Clock, ghost m: Mark)
      requires Since(st, m, []) && Holds(m.origin, req.node, req.worker, req.attempt) && !m.origin.cancelRequested
      modifies st, wal`files, wal.subscribers.Values
      ensures Since(st, m, CheckpointEvents(m.origin, req, clock))
    {
      hide Since, Legal, Inv, Step, Replay, CheckpointTimer, CheckpointEvents;
      Begin(this, st, m);
      CheckpointFacts(m.origin, req, clock);
      var def := st.nodes[req.node].def;
      ghost var e := Emit(m.origin, clock, CheckpointReached(req.node, req.worker, req.attempt));
      ReplaySnoc(m.origin, [], e);
      AppendNow(st, CheckpointReached(req.node, req.worker, req.attempt), clock, ANY, m, []);
      assert [] + [e] == [e];
      ScheduleCheckpointTimeoutLocked(st, req.node, def, req.attempt, clock, e.payload, m, [e]);
    }

    method CompleteTaskLocked(st: ExecutionState, req: CompleteRequest, clock: Clock, ghost m: Mark) returns (error: Error)
      requires Since(st, m, [])
      modifies st, wal`files, wal.subscribers.Values
      ensures error == EngineSpec.CompleteTask(m.origin, req, clock).error
      ensures Since(st, m, EngineSpec.CompleteTask(m.origin, req, clock).events)
    {
      hide Since, Legal, Inv, Step, Replay, ThenAdvance, CheckpointTimer, SpawnOk, CompleteCompensation;
      Begin(this, st, m);
      if req.compensation {
        error := CompleteCompensationTaskLocked(st, req, clock, m);
        return;
      }
      error := CheckLease(st, req.worker, req.node, req.attempt);
      if error != NoError { return; }
      if st.cancelRequested { return RunIsCancelled; }
      if req.checkpoint {
        ReachCheckpointLocked(st, req, clock, m);
        return;
      }
      CompletionLegal(m.origin, req, clock);
      var spawned := Growth.NormalizeSpawnedNodes(st.nodes, req.spawned);
      if spawned.Rejected? {
        ReportLocked(st, NodeFailed(req.node, req.worker, req.attempt, false, false), clock, m, []);
        return InvalidSpawn;
      }
      ReportLocked(st, NodeCompleted(req.node, req.worker, req.attempt, spawned.defs), clock, m, []);
    }

    method FailCompensationTaskLocked(st: ExecutionState, req: FailRequest, clock: Clock, ghost m: Mark) returns (error: Error)
      requires Since(st, m, [])
      modifies st, wal`files, wal.subscribers.Values
      ensures error == FailCompensation(m.origin, req, clock).error
      ensures Since(st, m, FailCompensation(m.origin, req, clock).events)
    {
      hide Since, Legal, Inv, Step, Replay;
      Begin(this, st, m);
      CompensationFailureFacts(m.origin, req, clock);
      error := CheckActive(st, req.worker, req.node, req.attempt);
      if error != NoError { return; }
      ghost var e := Emit(m.origin, clock, CompensationTaskFailed(req.node, req.worker, req.attempt));
      ReplaySnoc(m.origin, [], e);
      AppendNow(st, CompensationTaskFailed(req.node, req.worker, req.attempt), clock, ANY, m, []);
      assert [] + [e] == [e];
      AppendNow(st, WorkflowFailed, clock, e.payload, m, [e]);
    }

    method ScheduleRetryTimerLocked(
        st: ExecutionState, n: string, def: NodeDef, a: uint32, retryNow: Time, clock: Clock, ghost last: Payload, ghost m: Mark, ghost done: seq<Event>)
      requires Since(st, m, done)
      requires var s := Replay(m.origin, done); var timer := RetryTimer(s, clock, n, def, a, retryNow); timer != [] ==> Legal(last, s, timer[0])
      modifies st, wal`files, wal.subscribers.Values
      ensures Since(st, m, done + RetryTimer(Replay(m.origin, done), clock, n, def, a, retryNow))
    {
      hide Since, Legal, Inv, Step, Replay, TimerId;
      Now(this, st, m, done);
      assert done + [] == done;
      if def.retry.None? || def.retry.value.maxAttempts <= 1 { return; }
      if a >= def.retry.value.maxAttempts { return; }
      var fireAt := retryNow + def.retry.value.backoff;
      AppendNow(st, TimerScheduled(TimerId(st.runId, n, a, RetryBackoff), n, a, RetryBackoff, fireAt), clock, last, m, done);
    }

    // The failure and, for a retryable one with attempts left, its backoff timer.
    method RecordFailureLocked(st: ExecutionState, req: FailRequest, retryNow: Time, clock: Clock, ghost m: Mark)
      requires Since(st, m, []) && Holds(m.origin, req.node, req.worker, req.attempt) && !m.origin.cancelRequested
      modifies st, wal`files, wal.subscribers.Values
      ensures Since(st, m, FailureEvents(m.origin, req, retryNow, clock))
    {
      hide Since, Legal, Inv, Step, Replay, RetryTimer, FailureEvents;
      Begin(this, st, m);
      FailureFacts(m.origin, req, retryNow, clock);
      var def := st.nodes[req.node].def;
      ghost var e := Emit(m.origin, clock, NodeFailed(req.node, req.worker, req.attempt, req.retryable, false));
      ReplaySnoc(m.origin, [], e);
      AppendNow(st, NodeFailed(req.node, req.worker, req.attempt, req.retryable, false), clock, ANY, m, []);
      assert [] + [e] == [e];
      if req.retryable {
        ScheduleRetryTimerLocked(st, req.node, def, req.attempt, retryNow, clock, e.payload, m, [e]);
      }
    }

    method FailTaskLocked(st: ExecutionState, req: FailRequest, retryNow: Time, clock: Clock, ghost m: Mark) returns (error: Error)
      requires Since(st, m, [])
      modifies st, wal`files, wal.subscribers.Values
      ensures error == EngineSpec.FailTask(m.origin, req, retryNow, clock).error
      ensures Since(st, m, EngineSpec.FailTask(m.origin, req, retryNow, clock).events)
    {
      hide Since, Legal, Inv, Step, Replay, ThenAdvance, RetryTimer, FailCompensation, FailureEvents, HasPendingRetryTimer, EngineSpec.FailTask, Advance;
      Begin(this, st, m);
      FailTaskShape(m.origin, req, retryNow, clock);
      if req.compensation {
        error := FailCompensationTaskLocked(st, req, clock, m);
        return;
      }
      error := CheckLease(st, req.worker, req.node, req.attempt);
      if error != NoError { return; }
      if st.cancelRequested && !req.cancelled { return RunIsCancelled; }
      if req.cancelled {
        ReportLocked(st, NodeCancelled(req.node, req.worker, req.attempt), clock, m, []);
        return;
      }
      RecordFailureLocked(st, req, retryNow, clock, m);
      ghost var failed := FailureEvents(m.origin, req, retryNow, clock);
      Now(this, st, m, failed);
      var retryScheduled := req.retryable && HasPendingRetryTimer(st.Value(), req.node, req.attempt);
      if !retryScheduled {
        AdvanceRunStateLocked(st, clock, m, failed);
      }
    }

    // ---- Polling ----

    method HeartbeatLocked(st: ExecutionState, worker: string, now: Time, ghost m: Mark)
      returns (changed: bool, ghost order: seq<string>)
      requires Since(st, m, [])
      modifies st, wal`files, wal.subscribers.Values
      ensures Enumerates(order, m.origin.nodes.Keys)
      ensures Since(st, m, EngineSpec.Heartbeat(m.origin, worker, now, order))
      ensures changed <==> EngineSpec.Heartbeat(m.origin, worker, now, order) != []
    {
      hide Since, Legal, Inv, Step, Replay, BeatNodes, Enumerates;
      Begin(this, st, m);
      changed := false;
      var ids := AnyOrder(st.nodes.Keys);
      order := ids;
      if st.IsTerminal() { return; }
      ghost var events: seq<Event> := [];
      assert ids[0..] == ids;
      for i := 0 to |ids|
        invariant Since(st, m, events) && changed == (events != [])
        invariant !Replay(m.origin, events).Terminal()
        invariant events + BeatNodes(Replay(m.origin, events), worker, now, ids[i..]) == BeatNodes(m.origin, worker, now, ids)
      {
        Now(this, st, m, events);
        BeatHead(st.Value(), worker, now, ids, i);
        if ids[i] in st.nodes && st.nodes[ids[i]].state.Running? && st.nodes[ids[i]].worker == worker {
          var attempt := st.nodes[ids[i]].attempt;
          ghost var e := EmitAt(st.Value(), now, HeartbeatRecorded(ids[i], worker, attempt));
          ReplaySnoc(m.origin, events, e);
          AppendAt(st, now, HeartbeatRecorded(ids[i], worker, attempt), ANY, m, events);
          events := events + [e];
          changed := true;
        }
      }
      assert ids[|ids|..] == [];
      NoBeatsLeft(Replay(m.origin, events), worker, now);
      assert events + [] == events;
      var beaten := BeatCompensationLocked(st, worker, now, m, events);
      changed := changed || beaten;
    }

    method BeatCompensationLocked(st: ExecutionState, worker: string, now: Time, ghost m: Mark, ghost done: seq<Event>) returns (beaten: bool)
      requires Since(st, m, done) && !Replay(m.origin, done).Terminal()
      modifies st, wal`files, wal.subscribers.Values
      ensures Since(st, m, done + BeatCompensation(Replay(m.origin, done), worker, now))
      ensures beaten <==> BeatCompensation(Replay(m.origin, done), worker, now) != []
    {
      hide Since, Legal, Inv, Step, Replay;
      Now(this, st, m, done);
      BeatCompensationFacts(st.Value(), worker, now);
      assert done + [] == done;
      beaten := st.active.Some? && st.active.value.worker == worker;
      if beaten {
        AppendAt(st, now, HeartbeatRecorded(st.active.value.node, worker, st.active.value.attempt), ANY, m, done);
      }
    }

    method ClaimCompensationTaskLocked(st: ExecutionState, worker: string, clock: Clock, ghost m: Mark) returns (task: Option<WorkerTask>)
      requires Since(st, m, []) && st.runState.RunCompensating? && !st.cancelRequested
      modifies st, wal`files, wal.subscribers.Values
      ensures Since(st, m, ClaimCompensation(m.origin, workers, worker, clock))
      ensures task == OfferedCompensation(m.origin, workers, worker)
    {
      hide Since, Legal, Inv, Step, Replay, CanHandle;
      Begin(this, st, m);
      CompensationClaimFacts(m.origin, workers, worker, clock);
      var next := NextEntry(st.Value());
      if next.None? { return None; }
      var entry := st.stack[next.value];
      if !CanHandle(workers, worker, entry.activity) { return None; }
      var attempt := NextAttempt(entry.attempt);
      ghost var e := Emit(m.origin, clock, CompensationTaskStarted(entry.node, worker, attempt));
      task := Some(WorkerTask(st.runId, entry.node, entry.activity, attempt, true));
      AppendNow(st, CompensationTaskStarted(entry.node, worker, attempt), clock, ANY, m, []);
      assert [] + [e] == [e];
    }

    method ScheduleExecutionDeadlineTimerLocked(
        st: ExecutionState, n: string, def: NodeDef, a: uint32, clock: Clock, ghost last: Payload, ghost m: Mark, ghost done: seq<Event>)
      requires Since(st, m, done)
      requires var s := Replay(m.origin, done); var timer := ExecTimer(s, clock, n, def, a); timer != [] ==> Legal(last, s, timer[0])
      modifies st, wal`files, wal.subscribers.Values
      ensures Since(st, m, done + ExecTimer(Replay(m.origin, done), clock, n, def, a))
    {
      hide Since, Legal, Inv, Step, Replay, TimerId;
      Now(this, st, m, done);
      assert done + [] == done;
      if def.executionDeadline <= 0 { return; }
      var now := clock(st.lastSeq + 1);
      AppendAt(st, now, TimerScheduled(TimerId(st.runId, n, a, ExecDeadline), n, a, ExecDeadline, now + def.executionDeadline), last, m, done);
    }

    method ScheduleAbsoluteDeadlineTimerLocked(
        st: ExecutionState, n: string, def: NodeDef, clock: Clock, ghost last: Payload, ghost m: Mark, ghost done: seq<Event>)
      requires Since(st, m, done)
      requires var s := Replay(m.origin, done); var timer := AbsTimer(s, clock, n, def); timer != [] ==> Legal(last, s, timer[0])
      modifies st, wal`files, wal.subscribers.Values
      ensures Since(st, m, done + AbsTimer(Replay(m.origin, done), clock, n, def))
    {
      hide Since, Legal, Inv, Step, Replay, TimerId, HasPendingAbsoluteTimer;
      Now(this, st, m, done);
      assert done + [] == done;
      if def.absoluteDeadline <= 0 { return; }
      if HasPendingAbsoluteTimer(st.Value(), n) { return; }
      var now := clock(st.lastSeq + 1);
      AppendAt(st, now, TimerScheduled(TimerId(st.runId, n, 0, AbsDeadline), n, 0, AbsDeadline, now + def.absoluteDeadline), last, m, done);
    }

    // Lease, start, and the deadlines the definition asks for.
    method DispatchLocked(st: ExecutionState, n: string, worker: string, clock: Clock, ghost m: Mark)
      requires Since(st, m, []) && Forward(m.origin) && n in m.origin.nodes && m.origin.nodes[n].state.Ready? && worker != ""
      modifies st, wal`files, wal.subscribers.Values
      ensures Since(st, m, ClaimNode(m.origin, clock, n, worker))
    {
      hide Since, Legal, Inv, Step, Replay, ExecTimer, AbsTimer, ClaimNode;
      Begin(this, st, m);
      var def, attempt := st.nodes[n].def, NextAttempt(st.nodes[n].attempt);
      ghost var e, f, exec, abs := DispatchFacts(m.origin, clock, n, worker);
      AppendNow(st, LeaseGranted(n, worker, attempt), clock, ANY, m, []);
      assert [] + [e] == [e];
      AppendNow(st, NodeStarted(n, worker, attempt), clock, e.payload, m, [e]);
      ScheduleExecutionDeadlineTimerLocked(st, n, def, attempt, clock, f.payload, m, [e] + [f]);
      ScheduleAbsoluteDeadlineTimerLocked(st, n, def, clock, LastOf(f.payload, exec), m, [e] + [f] + exec);
    }

    method ClaimReadyTaskLocked(st: ExecutionState, worker: string, clock: Clock, ghost m: Mark) returns (task: Option<WorkerTask>)
      requires Since(st, m, [])
      modifies st, wal`files, wal.subscribers.Values
      ensures Since(st, m, Claim(m.origin, workers, worker, clock))
      ensures task == Offered(m.origin, workers, worker)
    {
      hide Since, Legal, Inv, Step, Replay, ClaimNode, ClaimCompensation, OfferedCompensation, Sorted;
      Begin(this, st, m);
      if st.IsTerminal() || st.cancelRequested { return None; }
      if st.runState.RunCompensating? {
        task := ClaimCompensationTaskLocked(st, worker, clock, m);
        return;
      }
      SortedMembers(st.nodes.Keys);
      var nodeIDs := SortKeys(st.nodes.Keys);
      for i := 0 to |nodeIDs|
        invariant Since(st, m, []) && st.Value() == m.origin
        invariant forall j | 0 <= j < i :: !Claimable(m.origin, workers, worker, nodeIDs[j])
      {
        var n := nodeIDs[i];
        if Claimable(st.Value(), workers, worker, n) {
          FirstClaimable(m.origin, workers, worker, i);
          task := Some(WorkerTask(st.runId, n, st.nodes[n].def.activity, NextAttempt(st.nodes[n].attempt), false));
          DispatchLocked(st, n, worker, clock, m);
          return;
        }
      }
      NothingClaimable(m.origin, workers, worker);
      return None;
    }

    // ---- Monitors ----

    method ExpireNodesLocked(st: ExecutionState, now: Time, ghost m: Mark) returns (ghost order: seq<string>, changed: bool)
      requires Since(st, m, [])
      modifies st, wal`files, wal.subscribers.Values
      ensures Enumerates(order, m.origin.nodes.Keys)
      ensures Since(st, m, ExpireNodes(m.origin, now, order))
      ensures changed <==> ExpireNodes(m.origin, now, order) != []
    {
      hide Since, Legal, Inv, Step, Replay, ExpireNodes, Enumerates;
      Begin(this, st, m);
      changed := false;
      var ids := AnyOrder(st.nodes.Keys);
      order := ids;
      ghost var events: seq<Event> := [];
      assert ids[0..] == ids;
      for i := 0 to |ids|
        invariant Since(st, m, events) && changed == (events != [])
        invariant events + ExpireNodes(Replay(m.origin, events), now, ids[i..]) == ExpireNodes(m.origin, now, ids)
      {
        Now(this, st, m, events);
        ExpireHead(st.Value(), now, ids, i);
        if ids[i] in st.nodes && Overdue(st.nodes[ids[i]], now) {
          var node := st.nodes[ids[i]];
          ghost var e := EmitAt(st.Value(), now, LeaseExpired(ids[i], node.worker, node.attempt));
          ReplaySnoc(m.origin, events, e);
          AppendAt(st, now, LeaseExpired(ids[i], node.worker, node.attempt), ANY, m, events);
          events := events + [e];
          changed := true;
        }
      }
      assert ids[|ids|..] == [];
      NoExpiriesLeft(Replay(m.origin, events), now);
      assert events + [] == events;
    }

    method ExpireCompensationLocked(st: ExecutionState, now: Time, ghost m: Mark, ghost done: seq<Event>) returns (expired: bool)
      requires Since(st, m, done)
      modifies st, wal`files, wal.subscribers.Values
      ensures Since(st, m, done + ExpireCompensation(Replay(m.origin, done), now))
      ensures expired <==> ExpireCompensation(Replay(m.origin, done), now) != []
    {
      hide Since, Legal, Inv, Step, Replay;
      Now(this, st, m, done);
      ExpireCompensationFacts(st.Value(), now);
      assert done + [] == done;
      expired := st.active.Some? && now - st.active.value.heartbeat > HEARTBEAT_TIMEOUT;
      if expired {
        var active := st.active.value;
        AppendAt(st, now, CompensationTaskExpired(active.node, active.worker, active.attempt), ANY, m, done);
      }
    }

    method ExpireLocked(st: ExecutionState, now: Time, clock: Clock, ghost m: Mark) returns (ghost order: seq<string>, changed: bool)
      requires Since(st, m, [])
      modifies st, wal`files, wal.subscribers.Values
      ensures Enumerates(order, m.origin.nodes.Keys)
      ensures Since(st, m, ExpireLeases(m.origin, now, order, clock))
      ensures changed <==> ExpireLeases(m.origin, now, order, clock) != []
    {
      hide Since, Legal, Inv, Step, Replay, ExpireNodes, ExpireCompensation, Enumerates, Reconcile;
      order, changed := ExpireNodesLocked(st, now, m);
      ghost var expired := ExpireNodes(m.origin, now, order);
      var also := ExpireCompensationLocked(st, now, m, expired);
      changed := changed || also;
      if changed {
        ReconcileRunLocked(st, clock, m, ExpireOverdue(m.origin, now, order));
      }
    }

    // One due timer fires; a deadline that still bites fails its node.
    method FireTimerLocked(st: ExecutionState, id: string, now: Time, clock: Clock, ghost m: Mark, ghost done: seq<Event>)
      requires Since(st, m, done) && Due(Replay(m.origin, done), id, now)
      modifies st, wal`files, wal.subscribers.Values
      ensures Since(st, m, done + FireTimer(Replay(m.origin, done), id, now, clock))
    {
      hide Since, Legal, Inv, Step, Replay, Reconcile, FireTimer, ShouldFailForTimer;
      Now(this, st, m, done);
      ghost var s := Replay(m.origin, done);
      FireFacts(s, id, now, clock);
      var timer := st.timers[id];
      var fired := TimerFired(timer.id, timer.node, timer.attempt, timer.purpose);
      ghost var e := EmitAt(s, now, fired);
      ReplaySnoc(m.origin, done, e);
      AppendAt(st, now, fired, ANY, m, done);
      Now(this, st, m, done + [e]);
      if !timer.purpose.RetryBackoff? && ShouldFailForTimer(st.nodes, timer) {
        ShouldFailHasNode(st.nodes, timer);
        var node := st.nodes[timer.node];
        ghost var f := EmitAt(Step(s, e), now, NodeFailed(timer.node, node.worker, node.attempt, false, true));
        ReplaySnoc(m.origin, done + [e], f);
        AppendAt(st, now, NodeFailed(timer.node, node.worker, node.attempt, false, true), fired, m, done + [e]);
        ReconcileRunLocked(st, clock, m, done + [e] + [f]);
        assert done + [e] + [f] + Reconcile(Step(Step(s, e), f), clock) == done + ([e, f] + Reconcile(Step(Step(s, e), f), clock));
      }
    }

    method FireLocked(st: ExecutionState, now: Time, clock: Clock, ghost m: Mark) returns (ghost order: seq<string>, changed: bool)
      requires Since(st, m, [])
      modifies st, wal`files, wal.subscribers.Values
      ensures Enumerates(order, m.origin.timers.Keys)
      ensures Since(st, m, EngineSpec.FireDueTimers(m.origin, now, order, clock))
      ensures changed <==> EngineSpec.FireDueTimers(m.origin, now, order, clock) != []
    {
      hide Since, Legal, Inv, Step, Replay, FireAll, FireTimer, Enumerates, Reconcile, Due;
      Begin(this, st, m);
      changed := false;
      var ids := AnyOrder(st.timers.Keys);
      order := ids;
      ghost var events: seq<Event> := [];
      assert ids[0..] == ids;
      for i := 0 to |ids|
        invariant Since(st, m, events) && changed == (events != [])
        invariant events + FireAll(Replay(m.origin, events), now, ids[i..], clock) == FireAll(m.origin, now, ids, clock)
      {
        Now(this, st, m, events);
        FireHead(st.Value(), now, ids, clock, i);
        if Due(st.Value(), ids[i], now) {
          ghost var s := st.Value();
          DueKnown(s, ids[i], now);
          ghost var fired := FireTimer(s, ids[i], now, clock);
          ReplayConcat(m.origin, events, fired);
          FireTimerLocked(st, ids[i], now, clock, m, events);
          assert events + fired + FireAll(Replay(s, fired), now, ids[i + 1..], clock) == events + (fired + FireAll(Replay(s, fired), now, ids[i + 1..], clock));
          events := events + fired;
          changed := true;
        }
      }
      assert ids[|ids|..] == [];
      NoTimersLeft(Replay(m.origin, events), now, clock);
      assert events + [] == events;
      if changed {
        ReconcileRunLocked(st, clock, m, events);
      }
    }

    // ---- Callers ----

    method CancelRunLocked(st: ExecutionState, clock: Clock, ghost m: Mark)
      requires Since(st, m, [])
      modifies st, wal`files, wal.subscribers.Values
      ensures Since(st, m, EngineSpec.CancelRun(m.origin, clock))
    {
      hide Since, Legal, Inv, Step, Replay, CancelEligible, Advance;
      Begin(this, st, m);
      if st.IsTerminal() || st.cancelRequested { return; }
      ghost var e := Emit(m.origin, clock, CancellationRequested);
      CancelFacts(m.origin, clock);
      ReplaySnoc(m.origin, [], e);
      AppendNow(st, CancellationRequested, clock, ANY, m, []);
      assert [] + [e] == [e];
      Now(this, st, m, [e]);
      CancelEligibleNodesLocked(st, clock, m, [e]);
      AdvanceRunStateLocked(st, clock, m, [e] + CancelEligible(Step(m.origin, e), clock));
    }

    method ApproveLocked(st: ExecutionState, node: string, clock: Clock, ghost m: Mark) returns (error: Error)
      requires Since(st, m, [])
      modifies st, wal`files, wal.subscribers.Values
      ensures error == EngineSpec.ApproveCheckpoint(m.origin, node, clock).error
      ensures Since(st, m, EngineSpec.ApproveCheckpoint(m.origin, node, clock).events)
    {
      hide Since, Inv, Step, Replay;
      Begin(this, st, m);
      if st.IsTerminal() { return CheckpointNotWaiting; }
      if node !in st.nodes { return TaskNotFound; }
      if !st.nodes[node].state.AwaitingApproval? { return CheckpointNotWaiting; }
      ghost var e := Emit(m.origin, clock, CheckpointApproved(node));
      AppendNow(st, CheckpointApproved(node), clock, ANY, m, []);
      assert [] + [e] == [e];
      return NoError;
    }

    // ---- The whole engine ----

    predicate Unreadable(r: string)
      reads this`snapshots
    {
      r in snapshots && snapshots[r].Undecodable?
    }

    /** A run in memory is the replay of its log, which some execution wrote; a run
        that is not in memory has no log, or one that cannot be loaded. */
    ghost predicate Served(r: string)
      reads this`runs, this`snapshots, runs.Values, wal`files, wal`subscribers, wal`nextSubID, wal.subscribers.Values
    {
      if r in runs then
        && runs[r].runId == r && InStep(runs[r]) && !Unreadable(r)
        && runs[r].Value() == StateOf(Log(r)) && Reachable(Sys(Log(r), true))
      else
        wal.File(r) == [] || Stuck(r)
    }

    // A corrupt log or an undecodable snapshot: startup skips the run.
    predicate Skips(r: string)
      reads this`snapshots, wal`files
    {
      !Wal.Clean(wal.File(r)) || Unreadable(r)
    }

    // Nothing can be done with the run until its files are repaired.
    ghost predicate Stuck(r: string)
      reads this`snapshots, wal`files
    {
      Skips(r) && Wrote(Log(r), r)
    }

    ghost predicate Snapshotted(r: string)
      reads this`snapshots, wal`files
    {
      CopiesPrefix(snapshots, r, Log(r))
    }

    function SnapshotOf(r: string): Option<Snapshot>
      reads this`snapshots
    {
      if r in snapshots then Some(snapshots[r]) else None
    }

    // What `LoadStateLocked` answers for a run.
    function LoadError(r: string): Error
      reads this`runs, this`snapshots, wal`files
    {
      if r in runs then NoError
      else if !Wal.Clean(wal.File(r)) then CorruptLog
      else if Log(r) == [] then RunNotFound
      else if Unreadable(r) then SnapshotUndecodable
      else NoError
    }

    ghost predicate Valid()
      reads this`runs, this`snapshots, runs.Values, wal`files, wal`subscribers, wal`nextSubID, wal.subscribers.Values
    {
      && wal.Valid()
      && forall r :: Kept(r)
    }

    method Save(st: ExecutionState)
      modifies this`snapshots
      ensures snapshots == old(snapshots)[st.runId := Copy(st.Value())]
    {
      snapshots := snapshots[st.runId := Copy(st.Value())];
    }

    /** From a snapshot and the events after it, or from the whole log when there is
        no snapshot or its checksum is wrong; fails exactly for an undecodable one. */
    method Rehydrate(runId: string, events: seq<Event>) returns (st: ExecutionState?)
      requires LegalLog(events) && CopiesPrefix(snapshots, runId, events)
      ensures st == null <==> Unreadable(runId)
      ensures st != null ==> fresh(st) && st.Value() == StateOf(events)
    {
      hide Legal, Inv, Step, StateOf, LegalLog, ApplyEvent;
      LogInv(events);
      if runId in snapshots && snapshots[runId].Undecodable? {
        return null;
      } else if runId in snapshots && snapshots[runId].Copy? {
        st := new ExecutionState.FromSnapshot(snapshots[runId].state);
        ghost var k: nat :| TakenAt(snapshots[runId].state, events, k);
        LegalPrefix(events, k);
        LogInv(events[..k]);
        for i := 0 to |events|
          invariant fresh(st)
          invariant st.Value() == StateOf(events[..if i <= k then k else i]) && st.lastSeq == if i <= k then k else i
        {
          if events[i].seqNo > st.lastSeq {
            StateOfAppend(events[..i], events[i]);
            assert events[..i] + [events[i]] == events[..i + 1];
            LegalPrefix(events, i + 1);
            LogInv(events[..i + 1]);
            var ok := st.Apply(events[i]);
          }
        }
        assert events[..|events|] == events;
      } else {
        ApplyNeverErrors(events);
        var ok;
        st, ok := State.Rehydrate(events);
      }
    }

    method LoadStateLocked(runId: string) returns (st: ExecutionState?, error: Error)
      requires runId !in runs && Log(runId) != [] ==> LegalLog(Log(runId)) && Snapshotted(runId)
      modifies this`runs
      ensures error == old(LoadError(runId)) && (st == null <==> error != NoError)
      ensures st == null || runId in old(runs) ==> runs == old(runs)
      ensures runId in old(runs) ==> st == runs[runId]
      ensures st != null && runId !in old(runs) ==>
        fresh(st) && st.Value() == StateOf(Log(runId)) && runs == old(runs)[runId := st]
    {
      if runId in runs { return runs[runId], NoError; }
      var events, corrupt := wal.List(runId);
      if corrupt { return null, CorruptLog; }
      if |events| == 0 { return null, RunNotFound; }
      var loaded := Rehydrate(runId, events);
      if loaded == null { return null, SnapshotUndecodable; }
      runs := runs[runId := loaded];
      return loaded, NoError;
    }

    // ---- Startup ----

    /** Over the logs and snapshots a stopped engine left, every run is replayed and
        reconciled, except those whose log is corrupt or whose snapshot cannot be decoded:
        they are skipped. */
    constructor (files: map<string, seq<Wal.Record>>, snapshots: map<string, Snapshot>, maxActiveRuns: int, clocks: string -> Clock)
      requires forall r :: LeftBehind(FileIn(files, r), snapshots, r)
      ensures Valid() && fresh(wal) && wal.subscribers == map[]
      ensures this.snapshots == snapshots && this.maxActiveRuns == maxActiveRuns
      ensures forall r :: r in runs <==> Wal.ValidPrefix(FileIn(files, r)) != [] && !Skipped(FileIn(files, r), snapshots, r)
      ensures forall r :: Log(r) == Restored(Wal.ValidPrefix(FileIn(files, r)), Skipped(FileIn(files, r), snapshots, r), clocks(r))
      ensures forall r :: Skips(r) <==> Skipped(FileIn(files, r), snapshots, r)
      ensures forall r | Skips(r) :: wal.File(r) == FileIn(files, r)
    {
      hide LeftBehind, Restored;
      AllSequenced(files, snapshots);
      wal := new Wal.Store(files);
      this.snapshots, this.maxActiveRuns := snapshots, maxActiveRuns;
      workers, runs := map[], map[];
      new;
      Opened(this, files);
      LoadPersistedRuns(clocks);
    }

    method LoadPersistedRuns(clocks: string -> Clock)
      requires wal.Valid() && runs == map[] && forall r :: Persisted(wal, snapshots, r)
      modifies this`runs, wal`files, wal.subscribers.Values
      ensures Valid()
      ensures forall r :: r in runs <==> old(Log(r)) != [] && !old(Skips(r))
      ensures forall r :: Log(r) == Restored(old(Log(r)), old(Skips(r)), clocks(r)) && Skips(r) == old(Skips(r))
      ensures forall r | Skips(r) :: wal.File(r) == old(wal.File(r))
    {
      hide Persisted, Kept, Wal.FeedInv, Log, Others, Wal.Store.Valid, Restored, Skips;
      var rest := wal.files.Keys;
      NeverPersisted(this, clocks);
      while rest != {}
        invariant wal.Valid()
        invariant forall r | r in rest :: r !in runs && Log(r) == old(Log(r)) && Persisted(wal, snapshots, r)
        invariant forall r | r !in rest :: Kept(r) && Log(r) == Restored(old(Log(r)), old(Skips(r)), clocks(r))
        invariant forall r :: Skips(r) == old(Skips(r)) && (Skips(r) || r in rest ==> wal.File(r) == old(wal.File(r)))
        decreases |rest|
      {
        var r :| r in rest;
        RecoverNext(r, clocks(r), rest);
        rest := rest - {r};
      }
      ServedIff(this);
      forall r ensures Log(r) == [] <==> old(Log(r)) == [] { RestoredEmpty(old(Log(r)), old(Skips(r)), clocks(r)); }
    }

    // The runs still to load stay as they were left, those already loaded stay served.
    method RecoverNext(runId: string, clock: Clock, ghost rest: set<string>)
      requires wal.Valid() && runId in rest
      requires forall r | r in rest :: r !in runs && Persisted(wal, snapshots, r)
      requires forall r | r !in rest :: Kept(r)
      modifies this`runs, wal`files, wal.subscribers.Values
      ensures wal.Valid() && Kept(runId) && Log(runId) == Restored(old(Log(runId)), old(Skips(runId)), clock)
      ensures forall r :: Skips(r) == old(Skips(r)) && (Skips(r) || r != runId ==> wal.File(r) == old(wal.File(r)))
      ensures forall r | r in rest && r != runId :: r !in runs && Persisted(wal, snapshots, r)
      ensures forall r | r !in rest :: Kept(r)
      ensures forall r | r != runId :: Log(r) == old(Log(r))
    {
      hide Persisted, Kept, Wal.FeedInv, Log, Others, Wal.Store.Valid, Restored, Skips;
      RecoverRun(runId, clock);
      Elsewhere(this, runId, rest);
    }

    ghost predicate Kept(r: string)
      reads this`runs, this`snapshots, runs.Values, wal`files, wal`subscribers, wal`nextSubID, wal.subscribers.Values
    {
      Served(r) && Snapshotted(r) && Wal.FeedInv(wal.FeedOf(r))
    }

    // One run: replay its log, then catch up on a transition a crash cut off.
    method RecoverRun(runId: string, clock: Clock)
      requires wal.Valid() && runId !in runs && Persisted(wal, snapshots, runId)
      modifies this`runs, wal`files, wal.subscribers.Values
      ensures wal.Valid() && Kept(runId)
      ensures Log(runId) == Restored(old(Log(runId)), old(Skips(runId)), clock) && Skips(runId) == old(Skips(runId))
      ensures Skips(runId) ==> wal.File(runId) == old(wal.File(runId))
      ensures Others(runId) == old(Others(runId))
      ensures runs.Keys <= old(runs).Keys + {runId} && old(runs).Keys <= runs.Keys
      ensures forall q | q in runs && q != runId :: q in old(runs) && runs[q] == old(runs)[q]
    {
      hide Since, Legal, Inv, Step, Replay, StateOf, Others, Reachable, LegalLog, Wal.FeedInv, Reconcile, Kept, Persisted;
      PersistedFacts(wal, snapshots, runId);
      var events, corrupt := wal.List(runId);
      if corrupt {
        LeftAlone(this, runId);
        return;
      }
      if |events| == 0 {
        NothingPersisted(this, runId);
        return;
      }
      var st := Rehydrate(runId, events);
      if st == null {
        LeftAlone(this, runId);
        return;
      }
      runs := runs[runId := st];
      ghost var m := Mark(st.Value(), Log(runId), Others(runId));
      Loaded(this, st, runId, m);
      ReconcileRunLocked(st, clock, m, []);
      assert [] + Reconcile(m.origin, clock) == Reconcile(m.origin, clock);
      assert Replay(m.origin, []) == m.origin by { NoEvents(m.origin); }
      RunRecovered(this, runId, m, clock);
    }

    // ---- Runs and workers ----

    function ActiveAmong(keys: set<string>): set<string>
      requires keys <= runs.Keys
      reads this`runs, runs.Values
    {
      set r | r in keys && !runs[r].Value().Terminal()
    }

    method CountActiveRuns() returns (count: nat)
      ensures count == |ActiveAmong(runs.Keys)|
    {
      count := 0;
      var rest := runs.Keys;
      while rest != {}
        invariant rest <= runs.Keys && count + |ActiveAmong(rest)| == |ActiveAmong(runs.Keys)|
        decreases |rest|
      {
        var r :| r in rest;
        CountStep(this, rest, r);
        if !runs[r].IsTerminal() {
          count := count + 1;
        }
        rest := rest - {r};
      }
      assert ActiveAmong({}) == {};
    }

    method AtCapacity() returns (full: bool)
      ensures full <==> maxActiveRuns > 0 && |ActiveAmong(runs.Keys)| >= maxActiveRuns
    {
      if maxActiveRuns <= 0 { return false; }
      var active := CountActiveRuns();
      return active >= maxActiveRuns;
    }

    // The first event of a run, and the state it makes.
    method Launch(runId: string, def: WorkflowDef, now: Time) returns (st: ExecutionState)
      requires wal.Valid() && Wal.Clean(wal.File(runId)) && Wal.FeedInv(wal.FeedOf(runId)) && Log(runId) == []
      modifies wal`files, wal.subscribers.Values
      ensures wal.Valid() && Wal.Clean(wal.File(runId)) && Wal.FeedInv(wal.FeedOf(runId))
      ensures Others(runId) == old(Others(runId))
      ensures Log(runId) == [Event(1, runId, now, WorkflowStarted(def))]
      ensures fresh(st) && st.runId == runId && st.Value() == Step(EMPTY_RUN, Event(1, runId, now, WorkflowStarted(def)))
    {
      hide Others, Wal.Store.Valid, Wal.FeedInv, Step, ApplyEvent, Wal.Clean, Log;
      var event := AppendEvent(Event(0, runId, now, WorkflowStarted(def)));
      assert [] + [event] == [event];
      st := new ExecutionState();
      var ok := st.Apply(event);
      StartNamed(event);
    }

    method Admit(st: ExecutionState, ghost e: Event)
      requires e.seqNo == 1 && e.runId == st.runId && e.payload.WorkflowStarted? && ValidDef(e.payload.def)
      requires st.Value() == Step(EMPTY_RUN, e) && Log(st.runId) == [e]
      requires wal.Valid() && Wal.Clean(wal.File(st.runId)) && Wal.FeedInv(wal.FeedOf(st.runId))
      modifies this`runs, this`snapshots
      ensures runs == old(runs)[st.runId := st] && snapshots == old(snapshots)[st.runId := Copy(st.Value())]
      ensures Kept(st.runId)
    {
      hide Kept, Others, Wal.Store.Valid, Wal.FeedInv, Step, ValidDef, Wal.Clean, Log;
      runs := runs[st.runId := st];
      Save(st);
      RunStarted(this, st.runId, e);
    }

    /** A new run under a fresh id; refused at capacity and for a malformed definition. */
    method StartRun(runId: string, def: WorkflowDef, now: Time) returns (error: Error)
      requires Valid() && wal.File(runId) == []
      modifies this`runs, this`snapshots, wal`files, wal.subscribers.Values
      ensures Valid()
      ensures error == if maxActiveRuns > 0 && |old(ActiveAmong(runs.Keys))| >= maxActiveRuns then CapacityExceeded
                       else if !ValidDef(def) then InvalidDefinition else NoError
      ensures error != NoError ==> runs == old(runs) && wal.File(runId) == []
      ensures error == NoError ==>
        && runs.Keys == old(runs.Keys) + {runId}
        && Log(runId) == [Event(1, runId, now, WorkflowStarted(def))]
        && (maxActiveRuns > 0 ==> |ActiveAmong(runs.Keys)| <= maxActiveRuns)
      ensures forall r | r != runId :: Log(r) == old(Log(r)) && SnapshotOf(r) == old(SnapshotOf(r))
      ensures error == NoError ==> SnapshotOf(runId) == Some(Copy(StateOf(Log(runId))))
      ensures error != NoError ==> snapshots == old(snapshots)
    {
      hide Valid, Kept, Log, Others, Wal.Store.Valid, Wal.FeedInv, Wal.Clean, Step, ValidDef, ActiveAmong, ExecutionState.Value;
      NoFile(this, runId);
      Present(this, runId);
      var full := AtCapacity();
      if full { return CapacityExceeded; }
      var normalized := Normalize(def);
      if normalized.Err? { return InvalidDefinition; }
      Unused(this, runId);
      var st := Launch(runId, def, now);
      Admit(st, Event(1, runId, now, WorkflowStarted(def)));
      StartedAlone(this, runId);
      OneMoreActive(this, runId);
      ShownByLog(this, runId);
      return NoError;
    }

    method RegisterWorker(worker: string, activities: seq<string>) returns (ok: bool)
      modifies this`workers
      ensures ok <==> worker != "" && activities != []
      ensures workers == if ok then old(workers)[worker := activities] else old(workers)
    {
      if worker == "" || |activities| == 0 { return false; }
      workers := workers[worker := activities];
      return true;
    }

    method GetRun(runId: string) returns (view: Option<RunData>, error: Error)
      requires Valid()
      modifies this`runs
      ensures Valid() && runs == old(runs) && error == LoadError(runId)
      ensures view == if runId in runs then Some(StateOf(Log(runId))) else None
      ensures error == CorruptLog <==> runId !in runs && !Wal.Clean(wal.File(runId))
      ensures error == RunNotFound <==> wal.File(runId) == []
      ensures error == SnapshotUndecodable <==>
        runId !in runs && Wal.Clean(wal.File(runId)) && wal.File(runId) != [] && runId in snapshots && snapshots[runId] == Undecodable
    {
      hide Valid, StateOf, Inv, Reachable, LegalLog, Wal.FeedInv, TakenAt, Wal.ValidPrefix, ExecutionState.Value;
      Absent(this, runId);
      Present(this, runId);
      FileEmpty(wal.File(runId));
      var st;
      st, error := LoadStateLocked(runId);
      if st == null { return None, error; }
      ShownByLog(this, runId);
      return Some(st.Value()), NoError;
    }

    method SubscribeEvents(runId: string, fromSeq: nat) returns (sub: Option<Wal.Subscriber>)
      requires Valid()
      modifies wal`subscribers, wal`nextSubID
      ensures Valid()
      ensures sub.None? <==> Log(runId) == []
      ensures sub.Some? ==>
        Wal.Enabled(old(wal.FeedOf(runId)), Wal.Action.Subscribe(sub.value.id, fromSeq)) &&
        wal.FeedOf(runId) == Wal.Act(old(wal.FeedOf(runId)), Wal.Action.Subscribe(sub.value.id, fromSeq))
    {
      hide Valid, Kept, Wal.FeedInv, Wal.Act, Wal.Enabled, Wal.Store.Valid, Wal.Store.FeedOf;
      Opens(this);
      sub := wal.Subscribe(runId, fromSeq);
      if sub.Some? { FeedActs(this, runId, Wal.Action.Subscribe(sub.value.id, fromSeq)); }
    }

    // ---- Delivery ----

    // The delivery goroutine fetches the next event, or stops.
    method FetchEvent(sub: Wal.Subscriber) returns (event: Option<Event>)
      requires Valid() && Wal.CanMove(wal, Wal.Action.Next(sub.id)) && wal.subscribers[sub.id] == sub
      modifies sub`stage, sub`pending
      ensures Valid() && wal.FeedOf(sub.runId) == Wal.Act(old(wal.FeedOf(sub.runId)), Wal.Action.Next(sub.id))
    {
      hide Valid, Wal.Store.Valid, Wal.Store.FeedOf, Wal.Act, Wal.CanMove;
      Moving(wal, Wal.Action.Next(sub.id));
      event := sub.Next();
      SubscriberMoves(this, Wal.Action.Next(sub.id));
    }

    // The consumer takes the offered event.
    method DeliverEvent(sub: Wal.Subscriber) returns (event: Event)
      requires Valid() && Wal.CanMove(wal, Wal.Action.Send(sub.id)) && wal.subscribers[sub.id] == sub
      modifies sub`stage, sub`delivered
      ensures Valid() && wal.FeedOf(sub.runId) == Wal.Act(old(wal.FeedOf(sub.runId)), Wal.Action.Send(sub.id))
    {
      hide Valid, Wal.Store.Valid, Wal.Store.FeedOf, Wal.Act, Wal.CanMove;
      Moving(wal, Wal.Action.Send(sub.id));
      event := sub.Send();
      SubscriberMoves(this, Wal.Action.Send(sub.id));
    }

    // The consumer is gone: close, drop the offered event, unregister.
    method CancelSubscription(sub: Wal.Subscriber)
      requires Valid() && Wal.CanMove(wal, Wal.Action.Close(sub.id)) && wal.subscribers[sub.id] == sub
      modifies sub`closed
      ensures Valid() && wal.FeedOf(sub.runId) == Wal.Act(old(wal.FeedOf(sub.runId)), Wal.Action.Close(sub.id))
    {
      hide Valid, Wal.Store.Valid, Wal.Store.FeedOf, Wal.Act, Wal.CanMove;
      Moving(wal, Wal.Action.Close(sub.id));
      sub.Close();
      SubscriberMoves(this, Wal.Action.Close(sub.id));
    }

    method AbandonEvent(sub: Wal.Subscriber)
      requires Valid() && Wal.CanMove(wal, Wal.Action.Quit(sub.id)) && wal.subscribers[sub.id] == sub
      modifies sub`stage
      ensures Valid() && wal.FeedOf(sub.runId) == Wal.Act(old(wal.FeedOf(sub.runId)), Wal.Action.Quit(sub.id))
    {
      hide Valid, Wal.Store.Valid, Wal.Store.FeedOf, Wal.Act, Wal.CanMove;
      Moving(wal, Wal.Action.Quit(sub.id));
      sub.Quit();
      SubscriberMoves(this, Wal.Action.Quit(sub.id));
    }

    method ForgetSubscriber(runId: string, id: nat)
      requires Valid() && Wal.Enabled(wal.FeedOf(runId), Wal.Action.Remove(id))
      modifies wal`subscribers
      ensures Valid() && wal.FeedOf(runId) == Wal.Act(old(wal.FeedOf(runId)), Wal.Action.Remove(id))
    {
      hide Valid, Wal.Store.Valid, Wal.Store.FeedOf, Wal.Act, Wal.Enabled;
      Opens(this);
      wal.RemoveSubscriber(runId, id);
      FeedActs(this, runId, Wal.Action.Remove(id));
    }

    // ---- Operations on one run ----

    method CompleteTask(runId: string, req: CompleteRequest, clock: Clock) returns (error: Error)
      requires Valid()
      modifies this`runs, this`snapshots, runs.Values, wal`files, wal.subscribers.Values
      ensures Valid() && runs == old(runs)
      ensures runId !in runs ==> error == old(LoadError(runId)) != NoError && Log(runId) == old(Log(runId))
      ensures runId in runs ==>
        var outcome := EngineSpec.CompleteTask(StateOf(old(Log(runId))), req, clock);
        error == outcome.error && Log(runId) == old(Log(runId)) + outcome.events
      ensures forall r | r != runId :: Log(r) == old(Log(r))
      ensures forall r :: SnapshotOf(r) == if Log(r) != old(Log(r)) then Some(Copy(StateOf(Log(r)))) else old(SnapshotOf(r))
    {
      hide Valid, Since, Legal, LegalLog, Inv, Step, Replay, StateOf, Others, EngineSpec.CompleteTask, Snapshotted, Log, ValidOp, LoadError, Skips;
      Absent(this, runId);
      var st;
      st, error := LoadStateLocked(runId);
      if st == null { return; }
      ghost var m := Mark(st.Value(), Log(runId), Others(runId));
      Marked(this, runId, m);
      error := CompleteTaskLocked(st, req, clock, m);
      OrderFree(m.origin, OpComplete(req, clock));
      Now(this, st, m, OpEvents(m.origin, OpComplete(req, clock)));
      Results.CompleteAppends(m.origin, req, clock);
      if error == NoError || error == InvalidSpawn { Save(st); }
      Committed(this, runId, m, OpComplete(req, clock));
    }

    method FailTask(runId: string, req: FailRequest, retryNow: Time, clock: Clock) returns (error: Error)
      requires Valid()
      modifies this`runs, this`snapshots, runs.Values, wal`files, wal.subscribers.Values
      ensures Valid() && runs == old(runs)
      ensures runId !in runs ==> error == old(LoadError(runId)) != NoError && Log(runId) == old(Log(runId))
      ensures runId in runs ==>
        var outcome := EngineSpec.FailTask(StateOf(old(Log(runId))), req, retryNow, clock);
        error == outcome.error && Log(runId) == old(Log(runId)) + outcome.events
      ensures forall r | r != runId :: Log(r) == old(Log(r))
      ensures forall r :: SnapshotOf(r) == if Log(r) != old(Log(r)) then Some(Copy(StateOf(Log(r)))) else old(SnapshotOf(r))
    {
      hide Valid, Since, Legal, LegalLog, Inv, Step, Replay, StateOf, Others, Snapshotted, Log, ValidOp, EngineSpec.FailTask, LoadError, Skips;
      Absent(this, runId);
      var st;
      st, error := LoadStateLocked(runId);
      if st == null { return; }
      ghost var m := Mark(st.Value(), Log(runId), Others(runId));
      Marked(this, runId, m);
      error := FailTaskLocked(st, req, retryNow, clock, m);
      OrderFree(m.origin, OpFail(req, retryNow, clock));
      Now(this, st, m, OpEvents(m.origin, OpFail(req, retryNow, clock)));
      Results.FailAppends(m.origin, req, retryNow, clock);
      if error == NoError { Save(st); }
      Committed(this, runId, m, OpFail(req, retryNow, clock));
    }

    method CancelRun(runId: string, clock: Clock) returns (error: Error)
      requires Valid()
      modifies this`runs, this`snapshots, runs.Values, wal`files, wal.subscribers.Values
      ensures Valid() && runs == old(runs)
      ensures error == old(LoadError(runId)) && (error == NoError <==> runId in runs)
      ensures runId !in runs ==> Log(runId) == old(Log(runId))
      ensures runId in runs ==> Log(runId) == old(Log(runId)) + EngineSpec.CancelRun(StateOf(old(Log(runId))), clock)
      ensures forall r | r != runId :: Log(r) == old(Log(r))
      ensures forall r :: SnapshotOf(r) == if Log(r) != old(Log(r)) then Some(Copy(StateOf(Log(r)))) else old(SnapshotOf(r))
    {
      hide Valid, Since, Legal, LegalLog, Inv, Step, Replay, StateOf, Others, Snapshotted, Log, ValidOp, EngineSpec.CancelRun, LoadError, Skips;
      Absent(this, runId);
      var st;
      st, error := LoadStateLocked(runId);
      if st == null { return; }
      ghost var m := Mark(st.Value(), Log(runId), Others(runId));
      Marked(this, runId, m);
      var idle := st.IsTerminal() || st.cancelRequested;
      CancelRunLocked(st, clock, m);
      OrderFree(m.origin, OpCancel(clock));
      Now(this, st, m, OpEvents(m.origin, OpCancel(clock)));
      Results.CancelAppends(m.origin, clock);
      if !idle { Save(st); }
      Committed(this, runId, m, OpCancel(clock));
      return NoError;
    }

    method ApproveCheckpoint(runId: string, node: string, clock: Clock) returns (error: Error)
      requires Valid()
      modifies this`runs, this`snapshots, runs.Values, wal`files, wal.subscribers.Values
      ensures Valid() && runs == old(runs)
      ensures runId !in runs ==> error == old(LoadError(runId)) != NoError && Log(runId) == old(Log(runId))
      ensures runId in runs ==>
        var outcome := EngineSpec.ApproveCheckpoint(StateOf(old(Log(runId))), node, clock);
        error == outcome.error && Log(runId) == old(Log(runId)) + outcome.events
      ensures forall r | r != runId :: Log(r) == old(Log(r))
      ensures forall r :: SnapshotOf(r) == if Log(r) != old(Log(r)) then Some(Copy(StateOf(Log(r)))) else old(SnapshotOf(r))
    {
      hide Valid, Since, Legal, LegalLog, Inv, Step, Replay, StateOf, Others, Snapshotted, Log, ValidOp, EngineSpec.ApproveCheckpoint, LoadError, Skips;
      Absent(this, runId);
      var st;
      st, error := LoadStateLocked(runId);
      if st == null { return; }
      ghost var m := Mark(st.Value(), Log(runId), Others(runId));
      Marked(this, runId, m);
      error := ApproveLocked(st, node, clock, m);
      OrderFree(m.origin, OpApprove(node, clock));
      Now(this, st, m, OpEvents(m.origin, OpApprove(node, clock)));
      Results.ApproveAppends(m.origin, node, clock);
      if error == NoError { Save(st); }
      Committed(this, runId, m, OpApprove(node, clock));
    }

    // ---- Operations that visit every run ----

    method HeartbeatRun(runId: string, worker: string, now: Time)
      requires Valid() && runId in runs
      modifies this`snapshots, runs.Values, wal`files, wal.subscribers.Values
      ensures Valid()
      ensures Beaten(old(Log(runId)), Log(runId), worker, now)
      ensures forall r | r != runId :: Log(r) == old(Log(r))
      ensures forall r :: SnapshotOf(r) == if Log(r) != old(Log(r)) then Some(Copy(StateOf(Log(r)))) else old(SnapshotOf(r))
    {
      hide Valid, Since, Legal, LegalLog, Inv, Step, Replay, StateOf, Others, Snapshotted, Log, ValidOp, EngineSpec.Heartbeat;
      var st := runs[runId];
      ghost var m := Mark(st.Value(), Log(runId), Others(runId));
      Marked(this, runId, m);
      var changed;
      ghost var order;
      changed, order := HeartbeatLocked(st, worker, now, m);
      ghost var op := OpHeartbeat(worker, now, order);
      Ordered(m.origin, op);
      Now(this, st, m, OpEvents(m.origin, op));
      if changed { Save(st); }
      Committed(this, runId, m, op);
      assert Performed(m.before, Log(runId), op);
    }

    method Heartbeat(worker: string, now: Time) returns (known: bool)
      requires Valid()
      modifies this`snapshots, runs.Values, wal`files, wal.subscribers.Values
      ensures Valid() && known == (worker in workers)
      ensures known ==> forall r | r in runs :: Beaten(old(Log(r)), Log(r), worker, now)
      ensures forall r | !known || r !in runs :: Log(r) == old(Log(r))
      ensures forall r :: SnapshotOf(r) == if Log(r) != old(Log(r)) then Some(Copy(StateOf(Log(r)))) else old(SnapshotOf(r))
    {
      hide Valid, Log, Beaten, StateOf, SnapshotOf;
      if worker !in workers { return false; }
      var rest := runs.Keys;
      while rest != {}
        invariant rest <= runs.Keys && Valid()
        invariant forall r | r in runs && r !in rest :: Beaten(old(Log(r)), Log(r), worker, now)
        invariant forall r | r in rest || r !in runs :: Log(r) == old(Log(r))
        invariant forall r :: SnapshotOf(r) == if Log(r) != old(Log(r)) then Some(Copy(StateOf(Log(r)))) else old(SnapshotOf(r))
        decreases |rest|
      {
        var r :| r in rest;
        HeartbeatRun(r, worker, now);
        rest := rest - {r};
      }
      return true;
    }

    method ExpireRun(runId: string, now: Time, clock: Clock)
      requires Valid() && runId in runs
      modifies this`snapshots, runs.Values, wal`files, wal.subscribers.Values
      ensures Valid()
      ensures Swept(old(Log(runId)), Log(runId), now, clock)
      ensures forall r | r != runId :: Log(r) == old(Log(r))
      ensures forall r :: SnapshotOf(r) == if Log(r) != old(Log(r)) then Some(Copy(StateOf(Log(r)))) else old(SnapshotOf(r))
    {
      hide Valid, Since, Legal, LegalLog, Inv, Step, Replay, StateOf, Others, Snapshotted, Log, ValidOp, EngineSpec.ExpireLeases;
      var st := runs[runId];
      ghost var m := Mark(st.Value(), Log(runId), Others(runId));
      Marked(this, runId, m);
      var changed;
      ghost var order;
      order, changed := ExpireLocked(st, now, clock, m);
      ghost var op := OpExpireLeases(now, order, clock);
      Ordered(m.origin, op);
      Now(this, st, m, OpEvents(m.origin, op));
      if changed { Save(st); }
      Committed(this, runId, m, op);
      assert Performed(m.before, Log(runId), op);
    }

    method ExpireOverdueLeases(now: Time, clocks: string -> Clock)
      requires Valid()
      modifies this`snapshots, runs.Values, wal`files, wal.subscribers.Values
      ensures Valid()
      ensures forall r | r in runs :: Swept(old(Log(r)), Log(r), now, clocks(r))
      ensures forall r | r !in runs :: Log(r) == old(Log(r))
      ensures forall r :: SnapshotOf(r) == if Log(r) != old(Log(r)) then Some(Copy(StateOf(Log(r)))) else old(SnapshotOf(r))
    {
      hide Valid, Log, Swept, StateOf, SnapshotOf;
      var rest := runs.Keys;
      while rest != {}
        invariant rest <= runs.Keys && Valid()
        invariant forall r | r in runs && r !in rest :: Swept(old(Log(r)), Log(r), now, clocks(r))
        invariant forall r | r in rest || r !in runs :: Log(r) == old(Log(r))
        invariant forall r :: SnapshotOf(r) == if Log(r) != old(Log(r)) then Some(Copy(StateOf(Log(r)))) else old(SnapshotOf(r))
        decreases |rest|
      {
        var r :| r in rest;
        ExpireRun(r, now, clocks(r));
        rest := rest - {r};
      }
    }

    method FireRun(runId: string, now: Time, clock: Clock)
      requires Valid() && runId in runs
      modifies this`snapshots, runs.Values, wal`files, wal.subscribers.Values
      ensures Valid()
      ensures Fired(old(Log(runId)), Log(runId), now, clock)
      ensures forall r | r != runId :: Log(r) == old(Log(r))
      ensures forall r :: SnapshotOf(r) == if Log(r) != old(Log(r)) then Some(Copy(StateOf(Log(r)))) else old(SnapshotOf(r))
    {
      hide Valid, Since, Legal, LegalLog, Inv, Step, Replay, StateOf, Others, Snapshotted, Log, ValidOp, EngineSpec.FireDueTimers;
      var st := runs[runId];
      ghost var m := Mark(st.Value(), Log(runId), Others(runId));
      Marked(this, runId, m);
      var changed;
      ghost var order;
      order, changed := FireLocked(st, now, clock, m);
      ghost var op := OpFireTimers(now, order, clock);
      Ordered(m.origin, op);
      Now(this, st, m, OpEvents(m.origin, op));
      if changed { Save(st); }
      Committed(this, runId, m, op);
      assert Performed(m.before, Log(runId), op);
    }

    method FireDueTimers(now: Time, clocks: string -> Clock)
      requires Valid()
      modifies this`snapshots, runs.Values, wal`files, wal.subscribers.Values
      ensures Valid()
      ensures forall r | r in runs :: Fired(old(Log(r)), Log(r), now, clocks(r))
      ensures forall r | r !in runs :: Log(r) == old(Log(r))
      ensures forall r :: SnapshotOf(r) == if Log(r) != old(Log(r)) then Some(Copy(StateOf(Log(r)))) else old(SnapshotOf(r))
    {
      hide Valid, Log, Fired, StateOf, SnapshotOf;
      var rest := runs.Keys;
      while rest != {}
        invariant rest <= runs.Keys && Valid()
        invariant forall r | r in runs && r !in rest :: Fired(old(Log(r)), Log(r), now, clocks(r))
        invariant forall r | r in rest || r !in runs :: Log(r) == old(Log(r))
        invariant forall r :: SnapshotOf(r) == if Log(r) != old(Log(r)) then Some(Copy(StateOf(Log(r)))) else old(SnapshotOf(r))
        decreases |rest|
      {
        var r :| r in rest;
        FireRun(r, now, clocks(r));
        rest := rest - {r};
      }
    }

    method ClaimRun(runId: string, worker: string, clock: Clock) returns (task: Option<WorkerTask>)
      requires Valid() && runId in runs
      modifies this`snapshots, runs.Values, wal`files, wal.subscribers.Values
      ensures Valid()
      ensures task == Offered(StateOf(old(Log(runId))), workers, worker)
      ensures task.Some? ==> Handed(StateOf(old(Log(runId))), workers, worker, task.value)
      ensures Log(runId) == old(Log(runId)) + Claim(StateOf(old(Log(runId))), workers, worker, clock)
      ensures forall r | r != runId :: Log(r) == old(Log(r))
      ensures forall r :: SnapshotOf(r) == if Log(r) != old(Log(r)) then Some(Copy(StateOf(Log(r)))) else old(SnapshotOf(r))
    {
      hide Valid, Since, Legal, LegalLog, Inv, Step, Replay, StateOf, Others, Snapshotted, Log, ValidOp, EngineSpec.Claim, Offered, Handed;
      var st := runs[runId];
      ghost var m := Mark(st.Value(), Log(runId), Others(runId));
      Marked(this, runId, m);
      Begin(this, st, m);
      TaskHanded(m.origin, workers, worker);
      task := ClaimReadyTaskLocked(st, worker, clock, m);
      ghost var op := OpClaim(workers, worker, clock);
      OrderFree(m.origin, op);
      Now(this, st, m, OpEvents(m.origin, op));
      OffersIff(m.origin, workers, worker, clock);
      if task.Some? { Save(st); }
      Committed(this, runId, m, op);
    }

    /** The least run that holds a task this worker can take is served; no task means
        that no run holds one. */
    method TryClaimTask(worker: string, clocks: string -> Clock) returns (task: Option<WorkerTask>)
      requires Valid()
      modifies this`snapshots, runs.Values, wal`files, wal.subscribers.Values
      ensures Valid()
      ensures task.None? ==>
        && (forall r :: Log(r) == old(Log(r)))
        && forall r | r in runs :: !Offers(StateOf(Log(r)), workers, worker)
      ensures task.Some? ==>
        var r := task.value.runId;
        && r in runs && Offers(StateOf(old(Log(r))), workers, worker)
        && (forall q | q in runs && Offers(StateOf(old(Log(q))), workers, worker) :: Leq(r, q))
        && task == Offered(StateOf(old(Log(r))), workers, worker) && Handed(StateOf(old(Log(r))), workers, worker, task.value)
        && Log(r) == old(Log(r)) + Claim(StateOf(old(Log(r))), workers, worker, clocks(r))
        && forall q | q != r :: Log(q) == old(Log(q))
      ensures forall r :: SnapshotOf(r) == if Log(r) != old(Log(r)) then Some(Copy(StateOf(Log(r)))) else old(SnapshotOf(r))
    {
      hide Valid, Log, StateOf, Offers, Offered, Handed, Claim, Sorted;
      SortedMembers(runs.Keys);
      var runIDs := SortKeys(runs.Keys);
      for i := 0 to |runIDs|
        invariant Valid()
        invariant forall r :: Log(r) == old(Log(r)) && SnapshotOf(r) == old(SnapshotOf(r))
        invariant forall j | 0 <= j < i :: !Offers(StateOf(old(Log(runIDs[j]))), workers, worker)
      {
        OffersIff(StateOf(Log(runIDs[i])), workers, worker, clocks(runIDs[i]));
        RunNamed(this, runIDs[i]);
        task := ClaimRun(runIDs[i], worker, clocks(runIDs[i]));
        if task.Some? {
          forall q | q in runs && Offers(StateOf(old(Log(q))), workers, worker) ensures Leq(runIDs[i], q) {
            assert forall j | 0 <= j < i :: runIDs[j] != q;
            FirstOffering(runs.Keys, i, q);
          }
          return;
        }
      }
      forall r | r in runs ensures !Offers(StateOf(Log(r)), workers, worker) {
        var j := SortedIndex(runs.Keys, r);
      }
      return None;
    }
  }

  // ---- What an operation on one run leaves in its log ----

  ghost predicate Performed(before: seq<Event>, after: seq<Event>, op: Op) {
    ValidOp(StateOf(before), op) && after == before + OpEvents(StateOf(before), op)
  }

  ghost predicate Beaten(before: seq<Event>, after: seq<Event>, worker: string, now: Time) {
    exists order :: Performed(before, after, OpHeartbeat(worker, now, order))
  }

  ghost predicate Swept(before: seq<Event>, after: seq<Event>, now: Time, clock: Clock) {
    exists order :: Performed(before, after, OpExpireLeases(now, order, clock))
  }

  ghost predicate Fired(before: seq<Event>, after: seq<Event>, now: Time, clock: Clock) {
    exists order :: Performed(before, after, OpFireTimers(now, order, clock))
  }

  lemma TaskHanded(s: RunData, reg: Registry, worker: string)
    requires Inv(s)
    ensures Offered(s, reg, worker).Some? ==>
      Handed(s, reg, worker, Offered(s, reg, worker).value) && Offered(s, reg, worker).value.runId == s.runId
  {
    OfferedIsHanded(s, reg, worker);
  }

  lemma RunNamed(engine: Engine, r: string)
    requires engine.Valid() && r in engine.runs
    ensures StateOf(engine.Log(r)).runId == r
  {
    assert engine.Kept(r);
  }

  lemma Ordered(s: RunData, op: Op)
    requires op.OpHeartbeat? ==> Enumerates(op.order, s.nodes.Keys)
    requires op.OpExpireLeases? ==> Enumerates(op.order, s.nodes.Keys)
    requires op.OpFireTimers? ==> Enumerates(op.order, s.timers.Keys)
    ensures ValidOp(s, op)
  {
  }

  // A run that is not in memory cannot be loaded either.
  lemma Absent(engine: Engine, r: string)
    requires engine.Valid()
    ensures r !in engine.runs && engine.Log(r) != [] ==>
      engine.Skips(r) && LegalLog(engine.Log(r)) && engine.Snapshotted(r)
    ensures engine.LoadError(r) == NoError <==> r in engine.runs
  {
    hide Reachable, StateOf, LegalLog, Inv, Replays, Replay, Wal.FeedInv, CopiesPrefix;
    assert engine.Kept(r);
    if r !in engine.runs && engine.Log(r) != [] {
      assert engine.Stuck(r);
      ReachableSound(Sys(engine.Log(r), false));
      SoundIsLegal(Sys(engine.Log(r), false));
    }
  }

  lemma Marked(engine: Engine, r: string, m: Mark)
    requires engine.Valid() && r in engine.runs && m == Mark(engine.runs[r].Value(), engine.Log(r), engine.Others(r))
    ensures engine.Since(engine.runs[r], m, [])
    ensures m.origin == StateOf(m.before) && engine.runs[r].runId == r == m.origin.runId
    ensures forall q | q in engine.runs && q != r :: engine.runs[q] != engine.runs[r]
  {
    hide Reachable, StateOf, Inv, Wal.FeedInv, Wal.ValidPrefix, Wal.Store.FeedOf, Wal.Clean, Wal.Store.Valid;
    assert engine.Kept(r);
    forall q | q in engine.runs ensures engine.runs[q].runId == q { assert engine.Kept(q); }
    NoEvents(m.origin);
    assert m.before + [] == m.before;
  }

  // ---- Startup ----

  function FileIn(files: map<string, seq<Wal.Record>>, r: string): seq<Wal.Record> {
    if r in files then files[r] else []
  }

  /** What a stopped engine leaves behind for one run: a file whose valid prefix some
      execution wrote, and a snapshot of any kind; a copy shows a prefix of that log. */
  ghost predicate LeftBehind(file: seq<Wal.Record>, snapshots: map<string, Snapshot>, r: string) {
    Wrote(Wal.ValidPrefix(file), r) && CopiesPrefix(snapshots, r, Wal.ValidPrefix(file))
  }

  // No log, or one that some execution of this run wrote.
  ghost predicate Wrote(log: seq<Event>, r: string) {
    log != [] ==> Reachable(Sys(log, false)) && StateOf(log).runId == r
  }

  predicate Skipped(file: seq<Wal.Record>, snapshots: map<string, Snapshot>, r: string) {
    !Wal.Clean(file) || (r in snapshots && snapshots[r].Undecodable?)
  }

  ghost predicate Persisted(wal: Wal.Store, snapshots: map<string, Snapshot>, r: string)
    reads wal`files, wal`subscribers, wal.subscribers.Values
  {
    LeftBehind(wal.File(r), snapshots, r) && Wal.FeedInv(wal.FeedOf(r))
  }

  ghost function Recovered(log: seq<Event>, clock: Clock): seq<Event> {
    if log == [] then [] else log + Reconcile(StateOf(log), clock)
  }

  // Startup reconciles a run, or skips it.
  ghost function Restored(log: seq<Event>, skipped: bool, clock: Clock): seq<Event> {
    if skipped then log else Recovered(log, clock)
  }

  lemma RestoredEmpty(log: seq<Event>, skipped: bool, clock: Clock)
    ensures Restored(log, skipped, clock) == [] <==> log == []
  {
    hide Reconcile;
  }

  lemma LeftSequenced(file: seq<Wal.Record>, snapshots: map<string, Snapshot>, r: string)
    requires LeftBehind(file, snapshots, r)
    ensures Wal.Sequenced(Wal.ValidPrefix(file))
  {
    hide Reachable, LegalLog, StateOf, Inv, Replays, Replay, CopiesPrefix;
    var log := Wal.ValidPrefix(file);
    if log != [] { ReachableSound(Sys(log, false)); }
  }

  lemma AllSequenced(files: map<string, seq<Wal.Record>>, snapshots: map<string, Snapshot>)
    requires forall r :: LeftBehind(FileIn(files, r), snapshots, r)
    ensures forall r | r in files :: Wal.Sequenced(Wal.ValidPrefix(files[r]))
  {
    hide LeftBehind;
    forall r | r in files ensures Wal.Sequenced(Wal.ValidPrefix(files[r])) {
      LeftSequenced(FileIn(files, r), snapshots, r);
    }
  }

  // A store without subscribers.
  lemma Opened(engine: Engine, files: map<string, seq<Wal.Record>>)
    requires engine.wal.Valid() && engine.wal.files == files && engine.wal.subscribers == map[]
    requires forall r :: LeftBehind(FileIn(files, r), engine.snapshots, r)
    ensures forall r :: Persisted(engine.wal, engine.snapshots, r)
    ensures forall r :: engine.Log(r) == Wal.ValidPrefix(FileIn(files, r)) && engine.wal.File(r) == FileIn(files, r)
  {
    hide LeftBehind, Wal.ValidPrefix;
    forall r ensures Persisted(engine.wal, engine.snapshots, r) {
      assert engine.wal.File(r) == FileIn(files, r);
      LeftSequenced(FileIn(files, r), engine.snapshots, r);
    }
  }

  lemma ServedIff(engine: Engine)
    requires engine.Valid()
    ensures forall r :: r in engine.runs <==> engine.Log(r) != [] && !engine.Skips(r)
  {
    hide Engine.Valid, Engine.Log;
    forall r ensures r in engine.runs <==> engine.Log(r) != [] && !engine.Skips(r) {
      Present(engine, r);
      Absent(engine, r);
    }
  }

  lemma LeftAlone(engine: Engine, r: string)
    requires Persisted(engine.wal, engine.snapshots, r) && r !in engine.runs && engine.Skips(r)
    ensures engine.Kept(r)
  {
    hide Reachable, StateOf, Wal.FeedInv, CopiesPrefix;
    assert engine.Stuck(r);
  }

  lemma PersistedFacts(wal: Wal.Store, snapshots: map<string, Snapshot>, r: string)
    requires Persisted(wal, snapshots, r)
    ensures wal.Log(r) != [] ==> LegalLog(wal.Log(r))
    ensures CopiesPrefix(snapshots, r, wal.Log(r))
  {
    hide Reachable, LegalLog, StateOf, Inv, Replays, Replay, CopiesPrefix;
    if wal.Log(r) != [] {
      ReachableSound(Sys(wal.Log(r), false));
      SoundIsLegal(Sys(wal.Log(r), false));
    }
  }

  lemma EmptyFile(file: seq<Wal.Record>)
    requires Wal.Clean(file) && Wal.ValidPrefix(file) == []
    ensures file == []
  {
  }

  lemma FileEmpty(file: seq<Wal.Record>)
    ensures file == [] ==> Wal.Clean(file) && Wal.ValidPrefix(file) == []
    ensures Wal.Clean(file) && Wal.ValidPrefix(file) == [] ==> file == []
  {
  }

  lemma NothingPersisted(engine: Engine, r: string)
    requires Persisted(engine.wal, engine.snapshots, r) && r !in engine.runs && engine.Log(r) == [] && Wal.Clean(engine.wal.File(r))
    ensures engine.Kept(r)
  {
    EmptyFile(engine.wal.File(r));
  }

  lemma NeverPersisted(engine: Engine, clocks: string -> Clock)
    requires engine.runs == map[] && forall r :: Persisted(engine.wal, engine.snapshots, r)
    ensures forall r | r !in engine.wal.files :: engine.Kept(r) && engine.Log(r) == Restored(engine.Log(r), engine.Skips(r), clocks(r))
  {
    hide Reachable, StateOf, TakenAt, Wal.FeedInv, Reconcile;
    forall r | r !in engine.wal.files ensures engine.Kept(r) && engine.Log(r) == Restored(engine.Log(r), engine.Skips(r), clocks(r)) {
      assert Persisted(engine.wal, engine.snapshots, r);
      assert engine.wal.File(r) == [] && engine.Log(r) == [];
    }
  }

  lemma Loaded(engine: Engine, st: ExecutionState, r: string, m: Mark)
    requires Persisted(engine.wal, engine.snapshots, r) && engine.wal.Valid() && engine.Log(r) != [] && Wal.Clean(engine.wal.File(r))
    requires st.Value() == StateOf(engine.Log(r)) && m == Mark(st.Value(), engine.Log(r), engine.Others(r))
    ensures engine.Since(st, m, [])
    ensures st.runId == r && Reachable(Sys(m.before, false)) && m.origin == StateOf(m.before)
    ensures m.before == engine.Log(r) && m.others == engine.Others(r)
    ensures CopiesPrefix(engine.snapshots, r, m.before)
  {
    hide Reachable, StateOf, Inv, Wal.FeedInv, Wal.ValidPrefix, Wal.Store.FeedOf, Wal.Clean, Wal.Store.Valid, LegalLog, TakenAt, Replays;
    PersistedFacts(engine.wal, engine.snapshots, r);
    LogInv(engine.Log(r));
    NoEvents(m.origin);
    assert m.before + [] == m.before;
  }

  lemma RunRecovered(engine: Engine, r: string, m: Mark, clock: Clock)
    requires r in engine.runs && m.origin == StateOf(m.before) && m.origin.runId == r && Reachable(Sys(m.before, false))
    requires engine.Since(engine.runs[r], m, Reconcile(m.origin, clock))
    requires CopiesPrefix(engine.snapshots, r, m.before) && !engine.Unreadable(r)
    ensures engine.Kept(r) && engine.wal.Valid() && engine.Others(r) == m.others
    ensures m.before != [] && engine.Log(r) == Recovered(m.before, clock) && !engine.Skips(r)
  {
    hide Reachable, StateOf, Inv, TakenAt, Wal.FeedInv, Wal.ValidPrefix, Wal.Store.FeedOf, Reconcile, Replay;
    var events := Reconcile(m.origin, clock);
    StateOfConcat(m.before, events);
    ReachableNotEmpty(Sys(m.before, false));
    assert events[..|events|] == events;
    assert Recovers(Sys(m.before, false), Sys(m.before + events, true), clock, |events|);
    ReachableNext(Sys(m.before, false), Sys(m.before + events, true));
    CopyKept(engine.snapshots, r, m.before, events);
  }

  twostate lemma PersistedElsewhere(engine: Engine, new r: string, new q: string)
    requires old(Persisted(engine.wal, engine.snapshots, q)) && q != r
    requires engine.Others(r) == old(engine.Others(r)) && engine.snapshots == old(engine.snapshots)
    ensures Persisted(engine.wal, engine.snapshots, q) && engine.Log(q) == old(engine.Log(q)) && engine.Skips(q) == old(engine.Skips(q)) && engine.wal.File(q) == old(engine.wal.File(q))
  {
    hide Reachable, StateOf, TakenAt, Wal.FeedInv, Wal.ValidPrefix, Wal.Store.FeedOf;
    assert engine.Others(r)[q] == old(engine.Others(r))[q];
    assert engine.wal.File(q) == old(engine.wal.File(q));
    assert engine.Log(q) == old(engine.Log(q));
  }

  twostate lemma KeptElsewhere(engine: Engine, new r: string, new q: string)
    requires old(engine.Kept(q)) && q != r
    requires engine.wal.Valid() && engine.Others(r) == old(engine.Others(r))
    requires q in engine.snapshots <==> q in old(engine.snapshots)
    requires q in engine.snapshots ==> engine.snapshots[q] == old(engine.snapshots)[q]
    requires q in engine.runs <==> q in old(engine.runs)
    requires q in engine.runs ==> engine.runs[q] == old(engine.runs)[q] && engine.runs[q].Value() == old(engine.runs[q].Value())
    ensures engine.Kept(q) && engine.Log(q) == old(engine.Log(q)) && engine.Skips(q) == old(engine.Skips(q)) && engine.wal.File(q) == old(engine.wal.File(q))
  {
    hide Reachable, StateOf, Inv, TakenAt, Wal.FeedInv, Wal.ValidPrefix, Wal.Store.FeedOf;
    assert engine.Others(r)[q] == old(engine.Others(r))[q];
  }

  twostate lemma Elsewhere(engine: Engine, new r: string, new rest: set<string>)
    requires engine.wal.Valid() && engine.Others(r) == old(engine.Others(r)) && engine.snapshots == old(engine.snapshots)
    requires forall q | q in rest :: old(Persisted(engine.wal, engine.snapshots, q))
    requires forall q | q !in rest :: old(engine.Kept(q))
    requires forall q | q != r :: q in engine.runs <==> q in old(engine.runs)
    requires forall q | q in engine.runs && q != r && q in old(engine.runs) ::
      engine.runs[q] == old(engine.runs)[q] && engine.runs[q].Value() == old(engine.runs[q].Value())
    ensures forall q | q != r :: engine.Log(q) == old(engine.Log(q)) && engine.Skips(q) == old(engine.Skips(q)) && engine.wal.File(q) == old(engine.wal.File(q))
    ensures forall q | q != r && q in rest :: Persisted(engine.wal, engine.snapshots, q)
    ensures forall q | q != r && q !in rest :: engine.Kept(q)
  {
    hide Persisted, Engine.Kept, Engine.Log, Engine.Others, Engine.Skips, Wal.Store.Valid, Wal.Store.File;
    forall q | q != r
      ensures engine.Log(q) == old(engine.Log(q)) && engine.Skips(q) == old(engine.Skips(q)) && engine.wal.File(q) == old(engine.wal.File(q))
      ensures q in rest ==> Persisted(engine.wal, engine.snapshots, q)
      ensures q !in rest ==> engine.Kept(q)
    {
      if q in rest { PersistedElsewhere(engine, r, q); } else { KeptElsewhere(engine, r, q); }
    }
  }

  // ---- New runs and subscriptions ----

  lemma CountStep(engine: Engine, rest: set<string>, r: string)
    requires rest <= engine.runs.Keys && r in rest
    ensures |engine.ActiveAmong(rest)| == |engine.ActiveAmong(rest - {r})| + if engine.runs[r].Value().Terminal() then 0 else 1
  {
    var active := engine.ActiveAmong(rest - {r});
    hide ExecutionState.Value;
    assert engine.ActiveAmong(rest) == if engine.runs[r].Value().Terminal() then active else active + {r};
  }

  twostate lemma OneMoreActive(engine: Engine, new r: string)
    requires r in engine.runs && r !in old(engine.runs) && engine.runs == old(engine.runs)[r := engine.runs[r]]
    requires forall q | q in old(engine.runs) :: engine.runs[q].Value() == old(engine.runs[q].Value())
    ensures |engine.ActiveAmong(engine.runs.Keys)| <= |old(engine.ActiveAmong(engine.runs.Keys))| + 1
  {
    hide ExecutionState.Value;
    Sets.SubsetSize(engine.ActiveAmong(engine.runs.Keys), old(engine.ActiveAmong(engine.runs.Keys)) + {r});
  }

  lemma Unused(engine: Engine, r: string)
    requires engine.Valid() && engine.wal.File(r) == []
    ensures engine.wal.Valid() && Wal.Clean(engine.wal.File(r)) && Wal.FeedInv(engine.wal.FeedOf(r))
  {
    assert engine.Kept(r);
  }

  lemma NoFile(engine: Engine, r: string)
    ensures engine.wal.File(r) == [] ==> engine.Log(r) == []
  {
  }

  lemma StartNamed(e: Event)
    requires e.payload.WorkflowStarted?
    ensures Step(EMPTY_RUN, e).runId == e.runId
  {
  }

  lemma RunStarted(engine: Engine, r: string, e: Event)
    requires e == Event(1, r, e.timestamp, e.payload) && e.payload.WorkflowStarted? && ValidDef(e.payload.def)
    requires r in engine.runs && engine.runs[r].Value() == Step(EMPTY_RUN, e) && engine.Log(r) == [e]
    requires engine.wal.Valid() && Wal.Clean(engine.wal.File(r)) && Wal.FeedInv(engine.wal.FeedOf(r))
    requires r in engine.snapshots && engine.snapshots[r] == Copy(engine.runs[r].Value())
    ensures engine.Kept(r)
  {
    StartInv(e);
    StateOfAppend([], e);
    assert [] + [e] == [e];
    ReachableStart(Sys([e], true));
    LatestTaken([e]);
    hide StateOf, Inv, Step, Reachable, Wal.FeedInv, Wal.ValidPrefix, Wal.Store.FeedOf;
    assert TakenAt(engine.snapshots[r].state, engine.Log(r), 1);
  }

  twostate lemma StartedAlone(engine: Engine, new r: string)
    requires old(engine.Valid()) && r !in old(engine.runs) && r in engine.runs
    requires engine.Kept(r) && engine.wal.Valid() && engine.Others(r) == old(engine.Others(r))
    requires r in engine.snapshots && engine.snapshots == old(engine.snapshots)[r := engine.snapshots[r]]
    requires engine.runs == old(engine.runs)[r := engine.runs[r]]
    requires forall q | q in old(engine.runs) :: engine.runs[q].Value() == old(engine.runs[q].Value())
    ensures engine.Valid() && forall q | q != r :: engine.Log(q) == old(engine.Log(q))
  {
    hide Engine.Kept, Engine.Log, Engine.Others, Wal.Store.Valid;
    forall q ensures engine.Kept(q) && (q != r ==> engine.Log(q) == old(engine.Log(q))) {
      assert old(engine.Kept(q));
      if q != r { KeptElsewhere(engine, r, q); }
    }
  }

  lemma Present(engine: Engine, r: string)
    requires engine.Valid()
    ensures r in engine.runs ==> engine.Log(r) != [] && !engine.Skips(r)
  {
    hide Reachable, StateOf, CopiesPrefix, Wal.FeedInv;
    assert engine.Kept(r);
    if r in engine.runs { ReachableNotEmpty(Sys(engine.Log(r), true)); }
  }

  lemma ShownByLog(engine: Engine, r: string)
    requires engine.Valid() && r in engine.runs
    ensures engine.runs[r].Value() == StateOf(engine.Log(r))
  {
    assert engine.Kept(r);
  }

  lemma Opens(engine: Engine)
    requires engine.Valid()
    ensures engine.wal.Valid()
  {
  }

  twostate lemma StaysOpen(engine: Engine)
    requires old(engine.Valid()) && engine.wal.files == old(engine.wal.files)
    requires engine.wal.subscribers == old(engine.wal.subscribers) && engine.wal.nextSubID == old(engine.wal.nextSubID)
    ensures engine.wal.Valid()
  {
  }

  // ---- Subscriber steps ----

  /** A step of the store or of one delivery goroutine that leaves every log alone and
      changes the subscribers of one run as the protocol says keeps the invariant. */
  twostate lemma FeedActs(engine: Engine, new r: string, new a: Wal.Action)
    requires old(engine.Valid()) && engine.wal.Valid() && !a.Append?
    requires Wal.Enabled(old(engine.wal.FeedOf(r)), a) && engine.wal.FeedOf(r) == Wal.Act(old(engine.wal.FeedOf(r)), a)
    requires forall q | q != r :: engine.wal.FeedOf(q) == old(engine.wal.FeedOf(q))
    requires engine.wal.files == old(engine.wal.files)
    requires engine.runs == old(engine.runs) && engine.snapshots == old(engine.snapshots)
    requires forall q | q in engine.runs :: engine.runs[q].Value() == old(engine.runs[q].Value())
    ensures engine.Valid()
  {
    hide StateOf, Inv, Reachable, LegalLog, Wal.FeedInv, TakenAt, Wal.Act, Wal.Enabled, Wal.Store.FeedOf, Wal.ValidPrefix;
    forall q ensures engine.Kept(q) {
      assert old(engine.Kept(q));
      if q == r { Wal.ActKeepsInv(old(engine.wal.FeedOf(r)), a); }
      assert engine.wal.File(q) == old(engine.wal.File(q));
      if q in engine.runs { assert engine.runs[q].Value() == old(engine.runs[q].Value()); }
    }
  }

  // What the step of a registered subscriber starts from and leads to.
  lemma Moving(store: Wal.Store, a: Wal.Action)
    requires Wal.CanMove(store, a)
    ensures a.id in store.subscribers && forall id | id in store.subscribers :: store.subscribers[id].id == id
    ensures var sub := store.subscribers[a.id];
      && (a.Next? ==> sub.stage.Fetching? && (sub.pending != [] || sub.closed))
      && (a.Send? || a.Quit? ==> sub.stage.Offering?)
      && (a.Quit? ==> sub.closed)
      && Wal.Enabled(store.FeedOf(sub.runId), a)
      && a.id in Wal.Act(store.FeedOf(sub.runId), a).subs
      && Wal.Act(store.FeedOf(sub.runId), a).subs[a.id] ==
           match a
           case Next(_) => Wal.Fetched(sub.View())
           case Send(_) => Wal.Sent(sub.View())
           case Quit(_) => sub.View().(stage := Wal.Stopped)
           case _ => sub.View().(closed := true)
  {
  }

  twostate lemma SubscriberMoves(engine: Engine, new a: Wal.Action)
    requires old(engine.Valid()) && old(Wal.CanMove(engine.wal, a))
    requires engine.wal.files == old(engine.wal.files) && engine.wal.subscribers == old(engine.wal.subscribers)
    requires engine.wal.nextSubID == old(engine.wal.nextSubID)
    requires engine.runs == old(engine.runs) && engine.snapshots == old(engine.snapshots)
    requires forall q | q in engine.runs :: engine.runs[q].Value() == old(engine.runs[q].Value())
    requires engine.wal.subscribers[a.id].View() == Wal.Act(old(engine.wal.FeedOf(engine.wal.subscribers[a.id].runId)), a).subs[a.id]
    requires forall id | id in engine.wal.subscribers && id != a.id ::
      engine.wal.subscribers[id].View() == old(engine.wal.subscribers[id].View())
    ensures engine.Valid()
    ensures var r := engine.wal.subscribers[a.id].runId;
      Wal.Enabled(old(engine.wal.FeedOf(r)), a) && engine.wal.FeedOf(r) == Wal.Act(old(engine.wal.FeedOf(r)), a)
  {
    hide Engine.Valid, Wal.Store.FeedOf, Wal.Act, Wal.Enabled, Wal.CanMove;
    StaysOpen(engine);
    Wal.SubscriberActs(engine.wal, a);
    FeedActs(engine, engine.wal.subscribers[a.id].runId, a);
  }

  // ---- Back to the engine's invariant after an operation on run r ----

  lemma CopyKept(snapshots: map<string, Snapshot>, r: string, before: seq<Event>, events: seq<Event>)
    requires CopiesPrefix(snapshots, r, before)
    ensures CopiesPrefix(snapshots, r, before + events)
  {
    hide StateOf;
    if r in snapshots && snapshots[r].Copy? {
      var k: nat :| TakenAt(snapshots[r].state, before, k);
      assert (before + events)[..k] == before[..k];
      assert TakenAt(snapshots[r].state, before + events, k);
    }
  }

  twostate predicate OnlyRun(engine: Engine, new r: string, new m: Mark)
    reads engine`runs, engine`snapshots, engine.runs.Values, engine.wal`files, engine.wal`subscribers, engine.wal`nextSubID, engine.wal.subscribers.Values
  {
    && engine.runs == old(engine.runs) && r in engine.runs
    && m == old(Mark(engine.runs[r].Value(), engine.Log(r), engine.Others(r)))
    && (forall q | q in engine.runs && q != r :: engine.runs[q].Value() == old(engine.runs[q].Value()))
    && (engine.snapshots == old(engine.snapshots) || engine.snapshots == old(engine.snapshots)[r := Copy(engine.runs[r].Value())])
  }

  twostate lemma OtherCommitted(engine: Engine, new r: string, new m: Mark, new q: string)
    requires old(engine.Valid()) && OnlyRun(engine, r, m) && q != r
    requires engine.wal.Valid() && engine.Others(r) == m.others
    ensures engine.Kept(q)
  {
    hide Reachable, StateOf, Inv, TakenAt, Wal.FeedInv, Wal.ValidPrefix, Wal.Store.FeedOf;
    assert old(engine.Kept(q));
    assert engine.Others(r)[q] == m.others[q];
  }

  twostate lemma RunCommitted(engine: Engine, new r: string, new m: Mark, new op: Op)
    requires old(engine.Valid()) && OnlyRun(engine, r, m)
    requires ValidOp(m.origin, op) && engine.Since(engine.runs[r], m, OpEvents(m.origin, op))
    ensures engine.Served(r) && engine.Snapshotted(r)
  {
    hide Reachable, StateOf, Inv, TakenAt, Wal.FeedInv, Wal.ValidPrefix, Wal.Store.FeedOf, OpEvents, ValidOp, Replay;
    assert old(engine.Kept(r));
    var events := OpEvents(m.origin, op);
    StateOfConcat(m.before, events);
    assert Operates(Sys(m.before, true), Sys(m.before + events, true), op);
    ReachableNext(Sys(m.before, true), Sys(m.before + events, true));
    if engine.snapshots != old(engine.snapshots) {
      ReachableNotEmpty(Sys(m.before, true));
      LatestTaken(engine.Log(r));
      assert TakenAt(engine.snapshots[r].state, engine.Log(r), |engine.Log(r)|);
    } else {
      CopyKept(engine.snapshots, r, m.before, events);
    }
  }

  lemma ReachableNotEmpty(y: Sys)
    requires Reachable(y)
    ensures y.log != []
  {
    hide Reachable, LegalLog, StateOf, Inv, Replays, Replay;
    ReachableSound(y);
    SoundIsLegal(y);
    LegalNotEmpty(y.log);
  }

  lemma LatestTaken(log: seq<Event>)
    ensures log != [] ==> TakenAt(StateOf(log), log, |log|)
  {
    assert log[..|log|] == log;
  }

  twostate lemma LogsElsewhere(engine: Engine, new r: string, new q: string)
    requires engine.Others(r) == old(engine.Others(r)) && q != r
    ensures engine.Log(q) == old(engine.Log(q))
  {
    hide Wal.FeedInv, Wal.ValidPrefix, Wal.Store.FeedOf;
    assert engine.Others(r)[q] == old(engine.Others(r))[q];
  }

  twostate lemma Committed(engine: Engine, new r: string, new m: Mark, new op: Op)
    requires old(engine.Valid())
    requires engine.runs == old(engine.runs) && r in engine.runs
    requires m == old(Mark(engine.runs[r].Value(), engine.Log(r), engine.Others(r)))
    requires forall q | q in engine.runs && q != r :: engine.runs[q].Value() == old(engine.runs[q].Value())
    requires engine.snapshots == if OpEvents(m.origin, op) != [] then old(engine.snapshots)[r := Copy(engine.runs[r].Value())] else old(engine.snapshots)
    requires ValidOp(m.origin, op)
    requires engine.Since(engine.runs[r], m, OpEvents(m.origin, op))
    ensures engine.Valid()
    ensures forall q :: engine.SnapshotOf(q) == if engine.Log(q) != old(engine.Log(q)) then Some(Copy(StateOf(engine.Log(q)))) else old(engine.SnapshotOf(q))
    ensures engine.Log(r) == old(engine.Log(r)) + OpEvents(m.origin, op)
    ensures forall q | q != r :: engine.Log(q) == old(engine.Log(q))
  {
    RunCommitted(engine, r, m, op);
    SinceStored(engine, engine.runs[r], m, OpEvents(m.origin, op));
    hide OnlyRun, Reachable, StateOf, Inv, Wal.FeedInv, OpEvents, ValidOp, Replay, Wal.ValidPrefix, Wal.Store.FeedOf;
    assert m == old(Mark(engine.runs[r].Value(), engine.Log(r), engine.Others(r))) by { Unpack(engine, r, m); }
    forall q ensures engine.Kept(q) {
      if q != r { OtherCommitted(engine, r, m, q); }
    }
    forall q | q != r ensures engine.Log(q) == old(engine.Log(q)) { LogsElsewhere(engine, r, q); }
  }

  twostate lemma Unpack(engine: Engine, new r: string, new m: Mark)
    requires OnlyRun(engine, r, m)
    ensures r in old(engine.runs) && m == old(Mark(engine.runs[r].Value(), engine.Log(r), engine.Others(r)))
  {
  }

  // Only sweeps over maps take an order.
  lemma OrderFree(s: RunData, op: Op)
    requires !op.OpHeartbeat? && !op.OpExpireLeases? && !op.OpFireTimers?
    ensures ValidOp(s, op)
  {
  }

  lemma SinceStored(engine: Engine, st: ExecutionState, m: Mark, events: seq<Event>)
    requires engine.Since(st, m, events)
    ensures engine.wal.Valid() && engine.Others(st.runId) == m.others && Wal.FeedInv(engine.wal.FeedOf(st.runId))
    ensures engine.Log(st.runId) == m.before + events
  {
  }

  lemma FeedKept(f: Wal.Feed, e: Event)
    requires Wal.FeedInv(f) && e.seqNo == |f.log| + 1
    ensures Wal.FeedInv(Wal.Act(f, Wal.Action.Append(e)))
  {
    Wal.ActKeepsInv(f, Wal.Action.Append(e));
  }

  lemma Now(engine: Engine, st: ExecutionState, m: Mark, done: seq<Event>)
    requires engine.Since(st, m, done)
    ensures st.Value() == Replay(m.origin, done) && Inv(Replay(m.origin, done)) && st.runId == m.origin.runId
  {
  }

  lemma Begin(engine: Engine, st: ExecutionState, m: Mark)
    requires engine.Since(st, m, [])
    ensures st.Value() == m.origin == Replay(m.origin, []) && Inv(m.origin) && st.runId == m.origin.runId
    ensures forall events: seq<Event> :: [] + events == events
  {
  }
}
