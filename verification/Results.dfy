/** What each operation answers and what it leaves, written out on the run's fields
    (internal/engine/engine.go). */
module Results {
  import opened Runtime
  import opened State
  import opened Strings
  import opened TimerIds
  import opened Workflowdef
  import opened EngineSpec
  import opened Guards
  import opened Invariant
  import opened Logs
  import opened Operations
  import opened Lifecycle
  import opened Dispatching
  import Deadlines
  import Growth
  import Liveness

  // ---- The run-level transition that follows ----

  // A failure nothing will retry: no unfired backoff for the attempt that failed.
  ghost predicate Lost(s: RunData, n: string) {
    && n in s.nodes && s.nodes[n].state.Failed?
    && forall id | id in s.timers ::
         var t := s.timers[id]; !(t.node == n && t.purpose.RetryBackoff? && t.attempt == s.nodes[n].attempt && !t.fired)
  }

  ghost predicate SomethingLost(s: RunData) {
    exists n :: Lost(s, n)
  }

  ghost predicate WorkLeft(s: RunData) {
    exists i :: 0 <= i < |s.stack| && !s.stack[i].completed
  }

  ghost predicate AllCompleted(s: RunData) {
    forall n | n in s.nodes :: s.nodes[n].state.Completed?
  }

  ghost predicate AllEnded(s: RunData) {
    forall n | n in s.nodes :: s.nodes[n].state.Completed? || s.nodes[n].state.Failed? || s.nodes[n].state.Cancelled?
  }

  /** From `s` the one transition that is due, if any, leads to `t`: read by the state
      the run ends up in. */
  ghost predicate Settled(s: RunData, t: RunData, clock: Clock) {
    && t == s.(runState := t.runState, finishedAt := t.finishedAt, lastSeq := t.lastSeq)
    && (t.runState.RunCompleted? <==> s.runState.RunCompleted? || (Forward(s) && AllCompleted(s)))
    && (t.runState.RunFailed? <==>
          s.runState.RunFailed? || (Forward(s) && !AllCompleted(s) && SomethingLost(s) && !WorkLeft(s)))
    && (t.runState.RunCancelled? <==> s.runState.RunCancelled? || (s.cancelRequested && !s.Terminal() && AllEnded(s)))
    && (t.runState.RunCompensated? <==>
          s.runState.RunCompensated? || (s.runState.RunCompensating? && !s.cancelRequested && s.active.None? && !WorkLeft(s)))
    && (t.runState.RunCompensating? <==>
          || (Forward(s) && !AllCompleted(s) && SomethingLost(s) && WorkLeft(s))
          || (s.runState.RunCompensating? && !t.Terminal()))
    && t.lastSeq == (if t.runState == s.runState then s.lastSeq else s.lastSeq + 1)
    && t.finishedAt == (if t.Terminal() && !s.Terminal() then Some(clock(s.lastSeq + 1)) else s.finishedAt)
  }

  lemma LostIsUnrecovered(s: RunData)
    ensures SomethingLost(s) <==> HasUnrecoveredFailure(s)
  {
    forall n | n in s.nodes ensures Lost(s, n) <==> UnrecoveredFailure(s, n) {}
  }

  lemma AdvanceSettles(s: RunData, clock: Clock)
    requires s.nodes != map[]
    ensures Settled(s, Replay(s, Advance(s, clock)), clock)
  {
    LostIsUnrecovered(s);
    var t := Replay(s, Advance(s, clock));
    if AdvancePayload(s).Some? {
      var e := Emit(s, clock, AdvancePayload(s).value);
      OneStep(s, e);
      Turned(s, e);
    }
    hide Step, HasUnrecoveredFailure, SomethingLost;
  }

  lemma Turned(s: RunData, e: Event)
    requires Ends(e.payload) || e.payload.CompensationStarted?
    requires e.payload.CompensationCompleted? ==> s.active.None?
    ensures var t := Step(s, e);
      && t == s.(runState := t.runState, finishedAt := if Ends(e.payload) then Some(e.timestamp) else s.finishedAt, lastSeq := e.seqNo)
      && OutcomeFollows(e.payload, s.runState, t.runState)
  {
  }

  // ---- Answers ----

  predicate RefusedLease(s: RunData, worker: string, node: string, attempt: uint32, error: Error) {
    && (error == TaskNotFound <==> node !in s.nodes)
    && (error == LeaseLost <==> node in s.nodes && s.nodes[node].attempt == attempt && !s.nodes[node].state.Running?)
    && (error == TaskNotFound || error == LeaseLost || error == AttemptMismatch)
  }

  /** A report on a node is accepted, or refused for a reason of the run's, exactly
      while its lease is held, whether or not the run has ended. */
  lemma CompleteAnswer(s: RunData, req: CompleteRequest, clock: Clock)
    requires !req.compensation
    ensures var o := CompleteTask(s, req, clock); var held := Holds(s, req.node, req.worker, req.attempt);
      && (o.error == NoError || o.error == RunIsCancelled || o.error == InvalidSpawn <==> held)
      && (!held ==> RefusedLease(s, req.worker, req.node, req.attempt, o.error))
      && (o.error == RunIsCancelled <==> held && s.cancelRequested)
      && (o.error == InvalidSpawn <==> held && !s.cancelRequested && !req.checkpoint && !SpawnOk(s.nodes, req.spawned))
      && (o.events == [] <==> o.error != NoError && o.error != InvalidSpawn)
  {
    hide SpawnOk, Step, Advance, CheckpointTimer;
  }

  lemma FailAnswer(s: RunData, req: FailRequest, retryNow: Time, clock: Clock)
    requires !req.compensation
    ensures var o := FailTask(s, req, retryNow, clock); var held := Holds(s, req.node, req.worker, req.attempt);
      && (o.error == NoError || o.error == RunIsCancelled <==> held)
      && (!held ==> RefusedLease(s, req.worker, req.node, req.attempt, o.error))
      && (o.error == RunIsCancelled <==> held && s.cancelRequested && !req.cancelled)
      && (o.events == [] <==> o.error != NoError)
  {
    hide Step, Advance, RetryTimer, HasPendingRetryTimer;
  }

  /** A report on a compensation task is accepted exactly while that task is open under
      the reported worker and attempt, in any run. */
  lemma CompensationAnswer(s: RunData, req: CompleteRequest, fail: FailRequest, retryNow: Time, clock: Clock)
    requires req.compensation && fail.compensation
    ensures var o := CompleteTask(s, req, clock);
      && (o.error == NoError <==> s.active.Some? && s.active.value.node == req.node && s.active.value.worker == req.worker && s.active.value.attempt == req.attempt)
      && (o.error == TaskNotFound <==> s.active.None?) && (o.error == NoError || o.error == TaskNotFound || o.error == AttemptMismatch)
      && (o.events == [] <==> o.error != NoError)
    ensures var o := FailTask(s, fail, retryNow, clock);
      && (o.error == NoError <==> s.active.Some? && s.active.value.node == fail.node && s.active.value.worker == fail.worker && s.active.value.attempt == fail.attempt)
      && (o.error == TaskNotFound <==> s.active.None?) && (o.error == NoError || o.error == TaskNotFound || o.error == AttemptMismatch)
      && (o.events == [] <==> o.error != NoError)
  {
    hide Step, Advance;
  }

  // What was answered tells whether anything was appended.
  lemma CompleteAppends(s: RunData, req: CompleteRequest, clock: Clock)
    ensures var o := CompleteTask(s, req, clock); o.events != [] <==> o.error == NoError || o.error == InvalidSpawn
  {
    hide SpawnOk, Step, Advance, CheckpointTimer;
  }

  lemma FailAppends(s: RunData, req: FailRequest, retryNow: Time, clock: Clock)
    ensures var o := FailTask(s, req, retryNow, clock); o.events != [] <==> o.error == NoError
  {
    hide Step, Advance, RetryTimer, HasPendingRetryTimer;
  }

  lemma ApproveAppends(s: RunData, n: string, clock: Clock)
    ensures var o := ApproveCheckpoint(s, n, clock); o.events != [] <==> o.error == NoError
  {
  }

  lemma CancelAppends(s: RunData, clock: Clock)
    ensures CancelRun(s, clock) != [] <==> !s.Terminal() && !s.cancelRequested
  {
    hide Step, CancelEligible, Advance;
  }

  // ---- Completions ----

  // A spawned node enters with what was asked for.
  ghost predicate EntersAs(nodes: Nodes, asked: NodeDef) {
    asked.id in nodes && Keeps(asked, nodes[asked.id].def) && Enters(nodes, nodes[asked.id].def)
  }

  /** An accepted completion: the node is COMPLETED under its holder and on the stack if
      its definition names a compensation, the spawned nodes are in the graph as they
      were asked for, whatever waited for this node alone is READY. */
  lemma CompletionResult(s: RunData, req: CompleteRequest, clock: Clock) returns (u: RunData)
    requires Inv(s) && !req.compensation && !req.checkpoint && CompleteTask(s, req, clock).error == NoError
    ensures var n := req.node; n in s.nodes && var def := s.nodes[n].def;
      && u == s.(nodes := u.nodes, stack := u.stack, lastSeq := s.lastSeq + 1)
      && u.stack == (if def.compensation == "" then s.stack else s.stack + [CompensationEntry(n, def.compensation, false, 0)])
      && u.nodes.Keys == s.nodes.Keys + Ids(req.spawned)
      && u.nodes[n] == s.nodes[n].(state := Completed, heartbeat := None)
      && (forall m | m in s.nodes && m != n :: StaysBut(u.nodes, s.nodes[m], u.nodes[m]))
      && (forall i | 0 <= i < |req.spawned| :: EntersAs(u.nodes, req.spawned[i]))
    ensures Settled(u, Replay(s, CompleteTask(s, req, clock).events), clock)
  {
    hide Step, Inv, Legal, SpawnOk, Settled, ThenAdvance, Advance, Enters, StaysBut, Keeps;
    CompleteAnswer(s, req, clock);
    var e := Emit(s, clock, NodeCompleted(req.node, req.worker, req.attempt, NormalForms(req.spawned)));
    u := Step(s, e);
    assert CompleteTask(s, req, clock).events == ThenAdvance(s, clock, [e]);
    NormalFormsFresh(s.nodes, req.spawned);
    NormalFormsKeep(req.spawned);
    CompletionFollows(s, e);
    KnownById(s, req.node);
    ReplayReport(s, clock, e);
    AdvanceSettles(u, clock);
    forall i | 0 <= i < |req.spawned| ensures EntersAs(u.nodes, req.spawned[i]) {
      assert Enters(u.nodes, NormalForms(req.spawned)[i]) && Keeps(req.spawned[i], NormalForms(req.spawned)[i]);
      EnteredDef(u.nodes, req.spawned[i], NormalForms(req.spawned)[i]);
    }
  }

  lemma EnteredDef(nodes: Nodes, asked: NodeDef, def: NodeDef)
    requires Enters(nodes, def) && Keeps(asked, def)
    ensures EntersAs(nodes, asked)
  {
  }

  lemma KnownById(s: RunData, n: string)
    requires Inv(s) && n in s.nodes
    ensures s.nodes[n].def.id == n
  {
  }

  lemma NormalFormsFresh(nodes: Nodes, spawned: seq<NodeDef>)
    requires SpawnOk(nodes, spawned)
    ensures UniqueIds(NormalForms(spawned)) && forall i | 0 <= i < |spawned| :: NormalForms(spawned)[i].id !in nodes
    ensures Ids(NormalForms(spawned)) == Ids(spawned)
  {
    NormalFormsKeepSpawnOk(nodes, spawned);
    IdsOfNormalForms(spawned);
    hide Keeps;
    forall i | 0 <= i < |spawned| ensures NormalForms(spawned)[i].id == spawned[i].id {}
  }

  /** A rejected spawn: the node is FAILED, no node is added. */
  lemma InvalidSpawnResult(s: RunData, req: CompleteRequest, clock: Clock) returns (u: RunData)
    requires Inv(s) && !req.compensation && CompleteTask(s, req, clock).error == InvalidSpawn
    ensures req.node in s.nodes
    ensures u == s.(nodes := s.nodes[req.node := s.nodes[req.node].(state := Failed, heartbeat := None)], lastSeq := s.lastSeq + 1)
    ensures Settled(u, Replay(s, CompleteTask(s, req, clock).events), clock)
    ensures var events := CompleteTask(s, req, clock).events;
      events != [] && events[0].payload == NodeFailed(req.node, req.worker, req.attempt, false, false)
  {
    hide Step, Inv, Legal, SpawnOk, Settled, ThenAdvance, Advance;
    CompleteAnswer(s, req, clock);
    var e := Emit(s, clock, NodeFailed(req.node, req.worker, req.attempt, false, false));
    u := Step(s, e);
    FailedNode(s, e);
    assert req.node in u.nodes;
    ReplayReport(s, clock, e);
    AdvanceSettles(u, clock);
  }

  lemma FailedNode(s: RunData, e: Event)
    requires e.payload.NodeFailed? && e.seqNo == s.lastSeq + 1 && Holds(s, e.payload.node, e.payload.worker, e.payload.attempt)
    ensures Step(s, e) ==
      s.(nodes := s.nodes[e.payload.node := s.nodes[e.payload.node].(state := Failed, heartbeat := None)], lastSeq := s.lastSeq + 1)
  {
  }

  // A timer as it stands after it was scheduled.
  function Pending(s: RunData, n: string, a: uint32, p: TimerPurpose, fireAt: Time): Timer {
    Timer(TimerId(s.runId, n, a, p), n, a, p, fireAt, false)
  }

  function WithTimer(s: RunData, t: Timer): RunData {
    s.(timers := s.timers[t.id := t], lastSeq := s.lastSeq + 1)
  }

  lemma TimerResult(s: RunData, e: Event)
    requires e.payload.TimerScheduled? && e.seqNo == s.lastSeq + 1
    ensures var p := e.payload; Step(s, e) == WithTimer(s, Timer(p.timer, p.node, p.attempt, p.purpose, p.fireAt, false))
  {
  }

  lemma CheckpointAppends(s: RunData, req: CompleteRequest, clock: Clock) returns (e: Event, f: Event)
    requires !req.compensation && req.checkpoint && CompleteTask(s, req, clock).error == NoError
    ensures Holds(s, req.node, req.worker, req.attempt)
    ensures var n, a := req.node, req.attempt; var timeout := s.nodes[n].def.checkpointTimeout;
      && e == Emit(s, clock, CheckpointReached(n, req.worker, a))
      && f == Event(s.lastSeq + 2, s.runId, clock(s.lastSeq + 2),
                    TimerScheduled(TimerId(s.runId, n, a, CheckpointTimeout), n, a, CheckpointTimeout, clock(s.lastSeq + 2) + timeout))
      && CompleteTask(s, req, clock).events == if timeout > 0 then [e, f] else [e]
  {
    hide TimerId, Step, SpawnOk;
    var n, a := req.node, req.attempt;
    e := Emit(s, clock, CheckpointReached(n, req.worker, a));
    ReachedNode(s, e);
    f := Emit(Step(s, e), clock,
      TimerScheduled(TimerId(s.runId, n, a, CheckpointTimeout), n, a, CheckpointTimeout, clock(s.lastSeq + 2) + s.nodes[n].def.checkpointTimeout));
    assert [e] + [f] == [e, f] && [e] + [] == [e];
  }

  /** A checkpoint: the node waits for approval, held by nobody; its timeout is armed if
      and only if the definition asks for one, and nothing else changes. */
  lemma CheckpointResult(s: RunData, req: CompleteRequest, clock: Clock)
    requires !req.compensation && req.checkpoint && CompleteTask(s, req, clock).error == NoError
    ensures req.node in s.nodes
    ensures var n := req.node; var timeout := s.nodes[n].def.checkpointTimeout; var events := CompleteTask(s, req, clock).events;
      var u := s.(nodes := s.nodes[n := s.nodes[n].(state := AwaitingApproval, worker := "", heartbeat := None)], lastSeq := s.lastSeq + 1);
      && |events| == (if timeout > 0 then 2 else 1)
      && Replay(s, events) ==
           if timeout > 0 then WithTimer(u, Pending(s, n, req.attempt, CheckpointTimeout, clock(s.lastSeq + 2) + timeout)) else u
  {
    hide TimerId, Step, CompleteTask, Replay;
    var e, f := CheckpointAppends(s, req, clock);
    ReachedNode(s, e);
    TimerResult(Step(s, e), f);
    OneStep(s, e);
    TwoSteps(s, e, f);
  }

  lemma ReachedNode(s: RunData, e: Event)
    requires e.payload.CheckpointReached? && e.seqNo == s.lastSeq + 1 && e.payload.node in s.nodes
    ensures Step(s, e) ==
      s.(nodes := s.nodes[e.payload.node := s.nodes[e.payload.node].(state := AwaitingApproval, worker := "", heartbeat := None)], lastSeq := s.lastSeq + 1)
  {
  }

  /** A completed compensation task: its entry is done, no task is open. */
  lemma CompensationResult(s: RunData, req: CompleteRequest, clock: Clock) returns (u: RunData, i: nat)
    requires Inv(s) && req.compensation && CompleteTask(s, req, clock).error == NoError
    ensures Meant(s.stack, i, req.node)
    ensures u == s.(stack := s.stack[i := s.stack[i].(completed := true)], active := None, lastSeq := s.lastSeq + 1)
    ensures Settled(u, Replay(s, CompleteTask(s, req, clock).events), clock)
  {
    hide Legal, Settled, ThenAdvance, Advance, WellFormed, Readiness, Leased, PhaseInv, TimerInv;
    var e := Emit(s, clock, CompensationTaskCompleted(req.node, req.worker, req.attempt));
    u := Step(s, e);
    i := FirstEntry(s.stack, req.node);
    assert s.nodes != map[] by { NodesExist(s); }
    hide StackInv, ActiveInv;
    assert CompleteTask(s, req, clock).events == ThenAdvance(s, clock, [e]);
    ReplayReport(s, clock, e);
    hide Step;
    AdvanceSettles(u, clock);
  }

  lemma NodesExist(s: RunData)
    requires Inv(s)
    ensures s.nodes != map[]
  {
  }

  // ---- Failures ----

  // The backoff the definition allows the failed attempt.
  predicate Allowed(def: NodeDef, a: uint32) {
    def.retry.Some? && def.retry.value.maxAttempts > 1 && a < def.retry.value.maxAttempts
  }

  lemma FailureAppends(s: RunData, req: FailRequest, retryNow: Time, clock: Clock) returns (e: Event, f: Event)
    requires !req.compensation && !req.cancelled && FailTask(s, req, retryNow, clock).error == NoError
    ensures Holds(s, req.node, req.worker, req.attempt)
    ensures var n, a := req.node, req.attempt; var def := s.nodes[n].def; var u := Step(s, e);
      && e == Emit(s, clock, NodeFailed(n, req.worker, a, req.retryable, false))
      && u == s.(nodes := s.nodes[n := s.nodes[n].(state := Failed, heartbeat := None)], lastSeq := s.lastSeq + 1)
      && if req.retryable && Allowed(def, a) then
           && f == Event(s.lastSeq + 2, s.runId, clock(s.lastSeq + 2),
                         TimerScheduled(TimerId(s.runId, n, a, RetryBackoff), n, a, RetryBackoff, retryNow + def.retry.value.backoff))
           && FailTask(s, req, retryNow, clock).events == [e, f]
         else FailTask(s, req, retryNow, clock).events == if req.retryable && HasPendingRetryTimer(u, n, a) then [e] else ThenAdvance(s, clock, [e])
  {
    hide TimerId, Step, HasPendingRetryTimer, ThenAdvance;
    var n, a := req.node, req.attempt;
    e := Emit(s, clock, NodeFailed(n, req.worker, a, req.retryable, false));
    FailedNode(s, e);
    var u, def := Step(s, e), s.nodes[n].def;
    f := e;
    assert [e] + [] == [e] && Replay(u, []) == u;
    if req.retryable && Allowed(def, a) {
      f := Emit(u, clock, TimerScheduled(TimerId(s.runId, n, a, RetryBackoff), n, a, RetryBackoff, retryNow + def.retry.value.backoff));
      assert RetryTimer(u, clock, n, def, a, retryNow) == [f];
      assert [e] + [f] == [e, f];
      OneStep(u, f);
      TimerResult(u, f);
      BackoffPending(u, Step(u, f), n, a, retryNow + def.retry.value.backoff);
    }
  }

  lemma BackoffPending(u: RunData, w: RunData, n: string, a: uint32, fireAt: Time)
    requires w == WithTimer(u, Timer(TimerId(u.runId, n, a, RetryBackoff), n, a, RetryBackoff, fireAt, false))
    ensures HasPendingRetryTimer(w, n, a)
  {
    hide TimerId;
    assert IsPendingTimer(w.timers[TimerId(u.runId, n, a, RetryBackoff)], n, RetryBackoff);
  }

  /** An accepted failure: the node is FAILED. If the report allows a retry and the
      policy has attempts left, the backoff is armed and the run stays as it is;
      otherwise no timer is, and the run settles, unless a backoff is still pending. */
  lemma FailResult(s: RunData, req: FailRequest, retryNow: Time, clock: Clock)
    requires Inv(s) && !req.compensation && !req.cancelled && FailTask(s, req, retryNow, clock).error == NoError
    ensures req.node in s.nodes
    ensures var n, a := req.node, req.attempt; var def := s.nodes[n].def;
      var u := s.(nodes := s.nodes[n := s.nodes[n].(state := Failed, heartbeat := None)], lastSeq := s.lastSeq + 1);
      var t := Replay(s, FailTask(s, req, retryNow, clock).events);
      if req.retryable && Allowed(def, a) then t == WithTimer(u, Pending(s, n, a, RetryBackoff, retryNow + def.retry.value.backoff))
      else if req.retryable && !Lost(u, n) then t == u
      else Settled(u, t, clock)
    ensures var events := FailTask(s, req, retryNow, clock).events;
      events != [] && events[0].payload == NodeFailed(req.node, req.worker, req.attempt, req.retryable, false)
  {
    hide TimerId, Step, Inv, FailTask, ThenAdvance, Advance, Settled, HasPendingRetryTimer, Lost;
    var e, f := FailureAppends(s, req, retryNow, clock);
    var u := Step(s, e);
    assert req.node in u.nodes;
    LostIff(u, req.node);
    OneStep(s, e);
    if req.retryable && Allowed(s.nodes[req.node].def, req.attempt) {
      TwoSteps(s, e, f);
      TimerResult(u, f);
    } else {
      ReplayReport(s, clock, e);
      AdvanceSettles(u, clock);
    }
  }

  lemma LostIff(s: RunData, n: string)
    requires n in s.nodes && s.nodes[n].state.Failed?
    ensures Lost(s, n) <==> !HasPendingRetryTimer(s, n, s.nodes[n].attempt)
  {
  }

  /** A cancelled task: the node is CANCELLED and nobody's. */
  lemma CancelledTaskResult(s: RunData, req: FailRequest, retryNow: Time, clock: Clock) returns (u: RunData)
    requires Inv(s) && !req.compensation && req.cancelled && FailTask(s, req, retryNow, clock).error == NoError
    ensures req.node in s.nodes
    ensures u == s.(nodes := s.nodes[req.node := s.nodes[req.node].(state := Cancelled, worker := "", heartbeat := None)], lastSeq := s.lastSeq + 1)
    ensures Settled(u, Replay(s, FailTask(s, req, retryNow, clock).events), clock)
  {
    hide Step, Inv, Settled, ThenAdvance, Advance;
    var e := Emit(s, clock, NodeCancelled(req.node, req.worker, req.attempt));
    u := Step(s, e);
    CancelledNode(s, e);
    assert req.node in u.nodes;
    ReplayReport(s, clock, e);
    AdvanceSettles(u, clock);
  }

  lemma CancelledNode(s: RunData, e: Event)
    requires e.payload.NodeCancelled? && e.seqNo == s.lastSeq + 1 && e.payload.node in s.nodes
    ensures Step(s, e) ==
      s.(nodes := s.nodes[e.payload.node := s.nodes[e.payload.node].(state := Cancelled, worker := "", heartbeat := None)], lastSeq := s.lastSeq + 1)
  {
  }

  /** A failed compensation task ends the run as FAILED; the stack stays as it was. */
  lemma CompensationFailure(s: RunData, req: FailRequest, retryNow: Time, clock: Clock)
    requires req.compensation && FailTask(s, req, retryNow, clock).error == NoError
    ensures Replay(s, FailTask(s, req, retryNow, clock).events) ==
      s.(active := None, runState := RunFailed, finishedAt := Some(clock(s.lastSeq + 2)), lastSeq := s.lastSeq + 2)
  {
    var e := Emit(s, clock, CompensationTaskFailed(req.node, req.worker, req.attempt));
    var u := Step(s, e);
    assert u == s.(active := None, lastSeq := s.lastSeq + 1);
    var f := Emit(u, clock, WorkflowFailed);
    assert Step(u, f) == u.(runState := RunFailed, finishedAt := Some(clock(s.lastSeq + 2)), lastSeq := s.lastSeq + 2);
    assert FailTask(s, req, retryNow, clock).events == [e, f];
    hide Step, FailTask;
    TwoSteps(s, e, f);
  }

  // ---- Requests ----

  // Every node that waits is CANCELLED and nobody's; every other one is as it was.
  ghost predicate WaitingCancelled(was: Nodes, next: Nodes) {
    next.Keys == was.Keys && forall n | n in was ::
      next[n] == if was[n].state.Pending? || was[n].state.Ready? || was[n].state.AwaitingApproval?
                 then was[n].(state := Cancelled, worker := "", heartbeat := None) else was[n]
  }

  /** Reconciling leaves an ended run alone. Otherwise, under a request for cancellation,
      every waiting node is CANCELLED, and the run settles. */
  lemma ReconcileResult(s: RunData, clock: Clock) returns (u: RunData)
    requires Inv(s)
    ensures if s.Terminal() then Replay(s, Reconcile(s, clock)) == s && u == s
            else
              && u == s.(nodes := u.nodes, lastSeq := u.lastSeq)
              && (if s.cancelRequested then WaitingCancelled(s.nodes, u.nodes) else u == s)
              && Settled(u, Replay(s, Reconcile(s, clock)), clock)
  {
    hide Step, Inv, Legal, Chain, Settled, CancelEligible, Advance;
    assert Replay(s, []) == s;
    NodesExist(s);
    u := s;
    if !s.Terminal() {
      var cancelled := if s.cancelRequested then CancelEligible(s, clock) else [];
      if s.cancelRequested {
        CancelEligibleLegal(CancellationRequested, s, clock);
        SortedEnumerates(s.nodes.Keys);
      }
      u := Replay(s, cancelled);
      AdvanceSettles(u, clock);
      ReplayConcat(s, cancelled, Advance(u, clock));
    }
  }

  /** A request for cancellation: refused work from now on, every waiting node CANCELLED;
      no effect on a run that has ended or was asked before. */
  lemma CancelResult(s: RunData, clock: Clock) returns (u: RunData)
    requires Inv(s)
    ensures s.Terminal() || s.cancelRequested <==> CancelRun(s, clock) == []
    ensures !s.Terminal() && !s.cancelRequested ==>
      && u == s.(cancelRequested := true, nodes := u.nodes, lastSeq := u.lastSeq)
      && WaitingCancelled(s.nodes, u.nodes) && Settled(u, Replay(s, CancelRun(s, clock)), clock)
  {
    hide Step, Inv, Legal, Chain, Settled, CancelEligible, Advance;
    u := s;
    if !s.Terminal() && !s.cancelRequested {
      var e := Emit(s, clock, CancellationRequested);
      RequestedRun(s, e);
      var v := Step(s, e);
      u := ReconcileResult(v, clock);
      assert [e] + CancelEligible(v, clock) + Advance(Replay(v, CancelEligible(v, clock)), clock) == [e] + Reconcile(v, clock);
      assert ([e] + CancelEligible(v, clock))[1..] == CancelEligible(v, clock);
      assert CancelRun(s, clock) == [e] + Reconcile(v, clock);
      assert ([e] + Reconcile(v, clock))[1..] == Reconcile(v, clock);
    }
  }

  lemma RequestedRun(s: RunData, e: Event)
    requires Inv(s) && e.payload.CancellationRequested? && e.seqNo == s.lastSeq + 1 && !s.Terminal() && !s.cancelRequested && e.runId == s.runId
    ensures Step(s, e) == s.(cancelRequested := true, lastSeq := s.lastSeq + 1) && Inv(Step(s, e))
  {
    assert Legal(CancellationRequested, s, e);
    InvKept(CancellationRequested, s, e);
  }

  /** An approval is accepted exactly for a node that awaits it in a run that has not
      ended; the node is then READY and nobody's, and nothing else changes. */
  lemma ApproveResult(s: RunData, n: string, clock: Clock)
    ensures var o := ApproveCheckpoint(s, n, clock);
      && (o.error == NoError <==> !s.Terminal() && n in s.nodes && s.nodes[n].state.AwaitingApproval?)
      && (o.error == TaskNotFound <==> !s.Terminal() && n !in s.nodes)
      && (o.error == NoError || o.error == TaskNotFound || o.error == CheckpointNotWaiting)
      && |o.events| == (if o.error == NoError then 1 else 0)
      && Replay(s, o.events) ==
           if o.error == NoError then s.(nodes := s.nodes[n := s.nodes[n].(state := Ready, worker := "", heartbeat := None)], lastSeq := s.lastSeq + 1)
           else s
  {
    if ApproveCheckpoint(s, n, clock).error == NoError {
      OneStep(s, Emit(s, clock, CheckpointApproved(n)));
    }
  }

  /** What an approval is for: the node can be claimed again by any worker that handles
      it, and the timeout it was waiting under no longer fails it. */
  lemma ApprovalEffect(s: RunData, n: string, clock: Clock, reg: Registry, worker: string, id: string, now: Time, later: Clock)
    requires Inv(s) && ApproveCheckpoint(s, n, clock).error == NoError
    ensures n in s.nodes
    ensures var t := Replay(s, ApproveCheckpoint(s, n, clock).events);
      && (Forward(s) && worker in reg && s.nodes[n].def.activity in reg[worker] ==> Offers(t, reg, worker))
      && (Due(t, id, now) && t.timers[id].purpose.CheckpointTimeout? && t.timers[id].node == n ==>
            Replay(t, FireTimer(t, id, now, later)).nodes == t.nodes)
  {
    hide Legal, Inv, Step, Chain, FireTimer, Replay, ApproveCheckpoint;
    ApproveResult(s, n, clock);
    ApproveLegal(CancellationRequested, s, n, clock);
    ChainInv(CancellationRequested, s, ApproveCheckpoint(s, n, clock).events);
    var t := Replay(s, ApproveCheckpoint(s, n, clock).events);
    if Forward(s) && worker in reg && s.nodes[n].def.activity in reg[worker] {
      assert Claimable(t, reg, worker, n);
    }
    if Due(t, id, now) { Deadlines.FiringEffect(t, id, now, later); }
  }

  // ---- Claims ----

  // Some absolute deadline of the node has not fired yet.
  ghost predicate DeadlinePending(s: RunData, n: string) {
    exists id :: id in s.timers && s.timers[id].node == n && s.timers[id].purpose.AbsDeadline? && !s.timers[id].fired
  }

  // The deadlines a claim arms, one clock reading each.
  ghost function WithDeadlines(s: RunData, n: string, a: uint32, clock: Clock): RunData
    requires n in s.nodes
  {
    var def := s.nodes[n].def;
    var u := if def.executionDeadline > 0 then WithTimer(s, Pending(s, n, a, ExecDeadline, clock(s.lastSeq + 1) + def.executionDeadline)) else s;
    if def.absoluteDeadline > 0 && !DeadlinePending(s, n)
    then WithTimer(u, Pending(u, n, 0, AbsDeadline, clock(u.lastSeq + 1) + def.absoluteDeadline)) else u
  }

  lemma StartedNode(s: RunData, clock: Clock, n: string, worker: string)
    requires n in s.nodes
    ensures var a := NextAttempt(s.nodes[n].attempt);
      Replay(s, Dispatch(s, clock, n, worker)) ==
        s.(nodes := s.nodes[n := Node(s.nodes[n].def, Running, a, worker, Some(clock(s.lastSeq + 2)))], lastSeq := s.lastSeq + 2)
  {
    var a := NextAttempt(s.nodes[n].attempt);
    var e := Emit(s, clock, LeaseGranted(n, worker, a));
    var u := Step(s, e);
    assert u == s.(nodes := s.nodes[n := s.nodes[n].(attempt := a, worker := worker, heartbeat := Some(e.timestamp))], lastSeq := s.lastSeq + 1);
    var f := Emit(u, clock, NodeStarted(n, worker, a));
    StartStep(u, f);
    hide Step;
    assert Dispatch(s, clock, n, worker) == [e, f];
    TwoSteps(s, e, f);
  }

  lemma StartStep(s: RunData, e: Event)
    requires e.payload.NodeStarted? && e.payload.node in s.nodes
    ensures var p := e.payload;
      Step(s, e) == s.(nodes := s.nodes[p.node := s.nodes[p.node].(attempt := p.attempt, worker := p.worker, heartbeat := Some(e.timestamp), state := Running)], lastSeq := e.seqNo)
  {
  }

  lemma ExecTimerResult(s: RunData, clock: Clock, n: string, a: uint32)
    requires n in s.nodes
    ensures var def := s.nodes[n].def;
      Replay(s, ExecTimer(s, clock, n, def, a)) ==
        if def.executionDeadline > 0 then WithTimer(s, Pending(s, n, a, ExecDeadline, clock(s.lastSeq + 1) + def.executionDeadline)) else s
  {
    hide TimerId, Step;
    var deadline := s.nodes[n].def.executionDeadline;
    if deadline > 0 {
      var e := Emit(s, clock, TimerScheduled(TimerId(s.runId, n, a, ExecDeadline), n, a, ExecDeadline, clock(s.lastSeq + 1) + deadline));
      assert ExecTimer(s, clock, n, s.nodes[n].def, a) == [e];
      hide ExecTimer;
      OneStep(s, e);
      TimerResult(s, e);
    }
  }

  lemma AbsTimerResult(s: RunData, clock: Clock, n: string)
    requires n in s.nodes
    ensures var def := s.nodes[n].def;
      Replay(s, AbsTimer(s, clock, n, def)) ==
        if def.absoluteDeadline > 0 && !DeadlinePending(s, n)
        then WithTimer(s, Pending(s, n, 0, AbsDeadline, clock(s.lastSeq + 1) + def.absoluteDeadline)) else s
  {
    hide TimerId, Step;
    var timer := AbsTimer(s, clock, n, s.nodes[n].def);
    assert DeadlinePending(s, n) <==> HasPendingAbsoluteTimer(s, n);
    hide DeadlinePending, HasPendingAbsoluteTimer;
    if timer != [] {
      OneStep(s, timer[0]);
      TimerResult(s, timer[0]);
    }
  }

  // Arming an execution deadline adds no absolute one.
  lemma ExecIsNotAbs(s: RunData, n: string, a: uint32, fireAt: Time)
    requires TimerInv(s)
    ensures DeadlinePending(WithTimer(s, Pending(s, n, a, ExecDeadline, fireAt)), n) <==> DeadlinePending(s, n)
  {
    hide TimerId;
    var t := WithTimer(s, Pending(s, n, a, ExecDeadline, fireAt));
    var exec := TimerId(s.runId, n, a, ExecDeadline);
    if id :| id in s.timers && s.timers[id].node == n && s.timers[id].purpose.AbsDeadline? && !s.timers[id].fired {
      assert TimerOk(s, id, s.timers[id]);
      if id == exec { TimerIdInjective(s.runId, n, a, ExecDeadline, n, 0, AbsDeadline); }
      assert id in t.timers && t.timers[id] == s.timers[id];
    }
    if id :| id in t.timers && t.timers[id].node == n && t.timers[id].purpose.AbsDeadline? && !t.timers[id].fired {
      assert id != exec && id in s.timers && s.timers[id] == t.timers[id];
    }
  }

  /** A claim served by a run that goes forward: the node is RUNNING under the worker
      and the task's attempt from the moment of its start, with exactly the deadlines
      its definition asks for, and nothing else changes. */
  lemma ClaimResult(s: RunData, reg: Registry, worker: string, clock: Clock)
    requires Inv(s) && Forward(s) && Offered(s, reg, worker).Some?
    ensures Offered(s, reg, worker).value.node in s.nodes
    ensures var task := Offered(s, reg, worker).value; var n := task.node;
      var u := s.(nodes := s.nodes[n := Node(s.nodes[n].def, Running, task.attempt, worker, Some(clock(s.lastSeq + 2)))], lastSeq := s.lastSeq + 2);
      Replay(s, Claim(s, reg, worker, clock)) == WithDeadlines(u, n, task.attempt, clock)
  {
    hide TimerId, Step, Dispatch, ExecTimer, AbsTimer, DeadlinePending, Pending, WithTimer, WellFormed, Readiness, Leased, StackInv, ActiveInv, PhaseInv, TimerInv;
    var n := Offered(s, reg, worker).value.node;
    assert Claimable(s, reg, worker, n);
    var a, def := NextAttempt(s.nodes[n].attempt), s.nodes[n].def;
    var started := Dispatch(s, clock, n, worker);
    StartedNode(s, clock, n, worker);
    var u := Replay(s, started);
    var exec := ExecTimer(u, clock, n, def, a);
    ExecTimerResult(u, clock, n, a);
    SameTimerInv(s, u, n);
    var v := Replay(u, exec);
    if def.executionDeadline > 0 { ExecIsNotAbs(u, n, a, clock(u.lastSeq + 1) + def.executionDeadline); }
    WithTimerFields(u, Pending(u, n, a, ExecDeadline, clock(u.lastSeq + 1) + def.executionDeadline));
    AbsTimerResult(v, clock, n);
    ReplayConcat(s, started, exec);
    ReplayConcat(s, started + exec, AbsTimer(v, clock, n, def));
    assert Claim(s, reg, worker, clock) == started + exec + AbsTimer(v, clock, n, def);
  }

  lemma WithTimerFields(s: RunData, t: Timer)
    ensures var u := WithTimer(s, t); u.nodes == s.nodes && u.lastSeq == s.lastSeq + 1
  {
  }

  lemma SameTimerInv(s: RunData, t: RunData, n: string)
    requires TimerInv(s) && t.timers == s.timers && t.runId == s.runId && s.nodes.Keys <= t.nodes.Keys
    ensures TimerInv(t)
  {
    hide TimerId;
    forall id | id in t.timers ensures TimerOk(t, id, t.timers[id]) { assert TimerOk(s, id, s.timers[id]); }
  }

  /** A claim served by a run that unwinds: the task is open under the worker, its entry
      has the task's attempt, and nothing else changes. */
  lemma CompensationClaimResult(s: RunData, reg: Registry, worker: string, clock: Clock) returns (i: nat)
    requires Inv(s) && s.runState.RunCompensating? && Offered(s, reg, worker).Some?
    ensures var task := Offered(s, reg, worker).value;
      && OnTop(s.stack, i) && s.stack[i].node == task.node
      && Replay(s, Claim(s, reg, worker, clock)) ==
           s.(stack := s.stack[i := s.stack[i].(attempt := task.attempt)],
              active := Some(ActiveCompensation(task.node, worker, task.attempt, clock(s.lastSeq + 1))), lastSeq := s.lastSeq + 1)
  {
    hide WellFormed, Readiness, Leased, ActiveInv, PhaseInv, TimerInv;
    i := NextEntry(s).value;
    TopIsNext(s, i);
    EntryIsFirst(s, i);
    hide StackInv;
    var task := Offered(s, reg, worker).value;
    var e := Emit(s, clock, CompensationTaskStarted(task.node, worker, task.attempt));
    assert Claim(s, reg, worker, clock) == [e];
    TaskStarted(s, e, i);
    hide Step, Claim, Offered;
    OneStep(s, e);
  }

  lemma TaskStarted(s: RunData, e: Event, i: nat)
    requires e.payload.CompensationTaskStarted? && i < |s.stack| && FirstEntry(s.stack, e.payload.node) == i
    ensures Step(s, e) == s.(
      stack := s.stack[i := s.stack[i].(attempt := e.payload.attempt)],
      active := Some(ActiveCompensation(e.payload.node, e.payload.worker, e.payload.attempt, e.timestamp)), lastSeq := e.seqNo)
  {
  }

  // ---- Heartbeats and expiries ----

  predicate HoldsTask(s: RunData, worker: string) {
    s.active.Some? && s.active.value.worker == worker
  }

  // What the worker holds of a node: its lease, or the compensation task under the
  // node's last attempt.
  predicate Renewed(s: RunData, worker: string, n: string)
    requires n in s.nodes
  {
    || (s.nodes[n].state.Running? && s.nodes[n].worker == worker)
    || (HoldsTask(s, worker) && s.active.value.node == n && s.nodes[n].worker == worker && s.nodes[n].attempt == s.active.value.attempt)
  }

  lemma {:induction false} BeatsResult(s: RunData, worker: string, now: Time, order: seq<string>)
    ensures var t := Replay(s, BeatNodes(s, worker, now, order));
      && t == s.(nodes := t.nodes, active := t.active, lastSeq := t.lastSeq) && t.nodes.Keys == s.nodes.Keys
      && (forall n | n in s.nodes ::
            t.nodes[n] == if n in order && s.nodes[n].state.Running? && s.nodes[n].worker == worker
                          then s.nodes[n].(heartbeat := Some(now)) else s.nodes[n])
      && (t.active == s.active || (HoldsTask(s, worker) && t.active == Some(s.active.value.(heartbeat := now))))
    decreases |order|
  {
    if order != [] {
      var n := order[0];
      if n in s.nodes && s.nodes[n].state.Running? && s.nodes[n].worker == worker {
        var e := EmitAt(s, now, HeartbeatRecorded(n, worker, s.nodes[n].attempt));
        var t := Step(s, e);
        BeatStep(s, e);
        hide Step;
        BeatsResult(t, worker, now, order[1..]);
        assert ([e] + BeatNodes(t, worker, now, order[1..]))[1..] == BeatNodes(t, worker, now, order[1..]);
      } else {
        hide Step;
        BeatsResult(s, worker, now, order[1..]);
      }
    }
  }

  lemma BeatStep(s: RunData, e: Event)
    requires e.payload.HeartbeatRecorded? && e.payload.node in s.nodes
    ensures var t := Step(s, e); var p := e.payload;
      && t == s.(nodes := t.nodes, active := t.active, lastSeq := e.seqNo)
      && t.nodes == (if s.nodes[p.node].worker == p.worker && s.nodes[p.node].attempt == p.attempt
                     then s.nodes[p.node := s.nodes[p.node].(heartbeat := Some(e.timestamp))] else s.nodes)
      && t.active == if BeatsTask(s, p) then Some(s.active.value.(heartbeat := e.timestamp)) else s.active
  {
  }

  /** A heartbeat of a worker sets exactly the heartbeats of what it holds in the run to
      the present; a run that has ended is left alone. */
  lemma HeartbeatResult(s: RunData, worker: string, now: Time, order: seq<string>)
    requires Inv(s) && Enumerates(order, s.nodes.Keys)
    ensures var t := Replay(s, Heartbeat(s, worker, now, order));
      if s.Terminal() then t == s
      else
        && t == s.(nodes := t.nodes, active := t.active, lastSeq := t.lastSeq) && t.nodes.Keys == s.nodes.Keys
        && (forall n | n in s.nodes :: t.nodes[n] == if Renewed(s, worker, n) then s.nodes[n].(heartbeat := Some(now)) else s.nodes[n])
        && t.active == if HoldsTask(s, worker) then Some(s.active.value.(heartbeat := now)) else s.active
  {
    hide Step, Inv, BeatNodes, Replay;
    NoReplay(s);
    if !s.Terminal() {
      var beats := BeatNodes(s, worker, now, order);
      BeatsResult(s, worker, now, order);
      var u := Replay(s, beats);
      ReplayConcat(s, beats, BeatCompensation(u, worker, now));
      if HoldsTask(s, worker) {
        ActiveNodeKnown(s);
        var e := EmitAt(u, now, HeartbeatRecorded(s.active.value.node, worker, s.active.value.attempt));
        BeatStep(u, e);
        OneStep(u, e);
      } else {
        NoReplay(u);
      }
    }
  }

  lemma NoReplay(s: RunData)
    ensures Replay(s, []) == s
  {
  }

  lemma ActiveNodeKnown(s: RunData)
    requires Inv(s) && s.active.Some?
    ensures s.active.value.node in s.nodes
  {
    assert EntryOk(s.nodes, s.stack[FirstEntry(s.stack, s.active.value.node)]);
  }

  // Silent for longer than the timeout.
  predicate Silent(n: Node, now: Time) {
    n.state.Running? && n.worker != "" && (n.heartbeat.None? || now > n.heartbeat.value + HEARTBEAT_TIMEOUT)
  }

  /** A lease sweep makes exactly the silent RUNNING nodes READY and nobody's, closes the
      compensation task if its worker was silent, and then, if anything expired,
      reconciles the run as `ReconcileResult` describes. */
  lemma ExpireResult(s: RunData, now: Time, order: seq<string>, clock: Clock) returns (u: RunData)
    requires Inv(s) && Enumerates(order, s.nodes.Keys)
    ensures u == s.(nodes := u.nodes, active := u.active, lastSeq := u.lastSeq) && u.nodes.Keys == s.nodes.Keys && Inv(u)
    ensures forall n | n in s.nodes ::
      u.nodes[n] == if Silent(s.nodes[n], now) then s.nodes[n].(state := Ready, worker := "", heartbeat := None) else s.nodes[n]
    ensures u.active == if s.active.Some? && now > s.active.value.heartbeat + HEARTBEAT_TIMEOUT then None else s.active
    ensures ExpireLeases(s, now, order, clock) == [] <==> u.nodes == s.nodes && u.active == s.active
    ensures ExpireLeases(s, now, order, clock) != [] ==>
      Replay(s, ExpireLeases(s, now, order, clock)) == Replay(u, Reconcile(u, clock))
  {
    hide Step, Inv, Legal, Chain, Reconcile;
    var expired := ExpireNodes(s, now, order);
    Liveness.SweepEffect(s, now, order);
    var v := Replay(s, expired);
    var swept := ExpireOverdue(s, now, order);
    u := Replay(s, swept);
    ReplayConcat(s, expired, ExpireCompensation(v, now));
    TaskExpiry(v, now);
    OverdueLegal(CancellationRequested, s, now, order);
    ChainInv(CancellationRequested, s, swept);
    ReplayConcat(s, swept, Reconcile(u, clock));
    SomethingExpired(s, now, order, clock);
  }

  lemma TaskExpiry(s: RunData, now: Time)
    ensures Replay(s, ExpireCompensation(s, now)) ==
      if s.active.Some? && now > s.active.value.heartbeat + HEARTBEAT_TIMEOUT then s.(active := None, lastSeq := s.lastSeq + 1) else s
  {
    if ExpireCompensation(s, now) != [] { OneStep(s, ExpireCompensation(s, now)[0]); }
  }

  lemma SomethingExpired(s: RunData, now: Time, order: seq<string>, clock: Clock)
    requires Enumerates(order, s.nodes.Keys)
    ensures ExpireLeases(s, now, order, clock) == [] <==>
      (forall n | n in s.nodes :: !Silent(s.nodes[n], now)) && !(s.active.Some? && now > s.active.value.heartbeat + HEARTBEAT_TIMEOUT)
  {
    hide Step, Reconcile;
    var expired := ExpireNodes(s, now, order);
    Liveness.SweepEffect(s, now, order);
    if n :| n in s.nodes && Silent(s.nodes[n], now) {
      assert n in order;
      var k: nat :| k < |order| && order[k] == n;
      Liveness.SweepExpires(s, now, order, k);
    } else {
      NothingSilent(s, now, order);
      assert Replay(s, []) == s;
    }
  }

  lemma {:induction false} NothingSilent(s: RunData, now: Time, order: seq<string>)
    requires forall n | n in s.nodes :: !Silent(s.nodes[n], now)
    ensures ExpireNodes(s, now, order) == []
    decreases |order|
  {
    if order != [] { NothingSilent(s, now, order[1..]); }
  }

  // ---- Time stamps ----

  ghost predicate Stamped(events: seq<Event>, clock: Clock) {
    forall i | 0 <= i < |events| :: events[i].timestamp == clock(events[i].seqNo)
  }

  lemma {:induction false} CancelsStamped(s: RunData, clock: Clock, ids: seq<string>)
    ensures Stamped(CancelNodes(s, clock, ids), clock)
    decreases |ids|
  {
    hide Step;
    if ids != [] {
      if ids[0] in s.nodes && Cancellable(s.nodes[ids[0]].state) {
        CancelsStamped(Step(s, Emit(s, clock, NodeCancelled(ids[0], "", 0))), clock, ids[1..]);
      } else {
        CancelsStamped(s, clock, ids[1..]);
      }
    }
  }

  lemma ClaimStamped(s: RunData, reg: Registry, worker: string, clock: Clock)
    ensures Stamped(Claim(s, reg, worker, clock), clock)
  {
    hide Step, TimerId;
    if ClaimableNodes(s, reg, worker) != {} {
      var n := Least(ClaimableNodes(s, reg, worker));
      assert Stamped(Dispatch(s, clock, n, worker), clock);
      hide Dispatch, Least;
    }
  }

  lemma CompleteStamped(s: RunData, req: CompleteRequest, clock: Clock)
    ensures Stamped(CompleteTask(s, req, clock).events, clock)
  {
    hide Step, TimerId, SpawnOk, AdvancePayload;
  }

  lemma FailStamped(s: RunData, req: FailRequest, retryNow: Time, clock: Clock)
    ensures Stamped(FailTask(s, req, retryNow, clock).events, clock)
  {
    hide Step, TimerId, AdvancePayload, HasPendingRetryTimer;
  }

  /** Every event a request or a poll appends is stamped by one reading of the clock, made
      for that event. */
  lemma OpStamped(s: RunData, op: Op)
    requires op.OpComplete? || op.OpFail? || op.OpCancel? || op.OpApprove? || op.OpClaim?
    ensures Stamped(OpEvents(s, op), op.clock)
  {
    hide Step, CompleteTask, FailTask, Claim, CancelNodes, AdvancePayload, Replay;
    match op
    case OpComplete(req, clock) => CompleteStamped(s, req, clock);
    case OpFail(req, retryNow, clock) => FailStamped(s, req, retryNow, clock);
    case OpCancel(clock) => CancelsStamped(Step(s, Emit(s, clock, CancellationRequested)), clock, Sorted(Step(s, Emit(s, clock, CancellationRequested)).nodes.Keys));
    case OpApprove(_, _) =>
    case OpClaim(reg, worker, clock) => ClaimStamped(s, reg, worker, clock);
  }
}
