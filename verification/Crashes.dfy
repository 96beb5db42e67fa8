/** What a crash can lose. Recovery restores every invariant but not every intention:
    between a retryable failure and its backoff timer the retry is forgotten. */
module Crashes {
  import opened Runtime
  import opened State
  import opened EngineSpec
  import opened Guards
  import opened Invariant
  import opened Logs
  import opened Operations
  import opened Quiescence
  import opened Runs
  import opened Deadlines
  import opened Scenarios
  import AbsoluteDeadlines
  import Fencing
  import Steps
  import TimerIds

  // What becomes of a run with a failure nothing will retry.
  function GivingUp(s: RunData): Payload {
    if HasCompensationWork(s) then CompensationStarted else WorkflowFailed
  }

  // A worker's retryable failure of a node that has attempts left.
  predicate Retries(s: RunData, req: FailRequest) {
    && !req.compensation && !req.cancelled && req.retryable
    && Forward(s) && Holds(s, req.node, req.worker, req.attempt)
    && s.nodes[req.node].def.retry.Some?
    && s.nodes[req.node].def.retry.value.maxAttempts > 1 && req.attempt < s.nodes[req.node].def.retry.value.maxAttempts
  }

  lemma FailedAlone(s: RunData, e: Event)
    requires Forward(s) && e.payload.NodeFailed? && Holds(s, e.payload.node, e.payload.worker, e.payload.attempt)
    requires AbsoluteDeadlines.BackoffMeansFailed(s, e.payload.node)
    ensures var t := Step(s, e); Forward(t) && HasUnrecoveredFailure(t) && !AllNodesCompleted(t) && t.stack == s.stack
  {
    var n, t := e.payload.node, Step(s, e);
    assert t.timers == s.timers && n in t.nodes && t.nodes[n].state.Failed? && t.nodes[n].attempt == s.nodes[n].attempt;
    hide Step;
    forall id | id in t.timers ensures !(IsPendingTimer(t.timers[id], n, RetryBackoff) && t.timers[id].attempt == t.nodes[n].attempt) {
      assert !AbsoluteDeadlines.PendingRetry(s.timers[id], n, s.nodes[n].attempt);
    }
    assert UnrecoveredFailure(t, n);
  }

  lemma RecoveryUnwinds(s: RunData, clock: Clock)
    requires Forward(s) && HasUnrecoveredFailure(s) && !AllNodesCompleted(s)
    ensures Reconcile(s, clock) == [Emit(s, clock, GivingUp(s))]
  {
    hide HasUnrecoveredFailure, AllNodesCompleted, HasCompensationWork;
    assert Replay(s, []) == s;
  }

  lemma FirstIsFailure(s: RunData, req: FailRequest, retryNow: Time, clock: Clock)
    requires Retries(s, req)
    ensures var events := FailTask(s, req, retryNow, clock).events;
      && FailTask(s, req, retryNow, clock).error == NoError
      && events != [] && events[0] == Emit(s, clock, NodeFailed(req.node, req.worker, req.attempt, true, false))
  {
    hide Step, HasPendingRetryTimer, Advance;
    Steps.FailTaskShape(s, req, retryNow, clock);
  }

  // Cut after its first append, the failure stands alone.
  lemma FailureCut(y: Sys, req: FailRequest, retryNow: Time, clock: Clock, recovery: Clock)
    requires Reachable(y) && y.up && Retries(StateOf(y.log), req)
    requires Fencing.GrantCount(y.log, req.node) < UINT32_LIMIT
    ensures var s := StateOf(y.log); var events := FailTask(s, req, retryNow, clock).events;
      && events != []
      && var cut := StateOf(y.log + events[..1]); Reconcile(cut, recovery) == [Emit(cut, recovery, GivingUp(s))]
  {
    hide Reachable, StateOf, Legal, LegalLog, Inv, Step, Replay, Replays, Reconcile, FailTask, HasUnrecoveredFailure, AllNodesCompleted;
    ReachableSound(y);
    SoundIsLegal(y);
    var s := StateOf(y.log);
    FirstIsFailure(s, req, retryNow, clock);
    var events := FailTask(s, req, retryNow, clock).events;
    assert events[..1] == [events[0]];
    AbsoluteDeadlines.BackoffHistory(y.log, req.node);
    FailedAlone(s, events[0]);
    StateOfAppend(y.log, events[0]);
    RecoveryUnwinds(Step(s, events[0]), recovery);
    SameWork(s, Step(s, events[0]));
  }

  lemma SameWork(s: RunData, t: RunData)
    requires t.stack == s.stack
    ensures GivingUp(t) == GivingUp(s)
  {
  }

  /** The same report, with and without a crash. Uninterrupted it appends two events,
      arms the backoff and leaves the run RUNNING. Recovery changes anything if and
      only if the process died between the two: the failure then has no backoff, and
      compensation starts or the run fails. */
  lemma CrashLosesRetry(y: Sys, req: FailRequest, retryNow: Time, clock: Clock, k: nat, recovery: Clock)
    requires Reachable(y) && y.up && Retries(StateOf(y.log), req)
    requires Fencing.GrantCount(y.log, req.node) < UINT32_LIMIT
    requires k <= |OpEvents(StateOf(y.log), OpFail(req, retryNow, clock))|
    ensures var s := StateOf(y.log); var op := OpFail(req, retryNow, clock); var events := OpEvents(s, op);
      var whole := Replay(s, events); var cut := Sys(y.log + events[..k], false); var rest := Reconcile(StateOf(cut.log), recovery);
      && |events| == 2 && whole.runState.RunRunning? && HasPendingRetryTimer(whole, req.node, req.attempt)
      && Dies(y, cut, op, k)
      && (rest != [] <==> k == 1)
      && (k == 1 ==> rest == [Emit(StateOf(cut.log), recovery, GivingUp(s))])
  {
    hide Reachable, StateOf, Legal, LegalLog, Inv, Step, Replay, Replays, Reconcile, FailTask, Armed, HasPendingRetryTimer, Quiet;
    ReachableSound(y);
    var s := StateOf(y.log);
    SoundTimerInv(s);
    FirstIsFailure(s, req, retryNow, clock);
    FailureArmsRetry(s, req, retryNow, clock);
    ArmedIsPending(Replay(s, FailTask(s, req, retryNow, clock).events), req.node, req.attempt, retryNow + s.nodes[req.node].def.retry.value.backoff);
    var events := FailTask(s, req, retryNow, clock).events;
    FailureCut(y, req, retryNow, clock, recovery);
    StateOfConcat(y.log, events);
    BoundaryQuiet(y, OpFail(req, retryNow, clock), recovery);
    assert events[..0] == [] && y.log + [] == y.log && events[..2] == events;
  }

  // Nothing is due before an operation, nor after the whole of it.
  lemma BoundaryQuiet(y: Sys, op: Op, recovery: Clock)
    requires Reachable(y) && y.up
    ensures Reconcile(StateOf(y.log), recovery) == []
    ensures Reconcile(StateOf(y.log + OpEvents(StateOf(y.log), op)), recovery) == []
  {
    hide Reachable, StateOf, Legal, Inv, Step, Replay, Replays, Reconcile, Quiet, OpEvents, Chain;
    ReachableSound(y);
    var s := StateOf(y.log);
    QuietIffReconcileEmpty(s, recovery);
    OpLegal(Steps.ANY, s, op);
    ChainInv(Steps.ANY, s, OpEvents(s, op));
    OpQuiet(Steps.ANY, s, op);
    StateOfConcat(y.log, OpEvents(s, op));
    QuietIffReconcileEmpty(Replay(s, OpEvents(s, op)), recovery);
  }

  /** Such a run is reachable: a node with two attempts, claimed once. Its retryable
      failure, cut after the first append, is never retried. */
  lemma RetryLost(recovery: Clock) returns (y: Sys, cut: Sys, op: Op)
    ensures Reachable(y) && y.up && Dies(y, cut, op, 1) && Reachable(cut)
    ensures Replay(StateOf(y.log), OpEvents(StateOf(y.log), op)).runState.RunRunning?
    ensures Replay(StateOf(cut.log), Reconcile(StateOf(cut.log), recovery)).runState.RunFailed?
  {
    hide Reachable, StateOf, Replay, Reconcile, OpEvents, Step, Holds, FailTask;
    y := AbsoluteDeadlines.ClaimedRetried();
    var s, req := StateOf(y.log), AbsoluteDeadlines.FAIL_A;
    assert Retries(s, req);
    op := OpFail(req, 0, At(0));
    Fencing.GrantsBounded(y.log, "a");
    FirstIsFailure(s, req, 0, At(0));
    OpIsFail(s, op);
    CrashLosesRetry(y, req, 0, At(0), 1, recovery);
    cut := Sys(y.log + OpEvents(s, op)[..1], false);
    ReachableNext(y, cut);
    OneStep(StateOf(cut.log), Emit(StateOf(cut.log), recovery, WorkflowFailed));
    FailureEnds(StateOf(cut.log), Emit(StateOf(cut.log), recovery, WorkflowFailed));
  }

  lemma FailureEnds(s: RunData, e: Event)
    requires e.payload.WorkflowFailed?
    ensures Step(s, e).runState.RunFailed?
  {
  }

  lemma SoundTimerInv(s: RunData)
    requires Inv(s)
    ensures TimerInv(s)
  {
  }

  lemma ArmedIsPending(s: RunData, n: string, a: uint32, fireAt: Time)
    requires Armed(s, n, a, RetryBackoff, fireAt)
    ensures HasPendingRetryTimer(s, n, a)
  {
    hide TimerIds.TimerId;
  }

}
