/** Exactly which operation changes the state of a run that has already ended, and a
    run that ends twice. */
module Endings {
  import opened Runtime
  import opened State
  import opened Strings
  import opened Workflowdef
  import opened EngineSpec
  import opened Guards
  import opened Invariant
  import opened Logs
  import opened Operations
  import opened Quiescence
  import opened Runs
  import opened Outcomes
  import opened Scenarios

  // ---- Operations on an ended run ----

  predicate LeavesPhase(p: Payload) {
    !EndsRun(p) && !p.CompensationStarted? && !p.WorkflowStarted?
  }

  ghost predicate AllLeavePhase(events: seq<Event>) {
    forall i | 0 <= i < |events| :: LeavesPhase(events[i].payload)
  }

  lemma StepLeavesPhase(s: RunData, e: Event)
    requires LeavesPhase(e.payload)
    ensures Step(s, e).runState == s.runState
  {
    if ChangesOneNode(e) { OneNodeShape(s, e); }
    else if e.payload.NodeCompleted? {}
    else if e.payload.HeartbeatRecorded? {}
    else if e.payload.TimerFired? {}
    else {}
  }

  lemma {:induction false} ReplayLeavesPhase(s: RunData, events: seq<Event>)
    requires AllLeavePhase(events)
    ensures Replay(s, events).runState == s.runState
    decreases |events|
  {
    hide Step, LeavesPhase;
    if events != [] {
      StepLeavesPhase(s, events[0]);
      ReplayLeavesPhase(Step(s, events[0]), events[1..]);
    }
  }

  lemma EndedThenAdvance(s: RunData, clock: Clock, events: seq<Event>)
    requires s.Terminal() && AllLeavePhase(events)
    ensures ThenAdvance(s, clock, events) == events
  {
    hide Step;
    ReplayLeavesPhase(s, events);
  }

  lemma {:induction false} ExpiriesLeavePhase(s: RunData, now: Time, order: seq<string>)
    ensures AllLeavePhase(ExpireNodes(s, now, order))
    decreases |order|
  {
    hide Step;
    if order != [] {
      if order[0] in s.nodes && Overdue(s.nodes[order[0]], now) {
        var e := EmitAt(s, now, LeaseExpired(order[0], s.nodes[order[0]].worker, s.nodes[order[0]].attempt));
        ExpiriesLeavePhase(Step(s, e), now, order[1..]);
      } else {
        ExpiriesLeavePhase(s, now, order[1..]);
      }
    }
  }

  lemma {:induction false} EndedFiresNothing(s: RunData, now: Time, order: seq<string>, clock: Clock)
    requires s.Terminal()
    ensures FireAll(s, now, order, clock) == []
    decreases |order|
  {
    if order != [] { EndedFiresNothing(s, now, order[1..], clock); }
  }

  /** The report that can still change an ended run: the accepted failure of an
      active compensation task. */
  predicate FailsActiveTask(s: RunData, op: Op) {
    op.OpFail? && op.fail.compensation && ActiveIs(s, op.fail.node, op.fail.worker, op.fail.attempt)
  }

  lemma EndedComplete(s: RunData, req: CompleteRequest, clock: Clock)
    requires s.Terminal()
    ensures AllLeavePhase(CompleteTask(s, req, clock).events)
  {
    hide Step, ThenAdvance, SpawnOk;
    if req.compensation {
      EndedThenAdvance(s, clock, [Emit(s, clock, CompensationTaskCompleted(req.node, req.worker, req.attempt))]);
    } else if req.checkpoint {
    } else {
      EndedThenAdvance(s, clock, [Emit(s, clock, NodeFailed(req.node, req.worker, req.attempt, false, false))]);
      EndedThenAdvance(s, clock, [Emit(s, clock, NodeCompleted(req.node, req.worker, req.attempt, NormalForms(req.spawned)))]);
    }
  }

  lemma EndedFail(s: RunData, req: FailRequest, retryNow: Time, clock: Clock)
    requires s.Terminal() && !FailsActiveTask(s, OpFail(req, retryNow, clock))
    ensures AllLeavePhase(FailTask(s, req, retryNow, clock).events)
  {
    hide Step, ThenAdvance, HasPendingRetryTimer;
    if !req.compensation && LeaseCheck(s, req.worker, req.node, req.attempt) == NoError {
      if req.cancelled {
        EndedThenAdvance(s, clock, [Emit(s, clock, NodeCancelled(req.node, req.worker, req.attempt))]);
      } else if !s.cancelRequested {
        var e := Emit(s, clock, NodeFailed(req.node, req.worker, req.attempt, req.retryable, false));
        var timer := if req.retryable then RetryTimer(Step(s, e), clock, req.node, s.nodes[req.node].def, req.attempt, retryNow) else [];
        EndedThenAdvance(s, clock, [e] + timer);
      }
    }
  }

  lemma EndedExpire(s: RunData, now: Time, order: seq<string>, clock: Clock)
    requires s.Terminal()
    ensures AllLeavePhase(ExpireLeases(s, now, order, clock))
  {
    hide Step;
    ExpiriesLeavePhase(s, now, order);
    ReplayLeavesPhase(s, ExpireOverdue(s, now, order));
  }

  lemma EndedOther(s: RunData, op: Op)
    requires s.Terminal() && !FailsActiveTask(s, op)
    ensures AllLeavePhase(OpEvents(s, op))
  {
    hide CompleteTask, FailTask, ExpireLeases, FireAll, AllLeavePhase;
    NothingLeavesPhase();
    match op
    case OpComplete(req, clock) => EndedComplete(s, req, clock);
    case OpFail(req, retryNow, clock) => EndedFail(s, req, retryNow, clock);
    case OpExpireLeases(now, order, clock) => EndedExpire(s, now, order, clock);
    case OpFireTimers(now, order, clock) => EndedFiresNothing(s, now, order, clock);
    case OpCancel(_) =>
    case OpApprove(_, _) =>
    case OpHeartbeat(_, _, _) =>
    case OpClaim(_, _, _) =>
  }

  lemma NothingLeavesPhase()
    ensures AllLeavePhase([])
  {
  }

  lemma ActiveFailureFails(s: RunData, op: Op)
    requires ActiveInv(s) && s.Terminal() && FailsActiveTask(s, op)
    ensures s.runState.RunCancelled? && Replay(s, OpEvents(s, op)).runState.RunFailed?
  {
    var req, clock := op.fail, op.clock;
    var e := Emit(s, clock, CompensationTaskFailed(req.node, req.worker, req.attempt));
    var f := Emit(Step(s, e), clock, WorkflowFailed);
    assert OpEvents(s, op) == [e, f];
    assert Step(Step(s, e), f).runState.RunFailed?;
    hide Step;
    TwoSteps(s, e, f);
  }

  /** An operation changes the state of an ended run if and only if it is the
      accepted failure report of an active compensation task; the run was then
      CANCELLED and becomes FAILED. */
  lemma EndedChangesIff(s: RunData, op: Op)
    requires Inv(s) && s.Terminal()
    ensures Replay(s, OpEvents(s, op)).runState != s.runState <==> FailsActiveTask(s, op)
    ensures FailsActiveTask(s, op) ==> s.runState.RunCancelled? && Replay(s, OpEvents(s, op)).runState.RunFailed?
  {
    hide OpEvents, Replay, StackInv, WellFormed, Readiness, Leased, PhaseInv, TimerInv;
    if FailsActiveTask(s, op) {
      ActiveFailureFails(s, op);
    } else {
      EndedOther(s, op);
      ReplayLeavesPhase(s, OpEvents(s, op));
    }
  }

  // ---- A run that is CANCELLED first and FAILED later ----

  const FIRST := NodeDef("a", "act", [], None, "undo", 0, 0, 0)
  const SECOND := NodeDef("b", "act", ["a"], None, "", 0, 0, 0)
  const PAIR_START := Event(1, "r", 0, WorkflowStarted(WorkflowDef("w", [FIRST, SECOND])))

  function Pair(a: Node, b: Node): Nodes {
    map["a" := a, "b" := b]
  }

  lemma PairStart()
    ensures StartsRun(PAIR_START)
    ensures StateOf([PAIR_START]) == EMPTY_RUN.(runId := "r", lastSeq := 1, nodes := Pair(NewNode(FIRST).(state := Ready), NewNode(SECOND)))
  {
    StateOfAppend([], PAIR_START);
    assert [] + [PAIR_START] == [PAIR_START];
    assert Ids([FIRST, SECOND]) == {"a", "b"} by { PairIds(); }
    StartInv(PAIR_START);
    InsertedPair(FIRST, SECOND);
    PairReady();
    hide Step, InsertDefs, MarkReady, StateOf;
  }

  lemma PairIds()
    ensures Ids([FIRST, SECOND]) == {"a", "b"}
  {
    var defs := [FIRST, SECOND];
    assert defs[0].id == "a" && defs[1].id == "b";
    assert "a" in Ids(defs) && "b" in Ids(defs);
  }

  lemma PairReady()
    ensures MarkReady(Pair(NewNode(FIRST), NewNode(SECOND))) == Pair(NewNode(FIRST).(state := Ready), NewNode(SECOND))
  {
    assert "a" in SECOND.dependsOn;
  }

  const COMPLETE_A := CompleteRequest("k", "a", 1, false, false, [])

  lemma CompleteFirst(s: RunData)
    requires s == EMPTY_RUN.(runId := "r", lastSeq := s.lastSeq, nodes := Pair(Busy(FIRST), NewNode(SECOND)))
    ensures var t := Replay(s, CompleteTask(s, COMPLETE_A, At(0)).events);
      t == EMPTY_RUN.(runId := "r", lastSeq := t.lastSeq, stack := [CompensationEntry("a", "undo", false, 0)],
                nodes := Pair(Over(FIRST, Completed), NewNode(SECOND).(state := Ready)))
  {
    var e := Emit(s, At(0), NodeCompleted("a", "k", 1, []));
    assert NormalForms([]) == [];
    assert CompleteTask(s, COMPLETE_A, At(0)).events == ThenAdvance(s, At(0), [e]);
    var t := Step(s, e);
    SecondReady();
    assert t == EMPTY_RUN.(runId := "r", lastSeq := t.lastSeq, stack := [CompensationEntry("a", "undo", false, 0)],
                     nodes := Pair(Over(FIRST, Completed), NewNode(SECOND).(state := Ready)));
    ReplayReport(s, At(0), e);
    assert "b" in t.nodes;
    hide Step, ThenAdvance, CompleteTask;
    assert !AllNodesCompleted(t) && !HasUnrecoveredFailure(t);
  }

  lemma SecondReady()
    ensures MarkReady(Pair(Over(FIRST, Completed), NewNode(SECOND))) == Pair(Over(FIRST, Completed), NewNode(SECOND).(state := Ready))
  {
  }

  const FAIL_B := FailRequest("k", "b", 1, false, false, false)

  lemma FailSecond(s: RunData)
    requires s == EMPTY_RUN.(runId := "r", lastSeq := s.lastSeq, stack := [CompensationEntry("a", "undo", false, 0)],
                       nodes := Pair(Over(FIRST, Completed), Busy(SECOND)))
    ensures var t := Replay(s, FailTask(s, FAIL_B, 0, At(0)).events);
      t == s.(lastSeq := t.lastSeq, runState := RunCompensating, nodes := Pair(Over(FIRST, Completed), Over(SECOND, Failed)))
  {
    hide Step, ThenAdvance, FailTask, Advance;
    var e := Emit(s, At(0), NodeFailed("b", "k", 1, false, false));
    FailSecondStep(s, e);
    ReplayReport(s, At(0), e);
    StartUnwinding(Step(s, e));
  }

  lemma FailSecondStep(s: RunData, e: Event)
    requires s.nodes == Pair(Over(FIRST, Completed), Busy(SECOND)) && !s.cancelRequested
    requires e == Emit(s, At(0), NodeFailed("b", "k", 1, false, false))
    ensures FailTask(s, FAIL_B, 0, At(0)).events == ThenAdvance(s, At(0), [e])
    ensures Step(s, e) == s.(lastSeq := s.lastSeq + 1, nodes := Pair(Over(FIRST, Completed), Over(SECOND, Failed)))
  {
    assert [e] + [] == [e];
    hide ThenAdvance, Advance;
    assert s.nodes["b" := Over(SECOND, Failed)] == Pair(Over(FIRST, Completed), Over(SECOND, Failed));
  }

  lemma StartUnwinding(s: RunData)
    requires Forward(s) && s.stack == [CompensationEntry("a", "undo", false, 0)] && s.timers == map[]
    requires s.nodes == Pair(Over(FIRST, Completed), Over(SECOND, Failed))
    ensures Replay(s, Advance(s, At(0))) == s.(lastSeq := s.lastSeq + 1, runState := RunCompensating)
  {
    assert "b" in s.nodes && UnrecoveredFailure(s, "b");
    assert !s.stack[0].completed;
    assert AdvancePayload(s) == Some(CompensationStarted);
    var f := Emit(s, At(0), CompensationStarted);
    assert Step(s, f) == s.(lastSeq := s.lastSeq + 1, runState := RunCompensating);
    hide Step, AdvancePayload;
    assert [f][1..] == [];
  }

  lemma ClaimUndo(s: RunData)
    requires s.runState.RunCompensating? && !s.cancelRequested && s.active.None? && s.stack == [CompensationEntry("a", "undo", false, 0)]
    ensures Replay(s, Claim(s, WORKER, "k", At(0))) ==
      s.(lastSeq := s.lastSeq + 1, stack := [CompensationEntry("a", "undo", false, 1)], active := Some(ActiveCompensation("a", "k", 1, 0)))
  {
    var e := Emit(s, At(0), CompensationTaskStarted("a", "k", 1));
    assert NextEntry(s) == Some(0);
    assert "undo" in WORKER["k"];
    assert Claim(s, WORKER, "k", At(0)) == [e];
    assert Step(s, e) == s.(lastSeq := s.lastSeq + 1, stack := [CompensationEntry("a", "undo", false, 1)], active := Some(ActiveCompensation("a", "k", 1, 0)));
    hide Step, Claim;
    assert [e][1..] == [];
  }

  // Every node has ended, so cancelling completes at once -- with the task still active.
  lemma CancelUnwinding(s: RunData)
    requires s.runState.RunCompensating? && !s.cancelRequested && AllNodesTerminal(s)
    ensures var t := Replay(s, CancelRun(s, At(0))); t.runState.RunCancelled? && t.active == s.active
  {
    var e := Emit(s, At(0), CancellationRequested);
    var t := Step(s, e);
    assert t == s.(lastSeq := s.lastSeq + 1, cancelRequested := true);
    NothingToCancel(t, At(0), Sorted(t.nodes.Keys));
    assert [e] + [] == [e];
    assert CancelRun(s, At(0)) == ThenAdvance(s, At(0), [e]);
    ReplayReport(s, At(0), e);
    var f := Emit(t, At(0), CancellationCompleted);
    assert AdvancePayload(t) == Some(CancellationCompleted);
    assert Step(t, f).runState.RunCancelled? && Step(t, f).active == s.active;
    hide Step, ThenAdvance, CancelRun, AdvancePayload;
    assert [f][1..] == [];
  }

  /** The condition on late cancellations is needed: a reachable run is CANCELLED
      with a task still active, and the report of that task makes it FAILED. */
  lemma CancelledThenFailed() returns (y: Sys, op: Op)
    ensures Reachable(y) && y.up && StateOf(y.log).runState.RunCancelled?
    ensures ValidOp(StateOf(y.log), op) && Replay(StateOf(y.log), OpEvents(StateOf(y.log), op)).runState.RunFailed?
  {
    hide StateOf, Step, Replay, Legal, Inv, Claim, CompleteTask, FailTask, CancelRun, Reachable, Replays, LegalLog;
    PairStart();
    var start := Begun(PAIR_START);
    var claim := OpClaim(WORKER, "k", At(0));
    ClaimOnly(StateOf(start.log), WORKER, "a", 0);
    var claimed := AfterOp(start, claim);
    CompleteFirst(StateOf(claimed.log));
    var completed := AfterOp(claimed, OpComplete(COMPLETE_A, At(0)));
    ClaimOnly(StateOf(completed.log), WORKER, "b", 0);
    var again := AfterOp(completed, claim);
    FailSecond(StateOf(again.log));
    var failed := AfterOp(again, OpFail(FAIL_B, 0, At(0)));
    ClaimUndo(StateOf(failed.log));
    var unwinding := AfterOp(failed, claim);
    assert "a" in StateOf(unwinding.log).nodes;
    CancelUnwinding(StateOf(unwinding.log));
    y := AfterOp(unwinding, OpCancel(At(0)));
    op := OpFail(FailRequest("k", "a", 1, true, false, false), 0, At(0));
    ReachableSound(y);
    EndedChangesIff(StateOf(y.log), op);
  }
}
