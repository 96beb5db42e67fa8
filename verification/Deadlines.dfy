/** Deadlines and retries from end to end: which timers an operation arms, that a
    sweep fires every due one, and what a firing does. */
module Deadlines {
  import opened Runtime
  import opened State
  import opened Strings
  import opened TimerIds
  import opened EngineSpec
  import opened Guards
  import opened Invariant
  import opened Logs
  import opened Operations
  import opened Quiescence
  import Fencing
  import Growth

  // ---- Arming ----

  predicate Armed(s: RunData, n: string, a: uint32, p: TimerPurpose, fireAt: Time) {
    var id := TimerId(s.runId, n, a, p);
    id in s.timers && s.timers[id] == Timer(id, n, a, p, fireAt, false)
  }

  lemma ScheduleArms(s: RunData, e: Event)
    requires e.payload.TimerScheduled? && e.payload.timer == TimerId(s.runId, e.payload.node, e.payload.attempt, e.payload.purpose)
    ensures Armed(Step(s, e), e.payload.node, e.payload.attempt, e.payload.purpose, e.payload.fireAt)
    ensures Step(s, e) == s.(timers := Step(s, e).timers, lastSeq := e.seqNo)
  {
  }

  lemma ExecArms(s: RunData, clock: Clock, n: string, def: NodeDef, a: uint32)
    requires def.executionDeadline > 0
    ensures Armed(Replay(s, ExecTimer(s, clock, n, def, a)), n, a, ExecDeadline, clock(s.lastSeq + 1) + def.executionDeadline)
  {
    hide Step, TimerId;
    var e := ExecTimer(s, clock, n, def, a)[0];
    OneStep(s, e);
    ScheduleArms(s, e);
  }

  // Scheduling the absolute deadline leaves an armed execution deadline alone.
  lemma AbsArms(s: RunData, clock: Clock, n: string, def: NodeDef)
    ensures var t := Replay(s, AbsTimer(s, clock, n, def));
      && (def.absoluteDeadline > 0 ==> HasPendingAbsoluteTimer(t, n))
      && forall m, a, fireAt | Armed(s, m, a, ExecDeadline, fireAt) :: Armed(t, m, a, ExecDeadline, fireAt)
  {
    hide TimerId;
    var abs := AbsTimer(s, clock, n, def);
    if abs != [] {
      var e := abs[0];
      OneStep(s, e);
      ScheduleArms(s, e);
      var t := Step(s, e);
      assert IsPendingTimer(t.timers[e.payload.timer], n, AbsDeadline);
      forall m, a, fireAt | Armed(s, m, a, ExecDeadline, fireAt) ensures Armed(t, m, a, ExecDeadline, fireAt) {
        if TimerId(s.runId, m, a, ExecDeadline) == e.payload.timer {
          TimerIdInjective(s.runId, m, a, ExecDeadline, n, 0, AbsDeadline);
        }
      }
    }
  }

  // Every timer of that purpose was there before.
  ghost predicate AddsNone(a: map<string, Timer>, b: map<string, Timer>, p: TimerPurpose) {
    forall id | id in b && b[id].purpose == p :: id in a && a[id] == b[id]
  }

  lemma ExecAdds(s: RunData, clock: Clock, n: string, def: NodeDef, a: uint32)
    ensures var t := Replay(s, ExecTimer(s, clock, n, def, a));
      && AddsNone(s.timers, t.timers, AbsDeadline) && AddsNone(s.timers, t.timers, CheckpointTimeout) && AddsNone(s.timers, t.timers, RetryBackoff)
      && (def.executionDeadline <= 0 ==> t == s)
  {
    hide TimerId, Step;
    var exec := ExecTimer(s, clock, n, def, a);
    if exec != [] {
      OneStep(s, exec[0]);
      ScheduledStep(s, exec[0]);
    }
  }

  lemma AbsAdds(s: RunData, clock: Clock, n: string, def: NodeDef)
    ensures var t := Replay(s, AbsTimer(s, clock, n, def));
      && AddsNone(s.timers, t.timers, ExecDeadline) && AddsNone(s.timers, t.timers, CheckpointTimeout) && AddsNone(s.timers, t.timers, RetryBackoff)
      && (def.absoluteDeadline <= 0 ==> t == s)
  {
    hide TimerId, Step;
    var abs := AbsTimer(s, clock, n, def);
    if abs != [] {
      OneStep(s, abs[0]);
      ScheduledStep(s, abs[0]);
    }
  }

  lemma ArmsOnly(s: RunData, clock: Clock, n: string, worker: string)
    requires Forward(s) && n in s.nodes && s.nodes[n].state.Ready? && worker != ""
    ensures var t := Replay(s, ClaimNode(s, clock, n, worker)); var def := s.nodes[n].def;
      && (def.executionDeadline <= 0 ==> AddsNone(s.timers, t.timers, ExecDeadline))
      && (def.absoluteDeadline <= 0 ==> AddsNone(s.timers, t.timers, AbsDeadline))
      && AddsNone(s.timers, t.timers, CheckpointTimeout) && AddsNone(s.timers, t.timers, RetryBackoff)
  {
    hide Legal, Chain, Step, Dispatch, ExecTimer, AbsTimer;
    DispatchLegal(WorkflowCompleted, s, clock, n, worker);
    var def, a := s.nodes[n].def, NextAttempt(s.nodes[n].attempt);
    var started := Dispatch(s, clock, n, worker);
    var s2 := Replay(s, started);
    var exec := ExecTimer(s2, clock, n, def, a);
    ExecAdds(s2, clock, n, def, a);
    ReplayConcat(s, started, exec);
    AbsAdds(Replay(s2, exec), clock, n, def);
    ReplayConcat(s, started + exec, AbsTimer(Replay(s2, exec), clock, n, def));
  }

  lemma ScheduledStep(s: RunData, e: Event)
    requires e.payload.TimerScheduled?
    ensures var p := e.payload;
      Step(s, e).timers == s.timers[p.timer := Timer(p.timer, p.node, p.attempt, p.purpose, p.fireAt, false)]
  {
  }

  /** A claim arms the execution deadline of the new attempt, counted from when the
      timer is written, and leaves an absolute deadline pending, each exactly if the
      definition asks for it. */
  lemma ClaimArms(s: RunData, clock: Clock, n: string, worker: string)
    requires Forward(s) && n in s.nodes && s.nodes[n].state.Ready? && worker != ""
    ensures var t := Replay(s, ClaimNode(s, clock, n, worker)); var def := s.nodes[n].def;
      && (def.executionDeadline > 0 ==> Armed(t, n, NextAttempt(s.nodes[n].attempt), ExecDeadline, clock(s.lastSeq + 3) + def.executionDeadline))
      && (def.absoluteDeadline > 0 ==> HasPendingAbsoluteTimer(t, n))
      && (def.executionDeadline <= 0 ==> AddsNone(s.timers, t.timers, ExecDeadline))
      && (def.absoluteDeadline <= 0 ==> AddsNone(s.timers, t.timers, AbsDeadline))
      && AddsNone(s.timers, t.timers, CheckpointTimeout) && AddsNone(s.timers, t.timers, RetryBackoff)
  {
    hide TimerId, Legal, Chain, Step, Dispatch, ExecTimer, AbsTimer, Armed, HasPendingAbsoluteTimer, AddsNone, Replay;
    DispatchLegal(WorkflowCompleted, s, clock, n, worker);
    var def, a := s.nodes[n].def, NextAttempt(s.nodes[n].attempt);
    var started := Dispatch(s, clock, n, worker);
    var s2 := Replay(s, started);
    var exec := ExecTimer(s2, clock, n, def, a);
    if def.executionDeadline > 0 { ExecArms(s2, clock, n, def, a); }
    ReplayConcat(s, started, exec);
    AbsArms(Replay(s2, exec), clock, n, def);
    ArmsOnly(s, clock, n, worker);
    ReplayConcat(s, started + exec, AbsTimer(Replay(s2, exec), clock, n, def));
  }

  /** A checkpoint arms a timeout, for the attempt that reached it, exactly if the
      definition asks for one. */
  lemma CheckpointArms(s: RunData, req: CompleteRequest, clock: Clock)
    requires !req.compensation && req.checkpoint && CompleteTask(s, req, clock).error == NoError
    ensures var t := Replay(s, CompleteTask(s, req, clock).events);
      && req.node in t.nodes && t.nodes[req.node].state.AwaitingApproval?
      && (s.nodes[req.node].def.checkpointTimeout > 0 ==>
            Armed(t, req.node, req.attempt, CheckpointTimeout, clock(s.lastSeq + 2) + s.nodes[req.node].def.checkpointTimeout))
      && (s.nodes[req.node].def.checkpointTimeout <= 0 ==> t.timers == s.timers && |CompleteTask(s, req, clock).events| == 1)
  {
    hide TimerId, Step, Armed, CheckpointTimer, SpawnOk, ThenAdvance;
    var e := Emit(s, clock, CheckpointReached(req.node, req.worker, req.attempt));
    ReachedStep(s, e);
    var u, def := Step(s, e), s.nodes[req.node].def;
    OneStep(s, e);
    ReplayConcat(s, [e], CheckpointTimer(u, clock, req.node, def, req.attempt));
    CheckpointTimerArms(u, clock, req.node, def, req.attempt);
  }

  lemma ReachedStep(s: RunData, e: Event)
    requires e.payload.CheckpointReached? && e.payload.node in s.nodes && e.seqNo == s.lastSeq + 1
    ensures var t := Step(s, e);
      t.lastSeq == s.lastSeq + 1 && t.runId == s.runId && e.payload.node in t.nodes && t.nodes[e.payload.node].state.AwaitingApproval? && t.timers == s.timers
  {
  }

  lemma CheckpointTimerArms(s: RunData, clock: Clock, n: string, def: NodeDef, a: uint32)
    ensures var t := Replay(s, CheckpointTimer(s, clock, n, def, a));
      t.nodes == s.nodes && (def.checkpointTimeout > 0 ==> Armed(t, n, a, CheckpointTimeout, clock(s.lastSeq + 1) + def.checkpointTimeout))
    ensures def.checkpointTimeout <= 0 ==> CheckpointTimer(s, clock, n, def, a) == [] && Replay(s, CheckpointTimer(s, clock, n, def, a)) == s
  {
    hide TimerId, Step;
    var timer := CheckpointTimer(s, clock, n, def, a);
    if timer != [] {
      OneStep(s, timer[0]);
      ScheduleArms(s, timer[0]);
    }
  }

  /** A retryable failure with attempts left arms the backoff and leaves the node
      FAILED and the run as it was. */
  lemma FailureArmsRetry(s: RunData, req: FailRequest, retryNow: Time, clock: Clock)
    requires TimerInv(s) && !req.compensation && !req.cancelled && FailTask(s, req, retryNow, clock).error == NoError
    requires req.retryable && s.nodes[req.node].def.retry.Some?
    requires var policy := s.nodes[req.node].def.retry.value; policy.maxAttempts > 1 && req.attempt < policy.maxAttempts
    ensures var t := Replay(s, FailTask(s, req, retryNow, clock).events);
      && req.node in t.nodes && t.nodes[req.node].state.Failed? && t.nodes[req.node].attempt == req.attempt
      && Armed(t, req.node, req.attempt, RetryBackoff, retryNow + s.nodes[req.node].def.retry.value.backoff)
      && t.runState == s.runState
    ensures |FailTask(s, req, retryNow, clock).events| == 2
  {
    hide TimerId, Step, Armed, RetryTimer, HasPendingRetryTimer, ThenAdvance, TimerInv;
    var e := Emit(s, clock, NodeFailed(req.node, req.worker, req.attempt, true, false));
    FailureStep(s, e);
    var u, def := Step(s, e), s.nodes[req.node].def;
    OneStep(s, e);
    RetryTimerArms(u, clock, req.node, def, req.attempt, retryNow);
    ReplayConcat(s, [e], RetryTimer(u, clock, req.node, def, req.attempt, retryNow));
  }

  lemma FailureStep(s: RunData, e: Event)
    requires e.payload.NodeFailed? && e.payload.node in s.nodes
    ensures var t := Step(s, e); var n := e.payload.node;
      && t.runState == s.runState
      && n in t.nodes && t.nodes[n].state.Failed? && t.nodes[n].attempt == e.payload.attempt
  {
  }

  lemma RetryTimerArms(s: RunData, clock: Clock, n: string, def: NodeDef, a: uint32, retryNow: Time)
    requires def.retry.Some? && def.retry.value.maxAttempts > 1 && a < def.retry.value.maxAttempts
    ensures var t := Replay(s, RetryTimer(s, clock, n, def, a, retryNow));
      && t.nodes == s.nodes && t.runState == s.runState
      && Armed(t, n, a, RetryBackoff, retryNow + def.retry.value.backoff) && HasPendingRetryTimer(t, n, a)
    ensures |RetryTimer(s, clock, n, def, a, retryNow)| == 1
  {
    hide TimerId, Step;
    var e := RetryTimer(s, clock, n, def, a, retryNow)[0];
    OneStep(s, e);
    ScheduleArms(s, e);
    assert IsPendingTimer(Step(s, e).timers[e.payload.timer], n, RetryBackoff);
  }

  // ---- Firing ----

  // Timers are neither added nor changed, except that some have fired.
  ghost predicate Onward(a: map<string, Timer>, b: map<string, Timer>) {
    a.Keys == b.Keys && forall id | id in a :: b[id] == a[id] || b[id] == a[id].(fired := true)
  }

  ghost predicate NoSchedules(events: seq<Event>) {
    forall e | e in events :: !e.payload.TimerScheduled?
  }

  lemma {:induction false} ChainOnward(last: Payload, s: RunData, events: seq<Event>)
    requires Inv(s) && Chain(last, s, events) && NoSchedules(events)
    ensures Onward(s.timers, Replay(s, events).timers)
    decreases |events|
  {
    hide Legal, Step, WellFormed, Readiness, Leased, StackInv, ActiveInv, PhaseInv, TimerInv;
    if events != [] {
      TimerEffect(last, s, events[0]);
      if events[0].payload.TimerFired? { Fencing.FiredKnown(last, s, events[0]); }
      InvKept(last, s, events[0]);
      assert events[0] in events && forall e | e in events[1..] :: e in events;
      ChainOnward(events[0].payload, Step(s, events[0]), events[1..]);
    }
  }

  lemma {:induction false} CancelsScheduleNothing(s: RunData, clock: Clock, ids: seq<string>)
    ensures NoSchedules(CancelNodes(s, clock, ids))
    decreases |ids|
  {
    hide Step;
    if ids != [] {
      if ids[0] in s.nodes && Cancellable(s.nodes[ids[0]].state) {
        CancelsScheduleNothing(Step(s, Emit(s, clock, NodeCancelled(ids[0], "", 0))), clock, ids[1..]);
      } else {
        CancelsScheduleNothing(s, clock, ids[1..]);
      }
    }
  }

  lemma ReconcileSchedulesNothing(s: RunData, clock: Clock)
    ensures NoSchedules(Reconcile(s, clock))
  {
    hide Step, CancelNodes;
    CancelsScheduleNothing(s, clock, Sorted(s.nodes.Keys));
  }

  lemma FiringSchedulesNothing(s: RunData, id: string, now: Time, clock: Clock)
    requires id in s.timers
    ensures NoSchedules(FireTimer(s, id, now, clock))
  {
    hide Step, Reconcile;
    var t := s.timers[id];
    var e := EmitAt(s, now, TimerFired(t.id, t.node, t.attempt, t.purpose));
    var s1 := Step(s, e);
    if !t.purpose.RetryBackoff? && ShouldFailForTimer(s1.nodes, t) {
      var f := EmitAt(s1, now, NodeFailed(t.node, s1.nodes[t.node].worker, s1.nodes[t.node].attempt, false, true));
      ReconcileSchedulesNothing(Step(s1, f), clock);
    }
  }

  lemma OneFiring(s: RunData, id: string, now: Time, clock: Clock)
    requires Inv(s) && Due(s, id, now)
    ensures var t := Replay(s, FireTimer(s, id, now, clock));
      Inv(t) && Onward(s.timers, t.timers) && id in t.timers && t.timers[id].fired
  {
    hide Legal, Step, Chain, FireTimer, Onward, WellFormed, Readiness, Leased, StackInv, ActiveInv, PhaseInv, TimerInv;
    var events := FireTimer(s, id, now, clock);
    FireTimerLegal(WorkflowCompleted, s, id, now, clock);
    ChainInv(WorkflowCompleted, s, events);
    FiringSchedulesNothing(s, id, now, clock);
    ChainOnward(WorkflowCompleted, s, events);
    FirstFires(s, id, now, clock);
    RestOnward(WorkflowCompleted, s, events);
    OnwardKeepsFired(Step(s, events[0]).timers, Replay(s, events).timers, id);
  }

  lemma FirstFires(s: RunData, id: string, now: Time, clock: Clock)
    requires TimerInv(s) && Due(s, id, now)
    ensures var events := FireTimer(s, id, now, clock);
      events != [] && NoSchedules(events) && id in Step(s, events[0]).timers && Step(s, events[0]).timers[id].fired
  {
    hide Reconcile;
    assert TimerOk(s, id, s.timers[id]);
    FiringSchedulesNothing(s, id, now, clock);
  }

  lemma RestOnward(last: Payload, s: RunData, events: seq<Event>)
    requires Inv(s) && Chain(last, s, events) && NoSchedules(events) && events != []
    ensures Onward(Step(s, events[0]).timers, Replay(s, events).timers)
  {
    hide Legal, Step, Inv;
    InvKept(last, s, events[0]);
    assert forall e | e in events[1..] :: e in events;
    ChainOnward(events[0].payload, Step(s, events[0]), events[1..]);
  }

  lemma OnwardKeepsFired(a: map<string, Timer>, b: map<string, Timer>, id: string)
    requires Onward(a, b) && id in a && a[id].fired
    ensures id in b && b[id].fired
  {
  }

  ghost predicate SettledAt(timers: map<string, Timer>, id: string, now: Time) {
    id in timers ==> timers[id].fired || timers[id].fireAt > now
  }

  lemma {:induction false} SweepSettles(s: RunData, now: Time, order: seq<string>, clock: Clock)
    requires Inv(s)
    ensures var t := Replay(s, FireAll(s, now, order, clock));
      && Onward(s.timers, t.timers)
      && (t.Terminal() || forall i | 0 <= i < |order| :: SettledAt(t.timers, order[i], now))
    decreases |order|
  {
    hide Legal, Step, Inv, FireTimer;
    if order != [] {
      var id := order[0];
      if Due(s, id, now) {
        var fired := FireTimer(s, id, now, clock);
        OneFiring(s, id, now, clock);
        var u := Replay(s, fired);
        SweepSettles(u, now, order[1..], clock);
        ReplayConcat(s, fired, FireAll(u, now, order[1..], clock));
      } else {
        SweepSettles(s, now, order[1..], clock);
        if s.Terminal() {
          FireAllLegal(WorkflowCompleted, s, now, order[1..], clock);
          TerminalStays(WorkflowCompleted, s, FireAll(s, now, order[1..], clock));
        }
      }
    }
  }

  /** After a timer sweep of a run that has not ended, no due timer is left unfired. */
  lemma SweepFiresAllDue(s: RunData, now: Time, order: seq<string>, clock: Clock)
    requires Inv(s) && Enumerates(order, s.timers.Keys)
    ensures var t := Replay(s, FireAll(s, now, order, clock));
      t.Terminal() || forall id | id in t.timers :: t.timers[id].fired || t.timers[id].fireAt > now
  {
    hide Inv, Step, FireAll, Replay;
    SweepSettles(s, now, order, clock);
    var t := Replay(s, FireAll(s, now, order, clock));
    if !t.Terminal() {
      forall id | id in t.timers ensures t.timers[id].fired || t.timers[id].fireAt > now {
        assert id in order;
        var i: nat :| i < |order| && order[i] == id;
        assert SettledAt(t.timers, order[i], now);
      }
    }
  }

  lemma ReconcileKeepsFailed(last: Payload, s: RunData, clock: Clock, n: string)
    requires Inv(s) && n in s.nodes && s.nodes[n].state.Failed?
    ensures var t := Replay(s, Reconcile(s, clock)); n in t.nodes && t.nodes[n].state.Failed?
  {
    hide Inv, Legal, Step, Chain, CancelEligible, Advance;
    if !s.Terminal() {
      var cancelled := if s.cancelRequested then CancelEligible(s, clock) else [];
      if s.cancelRequested { CancelEligibleLegal(last, s, clock); }
      var u := Replay(s, cancelled);
      Growth.AdvanceKeepsNodes(u, clock);
      ReplayConcat(s, cancelled, Advance(u, clock));
    }
  }

  lemma TwoThen(s: RunData, e: Event, f: Event, rest: seq<Event>)
    ensures Replay(s, [e, f] + rest) == Replay(Step(Step(s, e), f), rest)
  {
    hide Step;
    assert [e, f] == [e] + [f];
    OneStep(s, e);
    OneStep(Step(s, e), f);
    ReplayConcat(s, [e], [f]);
    ReplayConcat(s, [e, f], rest);
  }

  // When a deadline still concerns its node.
  predicate Bites(t: Timer, node: Node) {
    || (t.purpose.ExecDeadline? && node.state.Running? && node.attempt == t.attempt)
    || (t.purpose.CheckpointTimeout? && node.state.AwaitingApproval? && node.attempt == t.attempt)
    || (t.purpose.AbsDeadline? && (node.state.Ready? || node.state.Running? || node.state.AwaitingApproval?))
  }

  /** What one due timer does. An execution deadline fails its node exactly if the node
      is RUNNING under the timer's attempt, a checkpoint timeout exactly if it is
      AWAITING_APPROVAL under it, an absolute deadline exactly if it is READY, RUNNING or
      AWAITING_APPROVAL; the run is then reconciled. A backoff makes its node READY
      exactly if it stands FAILED with that attempt. Otherwise the timer has fired, and
      that is all. */
  lemma FiringEffect(s: RunData, id: string, now: Time, clock: Clock)
    requires Inv(s) && Due(s, id, now)
    ensures s.timers[id].node in s.nodes
    ensures var timer := s.timers[id]; var n := timer.node; var node := s.nodes[n]; var t := Replay(s, FireTimer(s, id, now, clock));
      var fired := s.(timers := s.timers[id := timer.(fired := true)], lastSeq := s.lastSeq + 1);
      if Bites(timer, node) then
        var failed := fired.(nodes := s.nodes[n := node.(state := Failed, heartbeat := None)], lastSeq := s.lastSeq + 2);
        t == Replay(failed, Reconcile(failed, clock)) && n in t.nodes && t.nodes[n].state.Failed?
      else if timer.purpose.RetryBackoff? && node.state.Failed? && node.attempt == timer.attempt then
        t == fired.(nodes := s.nodes[n := node.(state := Ready, worker := "", heartbeat := None)])
      else t == fired
  {
    hide Legal, Step, FireTimer, WellFormed, Readiness, Leased, StackInv, ActiveInv, PhaseInv, TimerInv, Reconcile;
    TimerNode(s, id);
    var timer := s.timers[id];
    var e := EmitAt(s, now, TimerFired(id, timer.node, timer.attempt, timer.purpose));
    FiredStep(s, e);
    BitesIsChecked(s.nodes, timer);
    FireTimerEvents(s, id, now, clock);
    if Bites(timer, s.nodes[timer.node]) {
      var s1 := Step(s, e);
      var f := EmitAt(s1, now, NodeFailed(timer.node, s1.nodes[timer.node].worker, s1.nodes[timer.node].attempt, false, true));
      TimedOutStep(s1, f);
      TwoThen(s, e, f, Reconcile(Step(s1, f), clock));
      FailedInv(s, e, f, timer, now);
      ReconcileKeepsFailed(f.payload, Step(s1, f), clock, timer.node);
    } else {
      OneStep(s, e);
    }
  }

  lemma BitesIsChecked(nodes: Nodes, t: Timer)
    requires t.node in nodes
    ensures Bites(t, nodes[t.node]) <==> !t.purpose.RetryBackoff? && ShouldFailForTimer(nodes, t)
  {
  }

  lemma FireTimerEvents(s: RunData, id: string, now: Time, clock: Clock)
    requires TimerInv(s) && Due(s, id, now)
    ensures var t := s.timers[id]; var e := EmitAt(s, now, TimerFired(id, t.node, t.attempt, t.purpose)); var s1 := Step(s, e);
      if !t.purpose.RetryBackoff? && ShouldFailForTimer(s1.nodes, t) then
        t.node in s1.nodes &&
        var f := EmitAt(s1, now, NodeFailed(t.node, s1.nodes[t.node].worker, s1.nodes[t.node].attempt, false, true));
        FireTimer(s, id, now, clock) == [e, f] + Reconcile(Step(s1, f), clock)
      else FireTimer(s, id, now, clock) == [e]
  {
    hide Step, Reconcile;
    assert TimerOk(s, id, s.timers[id]);
  }

  lemma FiredStep(s: RunData, e: Event)
    requires e.payload.TimerFired? && e.payload.timer in s.timers && e.payload.node in s.nodes
    ensures var p := e.payload; var node := s.nodes[p.node];
      Step(s, e) == s.(
        timers := s.timers[p.timer := s.timers[p.timer].(fired := true)], lastSeq := e.seqNo,
        nodes := if p.purpose.RetryBackoff? && node.state.Failed? && node.attempt == p.attempt
                 then s.nodes[p.node := node.(state := Ready, worker := "", heartbeat := None)] else s.nodes)
  {
  }

  lemma TimedOutStep(s: RunData, f: Event)
    requires f.payload.NodeFailed? && f.payload.node in s.nodes
    requires f.payload.worker == s.nodes[f.payload.node].worker && f.payload.attempt == s.nodes[f.payload.node].attempt
    ensures Step(s, f) == s.(nodes := s.nodes[f.payload.node := s.nodes[f.payload.node].(state := Failed, heartbeat := None)], lastSeq := f.seqNo)
  {
  }

  lemma FailedInv(s: RunData, e: Event, f: Event, timer: Timer, now: Time)
    requires Inv(s) && timer.id in s.timers && s.timers[timer.id] == timer && Due(s, timer.id, now) && timer.node in s.nodes
    requires e == EmitAt(s, now, TimerFired(timer.id, timer.node, timer.attempt, timer.purpose))
    requires !timer.purpose.RetryBackoff? && timer.node in Step(s, e).nodes && ShouldFailForTimer(Step(s, e).nodes, timer)
    requires f == EmitAt(Step(s, e), now, NodeFailed(timer.node, Step(s, e).nodes[timer.node].worker, Step(s, e).nodes[timer.node].attempt, false, true))
    ensures Inv(Step(Step(s, e), f))
  {
    hide Legal, Step, WellFormed, Readiness, Leased, StackInv, ActiveInv, PhaseInv, TimerInv, ShouldFailForTimer;
    FiringLegal(WorkflowCompleted, s, timer.id, now);
    InvKept(WorkflowCompleted, s, e);
    TimeoutLegal(Step(s, e), timer, e, now);
    InvKept(e.payload, Step(s, e), f);
  }

  lemma TimerNode(s: RunData, id: string)
    requires TimerInv(s) && id in s.timers
    ensures s.timers[id].node in s.nodes && s.timers[id].id == id
  {
    assert TimerOk(s, id, s.timers[id]);
  }

  // ---- A sweep enforces what came due ----

  // Still where the deadline was to end it.
  predicate StillHeld(nodes: Nodes, t: Timer) {
    && t.node in nodes && nodes[t.node].attempt == t.attempt
    && ((t.purpose.ExecDeadline? && nodes[t.node].state.Running?) || (t.purpose.CheckpointTimeout? && nodes[t.node].state.AwaitingApproval?))
  }

  predicate SweepEvent(p: Payload) {
    p.TimerFired? || p.NodeFailed? || p.NodeCancelled? || p.CancellationCompleted? || p.CompensationStarted? ||
    p.CompensationCompleted? || p.WorkflowCompleted? || p.WorkflowFailed?
  }

  ghost predicate SweepEvents(events: seq<Event>) {
    forall i | 0 <= i < |events| :: SweepEvent(events[i].payload)
  }

  lemma {:induction false} CancelsAreSweepEvents(s: RunData, clock: Clock, ids: seq<string>)
    ensures SweepEvents(CancelNodes(s, clock, ids))
    decreases |ids|
  {
    hide Step;
    if ids != [] {
      if ids[0] in s.nodes && Cancellable(s.nodes[ids[0]].state) {
        CancelsAreSweepEvents(Step(s, Emit(s, clock, NodeCancelled(ids[0], "", 0))), clock, ids[1..]);
      } else {
        CancelsAreSweepEvents(s, clock, ids[1..]);
      }
    }
  }

  lemma ReconcileIsSweep(s: RunData, clock: Clock)
    ensures SweepEvents(Reconcile(s, clock))
  {
    hide Step, CancelNodes;
    CancelsAreSweepEvents(s, clock, Sorted(s.nodes.Keys));
  }

  lemma FireTimerIsSweep(s: RunData, id: string, now: Time, clock: Clock)
    requires TimerInv(s) && Due(s, id, now)
    ensures SweepEvents(FireTimer(s, id, now, clock))
  {
    hide Step, Reconcile, FireTimer, SweepEvent;
    FireTimerEvents(s, id, now, clock);
    var t := s.timers[id];
    var e := EmitAt(s, now, TimerFired(id, t.node, t.attempt, t.purpose));
    var s1 := Step(s, e);
    assert SweepEvent(e.payload) by { FiringIsSweep(e.payload); }
    if !t.purpose.RetryBackoff? && ShouldFailForTimer(s1.nodes, t) {
      var f := EmitAt(s1, now, NodeFailed(t.node, s1.nodes[t.node].worker, s1.nodes[t.node].attempt, false, true));
      assert SweepEvent(f.payload) by { FiringIsSweep(f.payload); }
      ReconcileIsSweep(Step(s1, f), clock);
    }
  }

  lemma FiringIsSweep(p: Payload)
    requires p.TimerFired? || p.NodeFailed?
    ensures SweepEvent(p)
  {
  }

  // No event of a sweep hands a node out, brings it to a checkpoint or renumbers it.
  lemma HeldBefore(last: Payload, s: RunData, e: Event, t: Timer)
    requires Legal(last, s, e) && Inv(s) && SweepEvent(e.payload) && StillHeld(Step(s, e).nodes, t)
    ensures StillHeld(s.nodes, t)
  {
    hide WellFormed, Readiness, Leased, StackInv, ActiveInv, PhaseInv, NodesMove, StateMove;
    if TouchesNode(e.payload) { TouchMoves(last, s, e); }
    else if e.payload.TimerFired? { Fencing.FiredKnown(last, s, e); FireEffect(s, e); }
    else { NodesUntouched(last, s, e); }
  }

  lemma {:induction false} HeldBeforeAll(last: Payload, s: RunData, events: seq<Event>, t: Timer)
    requires Inv(s) && Chain(last, s, events) && SweepEvents(events) && StillHeld(Replay(s, events).nodes, t)
    ensures StillHeld(s.nodes, t)
    decreases |events|
  {
    hide Legal, Step, Inv, StillHeld, SweepEvent;
    if events != [] {
      InvKept(last, s, events[0]);
      HeldBeforeAll(events[0].payload, Step(s, events[0]), events[1..], t);
      HeldBefore(last, s, events[0], t);
    }
  }

  lemma {:induction false} FireAllIsSweep(s: RunData, now: Time, order: seq<string>, clock: Clock)
    requires Inv(s)
    ensures SweepEvents(FireAll(s, now, order, clock))
    decreases |order|
  {
    hide Inv, Step, FireTimer, SweepEvent, Legal, Chain, Replay;
    if order != [] {
      if Due(s, order[0], now) {
        InvTimers(s);
        FireTimerIsSweep(s, order[0], now, clock);
        OneFiring(s, order[0], now, clock);
        FireAllIsSweep(Replay(s, FireTimer(s, order[0], now, clock)), now, order[1..], clock);
      } else {
        FireAllIsSweep(s, now, order[1..], clock);
      }
    }
  }

  lemma InvTimers(s: RunData)
    requires Inv(s)
    ensures TimerInv(s)
  {
  }

  // A firing leaves every other timer as it was.
  lemma OtherTimers(s: RunData, id: string, now: Time, clock: Clock, other: string)
    requires Inv(s) && Due(s, id, now) && other in s.timers && other != id
    ensures var t := Replay(s, FireTimer(s, id, now, clock)); other in t.timers && t.timers[other] == s.timers[other]
  {
    hide Legal, Step, FireTimer, Inv, Reconcile, Bites;
    FiringEffect(s, id, now, clock);
    var timer := s.timers[id];
    var n := timer.node;
    if Bites(timer, s.nodes[n]) {
      var failed := s.(timers := s.timers[id := timer.(fired := true)], lastSeq := s.lastSeq + 2,
                       nodes := s.nodes[n := s.nodes[n].(state := Failed, heartbeat := None)]);
      ReconcileTimers(failed, clock);
    }
  }

  lemma {:induction false} CancelTimers(s: RunData, clock: Clock, ids: seq<string>)
    ensures Replay(s, CancelNodes(s, clock, ids)).timers == s.timers
    decreases |ids|
  {
    if ids != [] {
      if ids[0] in s.nodes && Cancellable(s.nodes[ids[0]].state) {
        var e := Emit(s, clock, NodeCancelled(ids[0], "", 0));
        assert Step(s, e).timers == s.timers;
        hide Step;
        CancelTimers(Step(s, e), clock, ids[1..]);
        assert ([e] + CancelNodes(Step(s, e), clock, ids[1..]))[1..] == CancelNodes(Step(s, e), clock, ids[1..]);
      } else {
        hide Step;
        CancelTimers(s, clock, ids[1..]);
      }
    }
  }

  lemma ReconcileTimers(s: RunData, clock: Clock)
    ensures Replay(s, Reconcile(s, clock)).timers == s.timers
  {
    hide Step, CancelNodes, Advance, Replay;
    if !s.Terminal() {
      assert Replay(s, []) == s by { NothingReplayed(s); }
      var cancelled := if s.cancelRequested then CancelEligible(s, clock) else [];
      CancelTimers(s, clock, Sorted(s.nodes.Keys));
      var u := Replay(s, cancelled);
      AdvanceTimers(u, clock);
      ReplayConcat(s, cancelled, Advance(u, clock));
    } else { NothingReplayed(s); }
  }

  lemma NothingReplayed(s: RunData)
    ensures Replay(s, []) == s
  {
  }

  lemma AdvanceTimers(s: RunData, clock: Clock)
    ensures Replay(s, Advance(s, clock)).timers == s.timers
  {
    if AdvancePayload(s).Some? {
      var e := Emit(s, clock, AdvancePayload(s).value);
      assert Step(s, e).timers == s.timers;
      hide Step, AdvancePayload;
      OneStep(s, e);
    }
  }

  lemma FiringReleases(s: RunData, id: string, now: Time, clock: Clock)
    requires Inv(s) && Due(s, id, now) && (s.timers[id].purpose.ExecDeadline? || s.timers[id].purpose.CheckpointTimeout?)
    ensures !StillHeld(Replay(s, FireTimer(s, id, now, clock)).nodes, s.timers[id])
  {
    hide Legal, Step, FireTimer, Inv, Reconcile;
    FiringEffect(s, id, now, clock);
  }

  /** A timer that was due when a sweep of its run began: unless the run ends on the way,
      its node no longer runs, or awaits approval, under the attempt the deadline is for. */
  lemma {:induction false} SweepReleases(s: RunData, now: Time, order: seq<string>, clock: Clock, k: nat)
    requires Inv(s) && k < |order| && Due(s, order[k], now) && forall i, j | 0 <= i < j < |order| :: order[i] != order[j]
    requires s.timers[order[k]].purpose.ExecDeadline? || s.timers[order[k]].purpose.CheckpointTimeout?
    ensures var t := Replay(s, FireAll(s, now, order, clock)); t.Terminal() || !StillHeld(t.nodes, s.timers[order[k]])
    decreases |order|
  {
    hide Legal, Step, Inv, FireTimer, StillHeld, Chain;
    var id := order[0];
    if Due(s, id, now) {
      var fired := FireTimer(s, id, now, clock);
      OneFiring(s, id, now, clock);
      var u := Replay(s, fired);
      var rest := FireAll(u, now, order[1..], clock);
      ReplayConcat(s, fired, rest);
      FireAllLegal(WorkflowCompleted, u, now, order[1..], clock);
      if u.Terminal() {
        TerminalStays(WorkflowCompleted, u, rest);
      } else if k == 0 {
        FiringReleases(s, id, now, clock);
        FireAllIsSweep(u, now, order[1..], clock);
        if StillHeld(Replay(u, rest).nodes, s.timers[id]) { HeldBeforeAll(WorkflowCompleted, u, rest, s.timers[id]); }
      } else {
        assert order[0] != order[k];
        OtherTimers(s, id, now, clock, order[k]);
        SweepReleases(u, now, order[1..], clock, k - 1);
      }
    } else {
      SweepReleases(s, now, order[1..], clock, k - 1);
    }
  }

  /** Deadlines are enforced. After a timer sweep of a run that has not ended, no node is
      still RUNNING under an attempt whose execution deadline, and none still
      AWAITING_APPROVAL under an attempt whose timeout, had come due unfired. */
  lemma SweepEnforces(s: RunData, now: Time, order: seq<string>, clock: Clock)
    requires Inv(s) && !s.Terminal() && Enumerates(order, s.timers.Keys)
    ensures var t := Replay(s, FireDueTimers(s, now, order, clock));
      t.Terminal() || forall id | id in s.timers && !s.timers[id].fired && s.timers[id].fireAt <= now ::
        var d := s.timers[id];
        && !(d.purpose.ExecDeadline? && d.node in t.nodes && t.nodes[d.node].state.Running? && t.nodes[d.node].attempt == d.attempt)
        && !(d.purpose.CheckpointTimeout? && d.node in t.nodes && t.nodes[d.node].state.AwaitingApproval? && t.nodes[d.node].attempt == d.attempt)
  {
    hide Inv, Step, FireAll, Replay, Legal, Chain, Reconcile;
    var fired := FireAll(s, now, order, clock);
    var u := Replay(s, fired);
    FireAllLegal(WorkflowCompleted, s, now, order, clock);
    ChainInv(WorkflowCompleted, s, fired);
    ReconcileLegal(WorkflowCompleted, u, clock);
    ReplayConcat(s, fired, Reconcile(u, clock));
    NothingReplayed(s);
    var t := Replay(s, FireDueTimers(s, now, order, clock));
    ReconcileIsSweep(u, clock);
    if !t.Terminal() {
      if u.Terminal() { TerminalStays(WorkflowCompleted, u, Reconcile(u, clock)); }
      forall id | id in s.timers && !s.timers[id].fired && s.timers[id].fireAt <= now ensures !StillHeld(t.nodes, s.timers[id]) {
        Released(s, now, order, clock, id);
        if StillHeld(t.nodes, s.timers[id]) && fired != [] { HeldBeforeAll(WorkflowCompleted, u, Reconcile(u, clock), s.timers[id]); }
      }
    }
  }

  lemma Released(s: RunData, now: Time, order: seq<string>, clock: Clock, id: string)
    requires Inv(s) && Enumerates(order, s.timers.Keys) && Due(s, id, now)
    ensures var t := Replay(s, FireAll(s, now, order, clock)); t.Terminal() || !StillHeld(t.nodes, s.timers[id])
  {
    hide Inv, Step, FireAll, Replay;
    if s.timers[id].purpose.ExecDeadline? || s.timers[id].purpose.CheckpointTimeout? {
      assert id in order;
      var k: nat :| k < |order| && order[k] == id;
      SweepReleases(s, now, order, clock, k);
    }
  }

  /** The same for the timers themselves: after the sweep and its reconcile no due timer
      is left unfired, unless the run has ended; nothing is appended exactly if none was due. */
  lemma SweepComplete(s: RunData, now: Time, order: seq<string>, clock: Clock)
    requires Inv(s) && !s.Terminal() && Enumerates(order, s.timers.Keys)
    ensures var t := Replay(s, FireDueTimers(s, now, order, clock));
      t.Terminal() || forall id | id in t.timers :: t.timers[id].fired || t.timers[id].fireAt > now
    ensures FireDueTimers(s, now, order, clock) == [] <==> forall id | id in s.timers :: s.timers[id].fired || s.timers[id].fireAt > now
  {
    hide Inv, Step, FireAll, Replay, Legal, Chain, Reconcile;
    var fired := FireAll(s, now, order, clock);
    var u := Replay(s, fired);
    SweepFiresAllDue(s, now, order, clock);
    FireAllLegal(WorkflowCompleted, s, now, order, clock);
    ChainInv(WorkflowCompleted, s, fired);
    ReconcileLegal(WorkflowCompleted, u, clock);
    ReplayConcat(s, fired, Reconcile(u, clock));
    ReconcileTimers(u, clock);
    NothingReplayed(s);
    if u.Terminal() { TerminalStays(WorkflowCompleted, u, Reconcile(u, clock)); }
    if forall id | id in s.timers :: s.timers[id].fired || s.timers[id].fireAt > now { NothingToFire(s, now, order, clock); }
  }

  lemma {:induction false} NothingToFire(s: RunData, now: Time, order: seq<string>, clock: Clock)
    requires forall id | id in s.timers :: s.timers[id].fired || s.timers[id].fireAt > now
    ensures FireAll(s, now, order, clock) == []
    decreases |order|
  {
    if order != [] { NothingToFire(s, now, order[1..], clock); }
  }

  // ---- Only what was asked for ----

  /** The definition of the timer's node asks for it: the duration is above zero, or the
      policy has attempts left. */
  predicate Asked(nodes: Nodes, t: Timer) {
    t.node in nodes &&
    var def := nodes[t.node].def;
    match t.purpose
    case ExecDeadline => def.executionDeadline > 0
    case AbsDeadline => def.absoluteDeadline > 0
    case CheckpointTimeout => def.checkpointTimeout > 0
    case RetryBackoff => def.retry.Some? && def.retry.value.maxAttempts > 1 && t.attempt < def.retry.value.maxAttempts
  }

  ghost predicate AllAsked(s: RunData) {
    forall id | id in s.timers :: Asked(s.nodes, s.timers[id])
  }

  lemma ScheduleAsked(last: Payload, s: RunData, e: Event)
    requires Legal(last, s, e) && e.payload.TimerScheduled?
    ensures var p := e.payload; Asked(s.nodes, Timer(p.timer, p.node, p.attempt, p.purpose, p.fireAt, false))
  {
  }

  lemma AskedStep(last: Payload, s: RunData, e: Event)
    requires Legal(last, s, e) && Inv(s) && AllAsked(s)
    ensures AllAsked(Step(s, e))
  {
    hide Legal, Step, WellFormed, Readiness, Leased, StackInv, ActiveInv, PhaseInv, TimerInv;
    TimerEffect(last, s, e);
    KeysGrow(last, s, e);
    if e.payload.TimerScheduled? { ScheduleAsked(last, s, e); }
    if e.payload.TimerFired? { Fencing.FiredKnown(last, s, e); }
  }

  /** Nothing is timed that nobody asked for: over every history, each timer in the table
      belongs to a node whose definition has that duration, or that retry. */
  lemma {:induction false} TimersAsked(log: seq<Event>)
    requires LegalLog(log)
    ensures AllAsked(StateOf(log))
    decreases |log|
  {
    hide Legal, Step, Inv;
    if |log| == 1 {
      Fencing.StartAttempts(log, "");
    } else {
      TimersAsked(Front(log));
      LogInv(Front(log));
      AskedStep(Last(Front(log)).payload, StateOf(Front(log)), Last(log));
    }
  }
}
