/** What single operations achieve, across operations: a claimed task can be reported,
    a report ends its lease, a heartbeat or a sweep misses nothing. */
module Effects {
  import opened Runtime
  import opened State
  import opened Strings
  import opened TimerIds
  import opened EngineSpec
  import opened Guards
  import opened Invariant
  import opened Logs
  import opened Operations
  import opened Quiescence
  import opened Dispatching
  import Fencing
  import Liveness
  import Workflowdef

  // ---- Claims and reports ----

  // A task as the worker that holds it would report on it.
  predicate Reportable(s: RunData, task: WorkerTask, worker: string) {
    if task.compensation then ActiveCheck(s, worker, task.node, task.attempt) == NoError
    else LeaseCheck(s, worker, task.node, task.attempt) == NoError
  }

  lemma TimerKeepsNodes(s: RunData, timers: seq<Event>)
    requires |timers| <= 1 && forall e | e in timers :: e.payload.TimerScheduled?
    ensures var t := Replay(s, timers); t == s.(timers := t.timers, lastSeq := t.lastSeq)
  {
    if timers != [] { assert timers[0] in timers && timers[1..] == []; }
  }

  lemma ClaimedNode(s: RunData, clock: Clock, n: string, worker: string)
    requires Forward(s) && n in s.nodes && s.nodes[n].state.Ready? && worker != ""
    ensures var t := Replay(s, ClaimNode(s, clock, n, worker));
      LeaseCheck(t, worker, n, NextAttempt(s.nodes[n].attempt)) == NoError
  {
    hide Legal, Chain, Step, Dispatch, ExecTimer, AbsTimer;
    DispatchLegal(WorkflowCompleted, s, clock, n, worker);
    var started := Dispatch(s, clock, n, worker);
    var s2 := Replay(s, started);
    var exec := ExecTimer(s2, clock, n, s.nodes[n].def, NextAttempt(s.nodes[n].attempt));
    OnlyTimers(s2, clock, n, s.nodes[n].def, NextAttempt(s.nodes[n].attempt));
    TimerKeepsNodes(s2, exec);
    var s3 := Replay(s2, exec);
    var abs := AbsTimer(s3, clock, n, s.nodes[n].def);
    OnlyTimers(s3, clock, n, s.nodes[n].def, 0);
    TimerKeepsNodes(s3, abs);
    ReplayConcat(s, started, exec);
    ReplayConcat(s, started + exec, abs);
  }

  lemma OnlyTimers(s: RunData, clock: Clock, n: string, def: NodeDef, a: uint32)
    ensures |ExecTimer(s, clock, n, def, a)| <= 1 && forall e | e in ExecTimer(s, clock, n, def, a) :: e.payload.TimerScheduled?
    ensures |AbsTimer(s, clock, n, def)| <= 1 && forall e | e in AbsTimer(s, clock, n, def) :: e.payload.TimerScheduled?
  {
  }

  lemma ClaimedCompensation(s: RunData, reg: Registry, worker: string, clock: Clock)
    requires StackInv(s) && OfferedCompensation(s, reg, worker).Some?
    ensures var task := OfferedCompensation(s, reg, worker).value;
      ActiveCheck(Replay(s, ClaimCompensation(s, reg, worker, clock)), worker, task.node, task.attempt) == NoError
  {
    var i := NextEntry(s).value;
    EntryIsFirst(s, i);
    var claim := ClaimCompensation(s, reg, worker, clock);
    assert claim[1..] == [];
  }

  /** The task a poll hands out is one whose report the engine will accept. */
  lemma ClaimedTaskReportable(s: RunData, reg: Registry, worker: string, clock: Clock)
    requires Inv(s) && Offered(s, reg, worker).Some?
    ensures Reportable(Replay(s, Claim(s, reg, worker, clock)), Offered(s, reg, worker).value, worker)
  {
    hide Inv, ClaimNode, ClaimCompensation, OfferedCompensation;
    InvStack(s);
    if s.runState.RunCompensating? {
      OfferIsCompensation(s, reg, worker);
      ClaimedCompensation(s, reg, worker, clock);
    } else {
      var n := Least(ClaimableNodes(s, reg, worker));
      assert Claimable(s, reg, worker, n);
      ClaimedNode(s, clock, n, worker);
    }
  }

  lemma InvStack(s: RunData)
    requires Inv(s)
    ensures StackInv(s) && ActiveInv(s) && TimerInv(s)
  {
  }

  lemma OfferIsCompensation(s: RunData, reg: Registry, worker: string)
    ensures OfferedCompensation(s, reg, worker).Some? ==> OfferedCompensation(s, reg, worker).value.compensation
  {
  }

  lemma {:induction false} StillNotRunning(last: Payload, s: RunData, events: seq<Event>, n: string)
    requires Inv(s) && Chain(last, s, events) && n in s.nodes && !s.nodes[n].state.Running?
    requires forall i | 0 <= i < |events| :: !events[i].payload.NodeStarted?
    ensures var t := Replay(s, events); n in t.nodes && !t.nodes[n].state.Running?
    decreases |events|
  {
    hide Legal, Step, Inv;
    if events != [] {
      KeysGrow(last, s, events[0]);
      InvKept(last, s, events[0]);
      Fencing.RunningEffect(last, s, events[0], n);
      StillNotRunning(events[0].payload, Step(s, events[0]), events[1..], n);
    }
  }

  predicate ReportOf(p: Payload, n: string) {
    (p.CheckpointReached? || p.NodeCompleted? || p.NodeFailed? || p.NodeCancelled?) && p.node == n
  }

  // A report followed by anything but a new start ends the lease.
  lemma ReportEnds(last: Payload, s: RunData, events: seq<Event>, n: string)
    requires Inv(s) && Chain(last, s, events) && n in s.nodes
    requires events != [] && ReportOf(events[0].payload, n)
    requires forall i | 1 <= i < |events| :: !events[i].payload.NodeStarted?
    ensures var t := Replay(s, events); n in t.nodes && !t.nodes[n].state.Running?
  {
    hide Legal, Step, Inv;
    KeysGrow(last, s, events[0]);
    InvKept(last, s, events[0]);
    Fencing.RunningEffect(last, s, events[0], n);
    StillNotRunning(events[0].payload, Step(s, events[0]), events[1..], n);
  }

  lemma NoStartInAdvance(s: RunData, clock: Clock)
    ensures forall e | e in Advance(s, clock) :: !e.payload.NodeStarted?
  {
  }

  lemma CompletionReports(s: RunData, req: CompleteRequest, clock: Clock)
    requires !req.compensation
    ensures var events := CompleteTask(s, req, clock).events;
      events != [] ==> ReportOf(events[0].payload, req.node) && req.node in s.nodes && forall i | 1 <= i < |events| :: !events[i].payload.NodeStarted?
  {
    hide Step, SpawnOk, Advance;
    if LeaseCheck(s, req.worker, req.node, req.attempt) == NoError && !s.cancelRequested {
      var e := if req.checkpoint then Emit(s, clock, CheckpointReached(req.node, req.worker, req.attempt))
               else if SpawnOk(s.nodes, req.spawned) then Emit(s, clock, NodeCompleted(req.node, req.worker, req.attempt, Workflowdef.NormalForms(req.spawned)))
               else Emit(s, clock, NodeFailed(req.node, req.worker, req.attempt, false, false));
      assert CompleteTask(s, req, clock).events[0] == e;
      NoStartInAdvance(Replay(s, [e]), clock);
      var events := CompleteTask(s, req, clock).events;
      forall i | 1 <= i < |events| ensures !events[i].payload.NodeStarted? {
        if !req.checkpoint { assert events[i] in Advance(Replay(s, [e]), clock); }
      }
    }
  }

  lemma FailureReports(s: RunData, req: FailRequest, retryNow: Time, clock: Clock)
    requires !req.compensation
    ensures var events := FailTask(s, req, retryNow, clock).events;
      events != [] ==> ReportOf(events[0].payload, req.node) && req.node in s.nodes && forall i | 1 <= i < |events| :: !events[i].payload.NodeStarted?
  {
    hide Step, Advance, HasPendingRetryTimer;
    var events := FailTask(s, req, retryNow, clock).events;
    if events != [] {
      if req.cancelled {
        var e := Emit(s, clock, NodeCancelled(req.node, req.worker, req.attempt));
        NoStartInAdvance(Replay(s, [e]), clock);
        assert events == [e] + Advance(Replay(s, [e]), clock);
      } else {
        var e := Emit(s, clock, NodeFailed(req.node, req.worker, req.attempt, req.retryable, false));
        var timer := if req.retryable then RetryTimer(Step(s, e), clock, req.node, s.nodes[req.node].def, req.attempt, retryNow) else [];
        var advance := Advance(Replay(s, [e] + timer), clock);
        NoStartInAdvance(Replay(s, [e] + timer), clock);
        assert events == [e] + timer || events == [e] + timer + advance;
        forall i | 1 <= i < |events| ensures !events[i].payload.NodeStarted? {
          if i >= 1 + |timer| { assert events[i] in advance; }
        }
      }
    }
  }

  /** A lease can be reported on once: whatever an accepted completion, checkpoint,
      failure or cancellation report leads to, the same report is refused after it. */
  lemma ReportConsumesLease(s: RunData, op: Op)
    requires Inv(s) && (op.OpComplete? || op.OpFail?) && OpEvents(s, op) != []
    requires if op.OpComplete? then !op.complete.compensation else !op.fail.compensation
    ensures var t := Replay(s, OpEvents(s, op));
      if op.OpComplete? then
        CompleteTask(t, op.complete, op.clock).error != NoError && CompleteTask(t, op.complete, op.clock).events == []
      else
        FailTask(t, op.fail, op.retryNow, op.clock).error != NoError && FailTask(t, op.fail, op.retryNow, op.clock).events == []
  {
    hide Inv, Legal, Chain, Step;
    OpLegal(WorkflowCompleted, s, op);
    var n := if op.OpComplete? then op.complete.node else op.fail.node;
    if op.OpComplete? { CompletionReports(s, op.complete, op.clock); }
    else { FailureReports(s, op.fail, op.retryNow, op.clock); }
    ReportEnds(WorkflowCompleted, s, OpEvents(s, op), n);
  }

  /** The same for a compensation task, whose entry is then done or the run FAILED. */
  lemma CompensationReportConsumesTask(s: RunData, req: CompleteRequest, clock: Clock)
    requires Inv(s) && req.compensation && CompleteTask(s, req, clock).error == NoError
    ensures var t := Replay(s, CompleteTask(s, req, clock).events);
      && t.active.None? && CompleteTask(t, req, clock).error == TaskNotFound
      && FirstEntry(t.stack, req.node) < |t.stack| && t.stack[FirstEntry(t.stack, req.node)].completed
  {
    var e := Emit(s, clock, CompensationTaskCompleted(req.node, req.worker, req.attempt));
    var u := Step(s, e);
    var i := FirstEntry(s.stack, req.node);
    assert u.active.None? && u.stack == s.stack[i := s.stack[i].(completed := true)];
    SameFirstEntry(s.stack, u.stack, req.node);
    hide Step, Inv, Advance;
    ReplayReport(s, clock, e);
    AdvanceKeepsStack(u, clock);
  }

  lemma AdvanceKeepsStack(s: RunData, clock: Clock)
    ensures var t := Replay(s, Advance(s, clock)); t.stack == s.stack && (s.active.None? ==> t.active.None?)
  {
    if AdvancePayload(s).Some? { assert Advance(s, clock)[1..] == []; }
  }

  // ---- Heartbeats and sweeps miss nothing ----

  lemma {:induction false} BeatsEffect(s: RunData, worker: string, now: Time, order: seq<string>)
    ensures var t := Replay(s, BeatNodes(s, worker, now, order));
      && t.nodes.Keys == s.nodes.Keys
      && (forall n | n in s.nodes ::
            t.nodes[n] == if n in order && s.nodes[n].state.Running? && s.nodes[n].worker == worker
                          then s.nodes[n].(heartbeat := Some(now)) else s.nodes[n])
      && t.active.Some? == s.active.Some?
      && (t.active.Some? ==> t.active.value == s.active.value.(heartbeat := t.active.value.heartbeat))
    decreases |order|
  {
    if order != [] {
      var n := order[0];
      if n in s.nodes && s.nodes[n].state.Running? && s.nodes[n].worker == worker {
        var e := EmitAt(s, now, HeartbeatRecorded(n, worker, s.nodes[n].attempt));
        var t := Step(s, e);
        assert t.nodes == s.nodes[n := s.nodes[n].(heartbeat := Some(now))];
        hide Step;
        BeatEffect(s, e);
        if s.active.Some? { BeatActive(s, e); }
        BeatsEffect(t, worker, now, order[1..]);
        assert ([e] + BeatNodes(t, worker, now, order[1..]))[1..] == BeatNodes(t, worker, now, order[1..]);
      } else {
        hide Step;
        BeatsEffect(s, worker, now, order[1..]);
      }
    }
  }

  lemma BeatActive(s: RunData, e: Event)
    requires e.payload.HeartbeatRecorded? && s.active.Some?
    ensures Step(s, e).active.Some? && Step(s, e).active.value == s.active.value.(heartbeat := Step(s, e).active.value.heartbeat)
  {
  }

  /** A heartbeat renews every lease of the worker in every run it is sent to, and
      nobody else's. */
  lemma HeartbeatRenewsAll(s: RunData, worker: string, now: Time, order: seq<string>)
    requires Inv(s) && !s.Terminal() && Enumerates(order, s.nodes.Keys)
    ensures var t := Replay(s, Heartbeat(s, worker, now, order));
      && t.nodes.Keys == s.nodes.Keys
      && (forall n | n in s.nodes && s.nodes[n].state.Running? && s.nodes[n].worker == worker :: t.nodes[n].heartbeat == Some(now))
      && (forall n | n in s.nodes && !(s.nodes[n].state.Running? && s.nodes[n].worker == worker) && !ActiveNode(s, worker, n) :: t.nodes[n] == s.nodes[n])
      && (s.active.Some? && s.active.value.worker == worker ==> t.active.Some? && t.active.value.heartbeat == now)
  {
    hide Inv, Step;
    var beats := BeatNodes(s, worker, now, order);
    BeatsEffect(s, worker, now, order);
    var u := Replay(s, beats);
    CompensationBeat(u, worker, now);
    ReplayConcat(s, beats, BeatCompensation(u, worker, now));
  }

  predicate ActiveNode(s: RunData, worker: string, n: string) {
    s.active.Some? && s.active.value.worker == worker && s.active.value.node == n
  }

  lemma CompensationBeat(s: RunData, worker: string, now: Time)
    ensures var t := Replay(s, BeatCompensation(s, worker, now));
      && t.nodes.Keys == s.nodes.Keys
      && (forall n | n in s.nodes :: t.nodes[n] == s.nodes[n] || (ActiveNode(s, worker, n) && t.nodes[n] == s.nodes[n].(heartbeat := Some(now))))
      && (s.active.Some? && s.active.value.worker == worker ==> t.active == Some(s.active.value.(heartbeat := now)))
  {
    if BeatCompensation(s, worker, now) != [] { assert BeatCompensation(s, worker, now)[1..] == []; }
  }

  /** After a lease sweep no lease and no compensation task is overdue. */
  lemma SweepLeavesNoneOverdue(s: RunData, now: Time, order: seq<string>)
    requires Inv(s) && Enumerates(order, s.nodes.Keys)
    ensures var t := Replay(s, ExpireOverdue(s, now, order));
      && (forall n | n in t.nodes :: !Overdue(t.nodes[n], now))
      && (t.active.Some? ==> now - t.active.value.heartbeat <= HEARTBEAT_TIMEOUT)
      && forall n | n in s.nodes && !Overdue(s.nodes[n], now) :: n in t.nodes && t.nodes[n] == s.nodes[n]
  {
    hide Inv, Step;
    var expired := ExpireNodes(s, now, order);
    Liveness.SweepEffect(s, now, order);
    var u := Replay(s, expired);
    TaskSweep(u, now);
    ReplayConcat(s, expired, ExpireCompensation(u, now));
  }

  lemma TaskSweep(s: RunData, now: Time)
    ensures var t := Replay(s, ExpireCompensation(s, now));
      t.nodes == s.nodes && (t.active.Some? ==> t.active == s.active && now - t.active.value.heartbeat <= HEARTBEAT_TIMEOUT)
  {
    if ExpireCompensation(s, now) != [] { assert ExpireCompensation(s, now)[1..] == []; }
  }
}
