/** Operation boundaries: no operation leaves a run-level transition undone, so
    reconciling at a boundary appends nothing. */
module Quiescence {
  import opened Runtime
  import opened State
  import opened TimerIds
  import opened Workflowdef
  import opened Strings
  import opened EngineSpec
  import opened Guards
  import opened Invariant
  import opened Logs
  import opened Operations

  ghost predicate NothingCancellable(s: RunData) {
    forall n | n in s.nodes :: !Cancellable(s.nodes[n].state)
  }

  /** Terminal, or with no node left to cancel and no run-level transition due. */
  ghost predicate Quiet(s: RunData) {
    s.Terminal() || ((s.cancelRequested ==> NothingCancellable(s)) && AdvancePayload(s).None?)
  }

  lemma {:induction false} NothingToCancel(s: RunData, clock: Clock, ids: seq<string>)
    requires NothingCancellable(s)
    ensures CancelNodes(s, clock, ids) == []
    decreases |ids|
  {
    if ids != [] { NothingToCancel(s, clock, ids[1..]); }
  }

  /** Reconcile appends nothing exactly in the quiet states. */
  lemma QuietIffReconcileEmpty(s: RunData, clock: Clock)
    requires Inv(s)
    ensures Quiet(s) <==> Reconcile(s, clock) == []
  {
    hide Inv;
    if !s.Terminal() && s.cancelRequested {
      if NothingCancellable(s) {
        NothingToCancel(s, clock, Sorted(s.nodes.Keys));
      } else {
        CancelEligibleLegal(CancellationRequested, s, clock);
        assert Replay(s, []) == s;
      }
    }
  }

  lemma UnwindQuiet(s: RunData, e: Event)
    requires ActiveInv(s) && AdvancePayload(s) == Some(CompensationStarted) && e.payload == CompensationStarted
    ensures Quiet(Step(s, e))
  {
    var t := Step(s, e);
    assert t.runState.RunCompensating? && t.stack == s.stack && !t.cancelRequested;
    assert NextEntry(t).Some?;
  }

  lemma AdvanceQuiets(last: Payload, s: RunData, clock: Clock)
    requires Inv(s)
    requires !s.Terminal() && s.cancelRequested ==> NothingCancellable(s)
    ensures Quiet(Replay(s, Advance(s, clock)))
  {
    if AdvancePayload(s).Some? {
      var e := Emit(s, clock, AdvancePayload(s).value);
      if e.payload.CompensationStarted? { UnwindQuiet(s, e); }
      else { assert Step(s, e).Terminal(); }
      hide Step, Inv, AdvancePayload;
      assert [e][1..] == [];
    }
  }

  lemma ThenAdvanceQuiets(last: Payload, s: RunData, clock: Clock, events: seq<Event>)
    requires Inv(s) && Chain(last, s, events)
    requires var t := Replay(s, events); !t.Terminal() && t.cancelRequested ==> NothingCancellable(t)
    ensures Quiet(Replay(s, ThenAdvance(s, clock, events)))
  {
    hide Inv, Quiet, Chain, Advance, Step, NothingCancellable;
    ChainInv(last, s, events);
    AdvanceQuiets(last, Replay(s, events), clock);
    ReplayConcat(s, events, Advance(Replay(s, events), clock));
  }

  /** Whatever state recovery or a monitor starts from, reconcile ends quiet. */
  lemma ReconcileQuiets(last: Payload, s: RunData, clock: Clock)
    requires Inv(s)
    ensures Quiet(Replay(s, Reconcile(s, clock)))
  {
    hide Inv, ThenAdvance, CancelEligible;
    if !s.Terminal() {
      if s.cancelRequested {
        CancelEligibleLegal(last, s, clock);
        ThenAdvanceQuiets(last, s, clock, CancelEligible(s, clock));
      } else {
        ThenAdvanceQuiets(last, s, clock, []);
      }
    }
  }

  lemma IfChangedReconcileQuiets(last: Payload, s: RunData, clock: Clock, events: seq<Event>)
    requires Inv(s) && Quiet(s) && Chain(last, s, events)
    ensures Quiet(Replay(s, IfChangedReconcile(s, clock, events)))
  {
    hide Inv, Quiet, Legal, Step, Reconcile;
    if events != [] {
      ChainInv(last, s, events);
      ReconcileQuiets(LastOf(last, events), Replay(s, events), clock);
      ReplayConcat(s, events, Reconcile(Replay(s, events), clock));
    }
  }

  // ---- Terminal runs stay terminal ----

  lemma {:induction false} TerminalStays(last: Payload, s: RunData, events: seq<Event>)
    requires Inv(s) && Chain(last, s, events) && s.Terminal()
    ensures Replay(s, events).Terminal()
    decreases |events|
  {
    if events != [] {
      TerminalPhase(last, s, events[0]);
      InvKept(last, s, events[0]);
      hide Legal, Inv, Step;
      TerminalStays(events[0].payload, Step(s, events[0]), events[1..]);
    }
  }

  // ---- Events that leave a quiet run quiet ----

  predicate Mild(p: Payload) {
    p.LeaseGranted? || p.NodeStarted? || p.HeartbeatRecorded? || p.CheckpointReached? || p.CheckpointApproved? ||
    p.CompensationTaskStarted? || (p.TimerScheduled? && !p.purpose.RetryBackoff?)
  }

  // A state in which no transition became due.
  ghost predicate NoMoreDue(s: RunData, t: RunData) {
    && t.runState == s.runState && t.cancelRequested == s.cancelRequested
    && (s.cancelRequested ==> (NothingCancellable(s) ==> NothingCancellable(t)) && (AllNodesTerminal(t) ==> AllNodesTerminal(s)))
    && (s.runState.RunCompensating? && NextEntry(t).None? && t.active.None? ==> NextEntry(s).None? && s.active.None?)
    && (Forward(s) && AllNodesCompleted(t) ==> AllNodesCompleted(s))
    && (Forward(s) && HasUnrecoveredFailure(t) ==> HasUnrecoveredFailure(s))
  }

  lemma NoMoreDueKeepsQuiet(s: RunData, t: RunData)
    requires Quiet(s) && !s.Terminal() && NoMoreDue(s, t)
    ensures Quiet(t)
  {
  }

  // Changing one node without completing, failing or un-failing it.
  lemma NodeChangeNotDue(s: RunData, t: RunData, n: string)
    requires n in s.nodes && n in t.nodes && t == s.(nodes := s.nodes[n := t.nodes[n]], lastSeq := t.lastSeq)
    requires !t.nodes[n].state.Completed? && !t.nodes[n].state.Failed?
    requires s.nodes[n].state.Running? || s.nodes[n].state.Ready? || s.nodes[n].state.AwaitingApproval?
    requires s.cancelRequested ==> t.nodes[n].state == s.nodes[n].state
    ensures NoMoreDue(s, t)
  {
    assert !AllNodesCompleted(t);
    if HasUnrecoveredFailure(t) {
      var m :| m in t.nodes && UnrecoveredFailure(t, m);
      assert m != n && UnrecoveredFailure(s, m);
    }
    if s.cancelRequested {
      assert forall m | m in s.nodes :: s.nodes[m].state == t.nodes[m].state;
    }
  }

  lemma TimerNotDue(s: RunData, t: RunData, timer: Timer)
    requires TimerInv(s) && timer.id == TimerId(s.runId, timer.node, timer.attempt, timer.purpose) && !timer.purpose.RetryBackoff?
    requires t == s.(timers := s.timers[timer.id := timer], lastSeq := t.lastSeq)
    ensures NoMoreDue(s, t)
  {
    if HasUnrecoveredFailure(t) {
      var m :| m in t.nodes && UnrecoveredFailure(t, m);
      RetryTimerKept(s, t, timer, m, s.nodes[m].attempt);
      assert UnrecoveredFailure(s, m);
    }
  }

  lemma RetryTimerKept(s: RunData, t: RunData, timer: Timer, m: string, a: uint32)
    requires TimerInv(s) && timer.id == TimerId(s.runId, timer.node, timer.attempt, timer.purpose)
    requires t.timers == s.timers[timer.id := timer]
    requires timer.purpose.RetryBackoff? ==> timer.node != m
    ensures HasPendingRetryTimer(s, m, a) ==> HasPendingRetryTimer(t, m, a)
  {
    if HasPendingRetryTimer(s, m, a) {
      var id :| id in s.timers && IsPendingTimer(s.timers[id], m, RetryBackoff) && s.timers[id].attempt == a;
      assert TimerOk(s, id, s.timers[id]);
      assert id != timer.id by {
        if id == timer.id { TimerIdInjective(s.runId, timer.node, timer.attempt, timer.purpose, m, a, RetryBackoff); }
      }
      assert id in t.timers && t.timers[id] == s.timers[id];
    }
  }

  lemma BeatNotDue(s: RunData, t: RunData)
    requires t == s.(nodes := t.nodes, active := t.active, lastSeq := t.lastSeq)
    requires t.active.Some? == s.active.Some? && t.nodes.Keys == s.nodes.Keys
    requires forall m | m in s.nodes :: t.nodes[m] == s.nodes[m].(heartbeat := t.nodes[m].heartbeat)
    ensures NoMoreDue(s, t)
  {
    if HasUnrecoveredFailure(t) {
      var m :| m in t.nodes && UnrecoveredFailure(t, m);
      SameTimers(s, t);
      assert UnrecoveredFailure(s, m);
    }
  }

  lemma TouchNotDue(last: Payload, s: RunData, e: Event)
    requires Legal(last, s, e) && Mild(e.payload) && TouchesNode(e.payload) && Quiet(s)
    ensures s.Terminal() || NoMoreDue(s, Step(s, e))
  {
    TouchMoves(last, s, e);
    if !s.Terminal() {
      var n := e.payload.node;
      var b := Step(s, e).nodes[n];
      assert s.nodes[n].state.Ready? || s.nodes[n].state.Running? || s.nodes[n].state.AwaitingApproval?;
      assert !s.cancelRequested;
      assert !b.state.Completed? && !b.state.Failed?;
      hide Legal, Quiet, Mild, NoMoreDue;
      NodeChangeNotDue(s, Step(s, e), n);
    }
  }

  lemma ScheduleNotDue(last: Payload, s: RunData, e: Event)
    requires Legal(last, s, e) && Mild(e.payload) && e.payload.TimerScheduled? && TimerInv(s)
    ensures NoMoreDue(s, Step(s, e))
  {
    var p := e.payload;
    var t := Step(s, e);
    assert t == s.(timers := s.timers[p.timer := Timer(p.timer, p.node, p.attempt, p.purpose, p.fireAt, false)], lastSeq := t.lastSeq);
    assert p.timer == TimerId(s.runId, p.node, p.attempt, p.purpose);
    hide Legal, Step, NoMoreDue;
    TimerNotDue(s, t, Timer(p.timer, p.node, p.attempt, p.purpose, p.fireAt, false));
  }

  lemma TaskStartQuiet(last: Payload, s: RunData, e: Event)
    requires Legal(last, s, e) && e.payload.CompensationTaskStarted? && StackInv(s) && ActiveInv(s)
    ensures Quiet(Step(s, e))
  {
    EntryEffect(last, s, e);
    var t := Step(s, e);
    assert t.active.Some? && t.runState == s.runState && t.cancelRequested == s.cancelRequested;
  }

  lemma MildKeepsQuiet(last: Payload, s: RunData, e: Event)
    requires Legal(last, s, e) && Inv(s) && Quiet(s) && Mild(e.payload) && !s.Terminal()
    ensures Quiet(Step(s, e))
  {
    hide Legal, Step, Quiet, NoMoreDue, StackInv, ActiveInv, TimerInv;
    if e.payload.CompensationTaskStarted? { TaskStartQuiet(last, s, e); }
    else {
      if TouchesNode(e.payload) { TouchNotDue(last, s, e); }
      else if e.payload.HeartbeatRecorded? {
        BeatEffect(s, e);
        BeatNotDue(s, Step(s, e));
      }
      else { ScheduleNotDue(last, s, e); }
      NoMoreDueKeepsQuiet(s, Step(s, e));
    }
  }

  lemma {:induction false} MildChainQuiet(last: Payload, s: RunData, events: seq<Event>)
    requires Inv(s) && Quiet(s) && Chain(last, s, events) && forall i | 0 <= i < |events| :: Mild(events[i].payload)
    ensures Quiet(Replay(s, events))
    decreases |events|
  {
    hide Legal, Inv, Step, Mild;
    if s.Terminal() {
      TerminalStays(last, s, events);
    } else if events != [] {
      hide Quiet;
      MildKeepsQuiet(last, s, events[0]);
      InvKept(last, s, events[0]);
      MildChainQuiet(events[0].payload, Step(s, events[0]), events[1..]);
    }
  }

  // ---- Operation by operation ----

  // One report, then advance: quiet again if the report leaves nothing to cancel.
  lemma ReportQuiets(last: Payload, s: RunData, clock: Clock, e: Event)
    requires Inv(s) && Legal(last, s, e)
    requires !s.Terminal() && Step(s, e).cancelRequested ==> NothingCancellable(Step(s, e))
    ensures Quiet(Replay(s, ThenAdvance(s, clock, [e])))
  {
    if s.Terminal() {
      hide Inv, Legal, Step, ThenAdvance, Quiet;
      ReportLegal(last, s, clock, e);
      TerminalStays(last, s, ThenAdvance(s, clock, [e]));
      TerminalIsQuiet(Replay(s, ThenAdvance(s, clock, [e])));
    } else {
      hide Inv, Legal, Step, ThenAdvance, Quiet;
      Single(last, s, e);
      ThenAdvanceQuiets(last, s, clock, [e]);
    }
  }

  lemma TerminalIsQuiet(s: RunData)
    requires s.Terminal()
    ensures Quiet(s)
  {
  }

  lemma CompensationDoneQuiets(last: Payload, s: RunData, n: string, w: string, a: uint32, clock: Clock)
    requires Inv(s) && Quiet(s) && ActiveIs(s, n, w, a)
    ensures Quiet(Replay(s, ThenAdvance(s, clock, [Emit(s, clock, CompensationTaskCompleted(n, w, a))])))
  {
    var e := Emit(s, clock, CompensationTaskCompleted(n, w, a));
    assert Legal(last, s, e);
    assert Step(s, e).nodes == s.nodes && Step(s, e).cancelRequested == s.cancelRequested;
    hide Inv, ThenAdvance;
    ReportQuiets(last, s, clock, e);
  }

  lemma CheckpointQuiets(last: Payload, s: RunData, n: string, w: string, a: uint32, clock: Clock)
    requires Inv(s) && Quiet(s) && Holds(s, n, w, a) && !s.cancelRequested
    ensures var e := Emit(s, clock, CheckpointReached(n, w, a));
      Quiet(Replay(s, [e] + CheckpointTimer(Step(s, e), clock, n, s.nodes[n].def, a)))
  {
    hide Inv, Quiet, Legal, Step;
    CheckpointLegal(last, s, n, w, a, clock);
    var e := Emit(s, clock, CheckpointReached(n, w, a));
    MildChainQuiet(last, s, [e] + CheckpointTimer(Step(s, e), clock, n, s.nodes[n].def, a));
  }

  lemma CompletionKeepsCancelFlag(s: RunData, e: Event)
    requires e.payload.NodeCompleted? || e.payload.NodeFailed?
    ensures Step(s, e).cancelRequested == s.cancelRequested
  {
  }

  lemma CompleteNodeQuiets(last: Payload, s: RunData, req: CompleteRequest, clock: Clock)
    requires Inv(s) && Holds(s, req.node, req.worker, req.attempt) && !s.cancelRequested
    ensures !SpawnOk(s.nodes, req.spawned) ==>
      Quiet(Replay(s, ThenAdvance(s, clock, [Emit(s, clock, NodeFailed(req.node, req.worker, req.attempt, false, false))])))
    ensures SpawnOk(s.nodes, req.spawned) ==>
      Quiet(Replay(s, ThenAdvance(s, clock, [Emit(s, clock, NodeCompleted(req.node, req.worker, req.attempt, NormalForms(req.spawned)))])))
  {
    hide Inv, SpawnOk, ThenAdvance, Quiet, Step, NothingCancellable;
    if SpawnOk(s.nodes, req.spawned) {
      NormalFormsKeepSpawnOk(s.nodes, req.spawned);
      var e := Emit(s, clock, NodeCompleted(req.node, req.worker, req.attempt, NormalForms(req.spawned)));
      CompletionKeepsCancelFlag(s, e);
      ReportQuiets(last, s, clock, e);
    } else {
      var e := Emit(s, clock, NodeFailed(req.node, req.worker, req.attempt, false, false));
      CompletionKeepsCancelFlag(s, e);
      ReportQuiets(last, s, clock, e);
    }
  }

  lemma CompleteQuiet(last: Payload, s: RunData, req: CompleteRequest, clock: Clock)
    requires Inv(s) && Quiet(s)
    ensures Quiet(Replay(s, CompleteTask(s, req, clock).events))
  {
    hide Inv, Quiet, Step, ThenAdvance, SpawnOk, CheckpointTimer;
    if req.compensation {
      if ActiveCheck(s, req.worker, req.node, req.attempt) == NoError {
        CompensationDoneQuiets(last, s, req.node, req.worker, req.attempt, clock);
      }
    } else if LeaseCheck(s, req.worker, req.node, req.attempt) == NoError && !s.cancelRequested {
      if req.checkpoint { CheckpointQuiets(last, s, req.node, req.worker, req.attempt, clock); }
      else { CompleteNodeQuiets(last, s, req, clock); }
    }
  }

  lemma CancelledStep(last: Payload, s: RunData, n: string, w: string, a: uint32, clock: Clock)
    requires Holds(s, n, w, a) && Quiet(s)
    ensures var e := Emit(s, clock, NodeCancelled(n, w, a)); var t := Step(s, e);
      Legal(last, s, e) && (!s.Terminal() && t.cancelRequested ==> NothingCancellable(t))
  {
    var t := Step(s, Emit(s, clock, NodeCancelled(n, w, a)));
    assert t.cancelRequested == s.cancelRequested;
    assert forall m | m in t.nodes :: m in s.nodes && (m != n ==> t.nodes[m] == s.nodes[m]);
    assert t.nodes[n].state.Cancelled?;
  }

  lemma CancelReportQuiets(last: Payload, s: RunData, n: string, w: string, a: uint32, clock: Clock)
    requires Inv(s) && Quiet(s) && Holds(s, n, w, a)
    ensures Quiet(Replay(s, ThenAdvance(s, clock, [Emit(s, clock, NodeCancelled(n, w, a))])))
  {
    hide Inv, ThenAdvance, Legal, Step, Quiet, NothingCancellable;
    CancelledStep(last, s, n, w, a, clock);
    ReportQuiets(last, s, clock, Emit(s, clock, NodeCancelled(n, w, a)));
  }

  lemma CompensationFailedQuiets(s: RunData, n: string, w: string, a: uint32, clock: Clock)
    ensures var e := Emit(s, clock, CompensationTaskFailed(n, w, a));
      Quiet(Replay(s, [e, Emit(Step(s, e), clock, WorkflowFailed)]))
  {
    var e := Emit(s, clock, CompensationTaskFailed(n, w, a));
    var f := Emit(Step(s, e), clock, WorkflowFailed);
    assert Step(Step(s, e), f).Terminal();
    hide Step;
    assert [e, f][1..] == [f] && [f][1..] == [];
    assert Replay(Step(s, e), [f]) == Step(Step(s, e), f);
    TerminalIsQuiet(Step(Step(s, e), f));
  }

  // A failure whose retry is pending leaves the run as quiet as it was.
  lemma RetriedFailureQuiet(s: RunData, t: RunData, n: string)
    requires Quiet(s) && TimerInv(s) && !s.cancelRequested && n in s.nodes && n in t.nodes && !s.nodes[n].state.Completed?
    requires t == s.(nodes := s.nodes[n := t.nodes[n]], timers := t.timers, lastSeq := t.lastSeq)
    requires t.nodes[n].state.Failed? && HasPendingRetryTimer(t, n, t.nodes[n].attempt)
    requires forall m, a | m != n :: HasPendingRetryTimer(s, m, a) ==> HasPendingRetryTimer(t, m, a)
    ensures Quiet(t)
  {
    if !s.Terminal() {
      assert !AllNodesCompleted(t);
      if HasUnrecoveredFailure(t) {
        var m :| m in t.nodes && UnrecoveredFailure(t, m);
        assert m != n && UnrecoveredFailure(s, m);
      }
      NoMoreDueKeepsQuiet(s, t);
    }
  }

  lemma FailedStep(s: RunData, n: string, w: string, a: uint32, clock: Clock)
    requires Holds(s, n, w, a)
    ensures var e := Emit(s, clock, NodeFailed(n, w, a, true, false));
      Step(s, e) == s.(nodes := s.nodes[n := s.nodes[n].(state := Failed, heartbeat := None)], lastSeq := s.lastSeq + 1)
  {
  }

  lemma TimerStep(s: RunData, clock: Clock, n: string, def: NodeDef, a: uint32, retryNow: Time)
    ensures var timer := RetryTimer(s, clock, n, def, a, retryNow);
      timer != [] ==>
        timer[0].payload.TimerScheduled? && timer[0].payload.timer == TimerId(s.runId, n, a, RetryBackoff) &&
        Replay(s, timer) == s.(
          timers := s.timers[timer[0].payload.timer := Timer(timer[0].payload.timer, n, a, RetryBackoff, timer[0].payload.fireAt, false)],
          lastSeq := s.lastSeq + 1)
  {
    var timer := RetryTimer(s, clock, n, def, a, retryNow);
    if timer != [] { assert timer[1..] == []; }
  }

  lemma FailedThenTimer(s: RunData, n: string, w: string, a: uint32, retryNow: Time, clock: Clock, timer: seq<Event>)
    requires Inv(s) && Quiet(s) && Holds(s, n, w, a) && !s.cancelRequested
    requires var e := Emit(s, clock, NodeFailed(n, w, a, true, false));
      timer == [] || timer == RetryTimer(Step(s, e), clock, n, s.nodes[n].def, a, retryNow)
    requires var e := Emit(s, clock, NodeFailed(n, w, a, true, false)); HasPendingRetryTimer(Replay(Step(s, e), timer), n, a)
    ensures var e := Emit(s, clock, NodeFailed(n, w, a, true, false)); Quiet(Replay(s, [e] + timer))
  {
    hide Step, Quiet, RetryTimer, HasPendingRetryTimer, WellFormed, Readiness, Leased, StackInv, ActiveInv, PhaseInv, TimerInv;
    var e := Emit(s, clock, NodeFailed(n, w, a, true, false));
    var s1 := Step(s, e);
    FailedStep(s, n, w, a, clock);
    assert [e][1..] == [];
    ReplayConcat(s, [e], timer);
    var t := Replay(s1, timer);
    if timer != [] {
      TimerStep(s1, clock, n, s.nodes[n].def, a, retryNow);
      var p := timer[0].payload;
      forall m, b | m != n ensures HasPendingRetryTimer(s, m, b) ==> HasPendingRetryTimer(t, m, b) {
        RetryTimerKept(s, t, Timer(p.timer, n, a, RetryBackoff, p.fireAt, false), m, b);
      }
    } else {
      SameTimers(s, t);
    }
    RetriedFailureQuiet(s, t, n);
  }

  lemma SameTimers(s: RunData, t: RunData)
    requires s.timers == t.timers
    ensures forall m, b :: HasPendingRetryTimer(s, m, b) <==> HasPendingRetryTimer(t, m, b)
  {
  }

  lemma FailNodeQuiets(last: Payload, s: RunData, req: FailRequest, retryNow: Time, clock: Clock)
    requires Inv(s) && Quiet(s) && Holds(s, req.node, req.worker, req.attempt) && !s.cancelRequested && !req.cancelled && !req.compensation
    ensures Quiet(Replay(s, FailTask(s, req, retryNow, clock).events))
  {
    var e := Emit(s, clock, NodeFailed(req.node, req.worker, req.attempt, req.retryable, false));
    var s1 := Step(s, e);
    hide Inv, Quiet, Legal, Step, ThenAdvance, RetryTimer, HasPendingRetryTimer, NothingCancellable;
    var timer := if req.retryable then RetryTimer(s1, clock, req.node, s.nodes[req.node].def, req.attempt, retryNow) else [];
    if req.retryable && HasPendingRetryTimer(Replay(s1, timer), req.node, req.attempt) {
      FailedThenTimer(s, req.node, req.worker, req.attempt, retryNow, clock, timer);
    } else {
      FailNodeLegal(last, s, req.node, req.worker, req.attempt, req.retryable, retryNow, clock);
      assert [e] + [] == [e];
      FailedKeepsCancelFlag(s, e, s1, clock, req.node, s.nodes[req.node].def, req.attempt, retryNow, timer);
      ThenAdvanceQuiets(last, s, clock, [e] + timer);
    }
  }

  lemma FailedKeepsCancelFlag(s: RunData, e: Event, s1: RunData, clock: Clock, n: string, def: NodeDef, a: uint32, retryNow: Time, timer: seq<Event>)
    requires e.payload.NodeFailed? && s1 == Step(s, e)
    requires timer == [] || timer == RetryTimer(s1, clock, n, def, a, retryNow)
    ensures Replay(s, [e] + timer).cancelRequested == s.cancelRequested
  {
    CompletionKeepsCancelFlag(s, e);
    ReplayConcat(s, [e], timer);
    assert [e][1..] == [] && Replay(s, [e]) == s1;
    if timer != [] { assert timer[1..] == [] && Replay(s1, timer) == Step(s1, timer[0]); }
  }

  lemma FailQuiet(last: Payload, s: RunData, req: FailRequest, retryNow: Time, clock: Clock)
    requires Inv(s) && Quiet(s)
    ensures Quiet(Replay(s, FailTask(s, req, retryNow, clock).events))
  {
    hide Inv, Quiet, Step, ThenAdvance, RetryTimer, HasPendingRetryTimer;
    if req.compensation {
      if ActiveCheck(s, req.worker, req.node, req.attempt) == NoError {
        CompensationFailedQuiets(s, req.node, req.worker, req.attempt, clock);
      }
    } else if LeaseCheck(s, req.worker, req.node, req.attempt) == NoError {
      if req.cancelled { CancelReportQuiets(last, s, req.node, req.worker, req.attempt, clock); }
      else if !s.cancelRequested { FailNodeQuiets(last, s, req, retryNow, clock); }
    }
  }

  lemma CancelQuiet(last: Payload, s: RunData, clock: Clock)
    requires Inv(s) && Quiet(s)
    ensures Quiet(Replay(s, CancelRun(s, clock)))
  {
    if !s.Terminal() && !s.cancelRequested {
      var e := Emit(s, clock, CancellationRequested);
      assert Legal(last, s, e);
      var t := Step(s, e);
      assert !t.Terminal() && t.cancelRequested;
      hide Legal, Step, Quiet, Inv, CancelEligible, ThenAdvance;
      InvKept(last, s, e);
      CancelEligibleLegal(e.payload, t, clock);
      ConsChain(last, s, e, CancelEligible(t, clock));
      ThenAdvanceQuiets(last, s, clock, [e] + CancelEligible(t, clock));
    }
  }

  lemma ApproveQuiet(last: Payload, s: RunData, node: string, clock: Clock)
    requires Inv(s) && Quiet(s)
    ensures Quiet(Replay(s, ApproveCheckpoint(s, node, clock).events))
  {
    hide Inv, Quiet, Legal, Step;
    ApproveLegal(last, s, node, clock);
    MildChainQuiet(last, s, ApproveCheckpoint(s, node, clock).events);
  }

  lemma {:induction false} BeatsAreMild(s: RunData, worker: string, now: Time, order: seq<string>)
    ensures forall i | 0 <= i < |BeatNodes(s, worker, now, order)| :: BeatNodes(s, worker, now, order)[i].payload.HeartbeatRecorded?
    decreases |order|
  {
    hide Step;
    if order != [] {
      if order[0] in s.nodes && s.nodes[order[0]].state.Running? && s.nodes[order[0]].worker == worker {
        var e := EmitAt(s, now, HeartbeatRecorded(order[0], worker, s.nodes[order[0]].attempt));
        BeatsAreMild(Step(s, e), worker, now, order[1..]);
      } else {
        BeatsAreMild(s, worker, now, order[1..]);
      }
    }
  }

  lemma HeartbeatQuiet(last: Payload, s: RunData, worker: string, now: Time, order: seq<string>)
    requires Inv(s) && Quiet(s)
    ensures Quiet(Replay(s, Heartbeat(s, worker, now, order)))
  {
    hide Inv, Quiet, Legal, Step, BeatNodes;
    HeartbeatLegal(last, s, worker, now, order);
    BeatsAreMild(s, worker, now, order);
    MildChainQuiet(last, s, Heartbeat(s, worker, now, order));
  }

  lemma ClaimQuiet(last: Payload, s: RunData, reg: Registry, worker: string, clock: Clock)
    requires Inv(s) && Quiet(s)
    ensures Quiet(Replay(s, Claim(s, reg, worker, clock)))
  {
    hide Inv, Quiet, Legal, Step;
    ClaimLegal(last, s, reg, worker, clock);
    MildChainQuiet(last, s, Claim(s, reg, worker, clock));
  }

  /** Every operation leads from one operation boundary to another. */
  lemma OpQuiet(last: Payload, s: RunData, op: Op)
    requires Inv(s) && Quiet(s)
    ensures Quiet(Replay(s, OpEvents(s, op)))
  {
    hide Inv, Quiet, Legal, Step, Chain, CompleteTask, FailTask, CancelRun, ApproveCheckpoint, Heartbeat, Claim, ExpireOverdue, FireAll, IfChangedReconcile;
    match op
    case OpComplete(req, clock) => CompleteQuiet(last, s, req, clock);
    case OpFail(req, retryNow, clock) => FailQuiet(last, s, req, retryNow, clock);
    case OpCancel(clock) => CancelQuiet(last, s, clock);
    case OpApprove(node, clock) => ApproveQuiet(last, s, node, clock);
    case OpHeartbeat(worker, now, order) => HeartbeatQuiet(last, s, worker, now, order);
    case OpClaim(reg, worker, clock) => ClaimQuiet(last, s, reg, worker, clock);
    case OpExpireLeases(now, order, clock) =>
      OverdueLegal(last, s, now, order);
      IfChangedReconcileQuiets(last, s, clock, ExpireOverdue(s, now, order));
    case OpFireTimers(now, order, clock) =>
      FireAllLegal(last, s, now, order, clock);
      IfChangedReconcileQuiets(last, s, clock, FireAll(s, now, order, clock));
  }
}
