/** What recovery completes. A crash between two appends of an operation loses the
    rest of it; recovery appends the run-level transitions that are due, and no more. */
module Recovery {
  import opened Runtime
  import opened State
  import opened Strings
  import opened Workflowdef
  import opened TimerIds
  import opened EngineSpec
  import opened Guards
  import opened Invariant
  import opened Logs
  import opened Operations
  import opened Quiescence
  import opened Runs
  import Steps

  // ---- Equal but for time stamps ----

  predicate SameButStamps(a: seq<Event>, b: seq<Event>) {
    |a| == |b| && forall i | 0 <= i < |a| :: a[i] == b[i].(timestamp := a[i].timestamp)
  }

  function Unstamped(s: RunData): RunData {
    s.(
      finishedAt := None,
      active := if s.active.Some? then Some(s.active.value.(heartbeat := 0)) else None,
      nodes := map n | n in s.nodes :: s.nodes[n].(heartbeat := None))
  }

  // ---- Reconcile resumes itself ----

  lemma CancelStep(s: RunData, clock: Clock, n: string)
    requires n in s.nodes
    ensures Step(s, Emit(s, clock, NodeCancelled(n, "", 0))) ==
      s.(nodes := s.nodes[n := s.nodes[n].(state := Cancelled, worker := "", heartbeat := None)], lastSeq := s.lastSeq + 1)
  {
  }

  // The cancelling loop, cut after k events and started again.
  lemma {:induction false} CancelResumes(s: RunData, clock: Clock, ids: seq<string>, k: nat)
    requires k <= |CancelNodes(s, clock, ids)|
    ensures var events := CancelNodes(s, clock, ids); var t := Replay(s, events[..k]);
      && CancelNodes(t, clock, ids) == events[k..]
      && t == s.(nodes := t.nodes, lastSeq := t.lastSeq) && t.nodes.Keys == s.nodes.Keys
      && forall n | n in s.nodes && !Cancellable(s.nodes[n].state) :: t.nodes[n] == s.nodes[n]
    decreases |ids|
  {
    var events := CancelNodes(s, clock, ids);
    if ids != [] && ids[0] in s.nodes && Cancellable(s.nodes[ids[0]].state) {
      var e := Emit(s, clock, NodeCancelled(ids[0], "", 0));
      CancelStep(s, clock, ids[0]);
      hide Step;
      if k > 0 {
        CancelResumes(Step(s, e), clock, ids[1..], k - 1);
        assert events[..k] == [e] + CancelNodes(Step(s, e), clock, ids[1..])[..k - 1];
        assert events[..k][1..] == CancelNodes(Step(s, e), clock, ids[1..])[..k - 1];
      }
    } else if ids != [] {
      hide Step;
      CancelResumes(s, clock, ids[1..], k);
    }
  }

  lemma EligibleResumes(s: RunData, clock: Clock, k: nat)
    requires k <= |CancelEligible(s, clock)|
    ensures var t := Replay(s, CancelEligible(s, clock)[..k]);
      && CancelEligible(t, clock) == CancelEligible(s, clock)[k..]
      && t == s.(nodes := t.nodes, lastSeq := t.lastSeq)
  {
    hide Replay, CancelNodes;
    CancelResumes(s, clock, Sorted(s.nodes.Keys), k);
  }

  /** Reconcile, cut after any k events and started again, appends exactly the rest. */
  lemma ReconcileResumes(last: Payload, s: RunData, clock: Clock, k: nat)
    requires Inv(s) && k <= |Reconcile(s, clock)|
    ensures Reconcile(Replay(s, Reconcile(s, clock)[..k]), clock) == Reconcile(s, clock)[k..]
  {
    hide Inv, Quiet, Step, CancelEligible, AdvancePayload, Replay;
    var events := Reconcile(s, clock);
    if k == |events| {
      assert events[..k] == events;
      ReconcileQuiets(last, s, clock);
      ReconcileLegal(last, s, clock);
      QuietIffReconcileEmpty(Replay(s, events), clock);
    } else {
      var cancelled := if s.cancelRequested then CancelEligible(s, clock) else [];
      Steps.NoEvents(s);
      assert k <= |cancelled| by { AtMostOne(Replay(s, cancelled), clock); }
      assert events[..k] == cancelled[..k];
      if s.cancelRequested {
        EligibleResumes(s, clock, k);
        var t := Replay(s, cancelled[..k]);
        assert cancelled == cancelled[..k] + cancelled[k..];
        ReplayConcat(s, cancelled[..k], cancelled[k..]);
      }
    }
  }

  lemma AtMostOne(s: RunData, clock: Clock)
    ensures |Advance(s, clock)| <= 1
  {
  }

  // ---- Its clock decides time stamps only ----

  lemma {:induction false} CancelClock(s: RunData, a: Clock, b: Clock, ids: seq<string>)
    ensures SameButStamps(CancelNodes(s, a, ids), CancelNodes(s, b, ids))
    ensures Replay(s, CancelNodes(s, a, ids)) == Replay(s, CancelNodes(s, b, ids))
    decreases |ids|
  {
    if ids != [] {
      if ids[0] in s.nodes && Cancellable(s.nodes[ids[0]].state) {
        CancelStep(s, a, ids[0]);
        CancelStep(s, b, ids[0]);
        hide Step;
        var e, f := Emit(s, a, NodeCancelled(ids[0], "", 0)), Emit(s, b, NodeCancelled(ids[0], "", 0));
        CancelClock(Step(s, e), a, b, ids[1..]);
        var x, y := CancelNodes(Step(s, e), a, ids[1..]), CancelNodes(Step(s, f), b, ids[1..]);
        assert ([e] + x)[1..] == x && ([f] + y)[1..] == y;
      } else {
        hide Step;
        CancelClock(s, a, b, ids[1..]);
      }
    }
  }

  lemma AdvanceClock(s: RunData, a: Clock, b: Clock)
    ensures SameButStamps(Advance(s, a), Advance(s, b))
    ensures var t, u := Replay(s, Advance(s, a)), Replay(s, Advance(s, b)); t == u.(finishedAt := t.finishedAt)
  {
    if AdvancePayload(s).Some? {
      var e, f := Emit(s, a, AdvancePayload(s).value), Emit(s, b, AdvancePayload(s).value);
      assert Step(s, e) == Step(s, f).(finishedAt := Step(s, e).finishedAt);
      hide Step, AdvancePayload;
      assert [e][1..] == [] && [f][1..] == [];
    }
  }

  lemma ReconcileClock(s: RunData, a: Clock, b: Clock)
    ensures SameButStamps(Reconcile(s, a), Reconcile(s, b))
    ensures var t, u := Replay(s, Reconcile(s, a)), Replay(s, Reconcile(s, b)); t == u.(finishedAt := t.finishedAt)
  {
    hide Replay, CancelNodes, Advance, SameButStamps, Step;
    Stampless(s);
    if !s.Terminal() {
      var x := if s.cancelRequested then CancelEligible(s, a) else [];
      var y := if s.cancelRequested then CancelEligible(s, b) else [];
      CancelClock(s, a, b, Sorted(s.nodes.Keys));
      var t := Replay(s, x);
      AdvanceClock(t, a, b);
      ReplayConcat(s, x, Advance(t, a));
      ReplayConcat(s, y, Advance(t, b));
      StampsConcat(x, y, Advance(t, a), Advance(t, b));
    }
  }

  lemma Stampless(s: RunData)
    ensures SameButStamps([], []) && Replay(s, []) == s
  {
  }

  lemma StampsConcat(x: seq<Event>, y: seq<Event>, v: seq<Event>, w: seq<Event>)
    requires SameButStamps(x, y) && SameButStamps(v, w)
    ensures SameButStamps(x + v, y + w)
  {
  }

  // ---- Transitions recovery makes, and what it cannot hide ----

  // Run-level transitions, and the cancellation of nodes nobody holds.
  predicate RunLevel(p: Payload) {
    || (p.NodeCancelled? && p.worker == "")
    || p.CancellationCompleted? || p.CompensationStarted? || p.CompensationCompleted?
    || p.WorkflowCompleted? || p.WorkflowFailed?
  }

  // The failure of the run that follows a failed compensation task belongs to the report.
  predicate CatchesUp(events: seq<Event>, i: nat)
    requires i < |events|
  {
    RunLevel(events[i].payload) && !(i > 0 && events[i - 1].payload.CompensationTaskFailed?)
  }

  /** All that is missing after the first k events are transitions recovery makes. */
  predicate OnlyCatchUpLost(events: seq<Event>, k: nat) {
    forall i | k <= i < |events| :: CatchesUp(events, i)
  }

  lemma {:induction false} CancelsAreRunLevel(s: RunData, clock: Clock, ids: seq<string>)
    ensures forall i | 0 <= i < |CancelNodes(s, clock, ids)| :: RunLevel(CancelNodes(s, clock, ids)[i].payload)
    decreases |ids|
  {
    hide Step;
    if ids != [] {
      if ids[0] in s.nodes && Cancellable(s.nodes[ids[0]].state) {
        CancelsAreRunLevel(Step(s, Emit(s, clock, NodeCancelled(ids[0], "", 0))), clock, ids[1..]);
      } else {
        CancelsAreRunLevel(s, clock, ids[1..]);
      }
    }
  }

  lemma ReconcileIsRunLevel(s: RunData, clock: Clock)
    ensures forall i | 0 <= i < |Reconcile(s, clock)| :: RunLevel(Reconcile(s, clock)[i].payload)
  {
    hide Step, CancelNodes, Replay;
    CancelsAreRunLevel(s, clock, Sorted(s.nodes.Keys));
  }

  // A run-level transition leaves timers, leases, failures and the active task alone.
  ghost predicate Alike(s: RunData, t: RunData) {
    && t.timers == s.timers && t.active.Some? == s.active.Some? && t.nodes.Keys == s.nodes.Keys
    && forall n | n in s.nodes ::
         t.nodes[n].state.Running? == s.nodes[n].state.Running? && t.nodes[n].state.Failed? == s.nodes[n].state.Failed?
  }

  lemma AdvanceAlike(s: RunData, clock: Clock)
    ensures Alike(s, Replay(s, Advance(s, clock)))
  {
    if AdvancePayload(s).Some? {
      var e := Emit(s, clock, AdvancePayload(s).value);
      assert e.payload.CompensationCompleted? ==> s.active.None?;
      hide AdvancePayload, NextEntry, HasUnrecoveredFailure, HasCompensationWork, AllNodesCompleted, AllNodesTerminal;
      assert Step(s, e).nodes == s.nodes && Step(s, e).timers == s.timers && Step(s, e).active == s.active;
      hide Step;
      assert [e][1..] == [];
    }
  }

  lemma AlikeThen(s: RunData, t: RunData, u: RunData)
    requires Alike(s, t) && Alike(t, u)
    ensures Alike(s, u)
  {
  }

  lemma CancelledAlike(last: Payload, s: RunData, clock: Clock)
    requires Inv(s) && !s.Terminal() && s.cancelRequested
    ensures Alike(s, Replay(s, CancelEligible(s, clock)))
  {
    hide Inv, Legal, Step, Replay, Chain, CancelEligible;
    CancelEligibleLegal(last, s, clock);
  }

  lemma ReconcileAlike(last: Payload, s: RunData, clock: Clock)
    requires Inv(s)
    ensures Alike(s, Replay(s, Reconcile(s, clock)))
    ensures Replay(s, Reconcile(s, clock)).lastSeq == s.lastSeq + |Reconcile(s, clock)|
  {
    hide Inv, Legal, Step, Replay, CancelEligible, Advance;
    ReconcileLegal(last, s, clock);
    ChainInv(last, s, Reconcile(s, clock));
    Steps.NoEvents(s);
    SelfAlike(s);
    hide Alike;
    if !s.Terminal() {
      var x := if s.cancelRequested then CancelEligible(s, clock) else [];
      if s.cancelRequested { CancelledAlike(last, s, clock); }
      var t := Replay(s, x);
      AdvanceAlike(t, clock);
      ReplayConcat(s, x, Advance(t, clock));
      AlikeThen(s, t, Replay(t, Advance(t, clock)));
    }
  }

  lemma SelfAlike(s: RunData)
    ensures Alike(s, s)
  {
  }

  // Reconciling `c` cannot lead where reconciling `w` leads.
  ghost predicate Apart(c: RunData, w: RunData) {
    || (Quiet(c) && c.lastSeq < w.lastSeq)
    || c.timers != w.timers
    || c.active.Some? != w.active.Some?
    || exists n :: NodeApart(c.nodes, w.nodes, n)
  }

  predicate NodeApart(a: Nodes, b: Nodes, n: string) {
    && n in a && n in b
    && (a[n].state.Running? != b[n].state.Running? || a[n].state.Failed? != b[n].state.Failed?)
  }

  lemma ApartStays(last: Payload, c: RunData, w: RunData, a: Clock, b: Clock)
    requires Inv(c) && Inv(w) && Apart(c, w)
    ensures Unstamped(Replay(c, Reconcile(c, a))) != Unstamped(Replay(w, Reconcile(w, b)))
  {
    hide Inv, Quiet, Replay, Reconcile;
    ReconcileAlike(last, c, a);
    ReconcileAlike(last, w, b);
    var t, u := Replay(c, Reconcile(c, a)), Replay(w, Reconcile(w, b));
    QuietIffReconcileEmpty(c, a);
    StampsAside(t, u);
    hide Unstamped;
  }

  lemma StampsAside(t: RunData, u: RunData)
    ensures Unstamped(t) == Unstamped(u) ==>
      && t.timers == u.timers && t.active.Some? == u.active.Some? && t.lastSeq == u.lastSeq
      && forall n | n in t.nodes :: n in u.nodes && t.nodes[n].state == u.nodes[n].state
  {
    forall n | Unstamped(t) == Unstamped(u) && n in t.nodes ensures n in u.nodes && t.nodes[n].state == u.nodes[n].state {
      assert Unstamped(t).nodes[n].state == t.nodes[n].state;
      assert n in Unstamped(u).nodes;
      assert Unstamped(u).nodes[n].state == u.nodes[n].state;
    }
  }

  // ---- What an operation appends on its own account ----

  function ClockOf(op: Op): Clock {
    if op.OpHeartbeat? then _ => op.now else op.clock
  }

  /** The operation's own events: the rest is the reconcile they make due, the last
      of them is no catch-up, and stopping before it cannot be made good. */
  ghost predicate Own(s: RunData, own: seq<Event>, events: seq<Event>, clock: Clock) {
    && events == own + Reconcile(Replay(s, own), clock)
    && (own != [] ==> !CatchesUp(own, |own| - 1) && !own[|own| - 1].payload.CompensationTaskFailed?)
    && forall k | 0 < k < |own| :: Apart(Replay(s, own[..k]), Replay(s, own))
  }

  // How many events that is, for all operations but the monitors' sweeps.
  function OwnCount(op: Op, events: seq<Event>): nat {
    if events == [] then 0
    else
      match op
      case OpComplete(req, _) => if req.checkpoint && !req.compensation then |events| else 1
      case OpFail(req, _, _) =>
        if req.compensation then |events|
        else if |events| > 1 && events[1].payload.TimerScheduled? then 2 else 1
      case OpCancel(_) => 1
      case _ => |events|
  }

  // The operation's own events come first, run-level ones follow.
  lemma OwnFits(s: RunData, own: seq<Event>, events: seq<Event>, clock: Clock)
    requires Own(s, own, events, clock)
    ensures own <= events && forall i | |own| <= i < |events| :: RunLevel(events[i].payload)
  {
    hide Reconcile, Apart, RunLevel;
    var t := Replay(s, own);
    ReconcileIsRunLevel(t, clock);
    assert forall i | |own| <= i < |events| :: events[i] == Reconcile(t, clock)[i - |own|];
  }

  lemma NothingOwn(s: RunData, clock: Clock)
    requires Inv(s) && Quiet(s)
    ensures Own(s, [], [], clock)
  {
    hide Inv, Quiet;
    QuietIffReconcileEmpty(s, clock);
    assert Replay(s, []) == s;
  }

  // One event, then a reconcile.
  lemma OneOwn(s: RunData, e: Event, clock: Clock)
    requires !RunLevel(e.payload) && !e.payload.CompensationTaskFailed?
    ensures Own(s, [e], [e] + Reconcile(Step(s, e), clock), clock)
  {
    hide Step, Reconcile, Apart;
    assert [e][1..] == [] && Replay(s, [e]) == Step(s, e);
  }

  // Where nothing is left to cancel, advancing is reconciling.
  lemma AdvanceReconciles(s: RunData, clock: Clock)
    requires !s.Terminal() && s.cancelRequested ==> NothingCancellable(s)
    ensures Advance(s, clock) == Reconcile(s, clock)
  {
    hide Step;
    assert Replay(s, []) == s;
    if !s.Terminal() && s.cancelRequested { NothingToCancel(s, clock, Sorted(s.nodes.Keys)); }
  }

  lemma ReportOwn(s: RunData, e: Event, clock: Clock)
    requires !RunLevel(e.payload) && !e.payload.CompensationTaskFailed?
    requires var t := Step(s, e); !t.Terminal() && t.cancelRequested ==> NothingCancellable(t)
    ensures Own(s, [e], ThenAdvance(s, clock, [e]), clock)
  {
    hide Step, Reconcile, Own, NothingCancellable, ThenAdvance;
    ReplayReport(s, clock, e);
    AdvanceReconciles(Step(s, e), clock);
    OneOwn(s, e, clock);
  }

  // Mild events leave every cut quiet.
  lemma MildOwn(last: Payload, s: RunData, events: seq<Event>, clock: Clock)
    requires Inv(s) && Quiet(s) && Chain(last, s, events) && forall i | 0 <= i < |events| :: Mild(events[i].payload)
    ensures Own(s, events, events, clock)
  {
    hide Inv, Quiet, Step, Legal, Chain, Reconcile;
    ChainInv(last, s, events);
    MildChainQuiet(last, s, events);
    QuietIffReconcileEmpty(Replay(s, events), clock);
    assert events + [] == events;
    forall k | 0 < k < |events| ensures Apart(Replay(s, events[..k]), Replay(s, events)) {
      ChainPrefix(last, s, events, k);
      ChainInv(last, s, events[..k]);
      MildChainQuiet(last, s, events[..k]);
    }
    if events != [] { MildIsOwn(events[|events| - 1].payload); }
  }

  lemma MildIsOwn(p: Payload)
    requires Mild(p)
    ensures !RunLevel(p) && !p.CompensationTaskFailed?
  {
  }

  lemma CompleteOwn(last: Payload, s: RunData, req: CompleteRequest, clock: Clock) returns (own: seq<Event>)
    requires Inv(s) && Quiet(s)
    ensures Own(s, own, CompleteTask(s, req, clock).events, clock)
    ensures |own| == OwnCount(OpComplete(req, clock), CompleteTask(s, req, clock).events)
  {
    hide Inv, Quiet, Step, ThenAdvance, SpawnOk, CheckpointTimer, Own, Legal, Chain;
    own := [];
    if req.compensation {
      if ActiveCheck(s, req.worker, req.node, req.attempt) == NoError {
        var e := Emit(s, clock, CompensationTaskCompleted(req.node, req.worker, req.attempt));
        TaskDoneStep(s, e);
        ReportOwn(s, e, clock);
        OwnFits(s, [e], CompleteTask(s, req, clock).events, clock);
        return [e];
      }
    } else if LeaseCheck(s, req.worker, req.node, req.attempt) == NoError && !s.cancelRequested {
      if req.checkpoint {
        CheckpointLegal(last, s, req.node, req.worker, req.attempt, clock);
        own := CompleteTask(s, req, clock).events;
        CheckpointIsMild(s, req, clock);
        MildOwn(last, s, own, clock);
        return;
      }
      var p := if SpawnOk(s.nodes, req.spawned) then NodeCompleted(req.node, req.worker, req.attempt, NormalForms(req.spawned))
               else NodeFailed(req.node, req.worker, req.attempt, false, false);
      var e := Emit(s, clock, p);
      CompletionKeepsCancelFlag(s, e);
      ReportOwn(s, e, clock);
      OwnFits(s, [e], CompleteTask(s, req, clock).events, clock);
      return [e];
    }
    NothingOwn(s, clock);
  }

  lemma TaskDoneStep(s: RunData, e: Event)
    requires Quiet(s) && e.payload.CompensationTaskCompleted?
    ensures var t := Step(s, e); !t.Terminal() && t.cancelRequested ==> NothingCancellable(t)
  {
    assert Step(s, e).nodes == s.nodes && Step(s, e).cancelRequested == s.cancelRequested && Step(s, e).runState == s.runState;
  }

  lemma CheckpointIsMild(s: RunData, req: CompleteRequest, clock: Clock)
    requires req.node in s.nodes
    ensures var e := Emit(s, clock, CheckpointReached(req.node, req.worker, req.attempt));
      var events := [e] + CheckpointTimer(Step(s, e), clock, req.node, s.nodes[req.node].def, req.attempt);
      forall i | 0 <= i < |events| :: Mild(events[i].payload)
  {
    hide Step;
  }

  // ---- Failures ----

  lemma FailCompensationOwn(s: RunData, req: FailRequest, clock: Clock)
    requires Inv(s) && Quiet(s) && ActiveIs(s, req.node, req.worker, req.attempt)
    ensures var events := FailCompensation(s, req, clock).events; |events| == 2 && Own(s, events, events, clock)
  {
    var e := Emit(s, clock, CompensationTaskFailed(req.node, req.worker, req.attempt));
    var f := Emit(Step(s, e), clock, WorkflowFailed);
    TaskFailedQuiet(s, e);
    EndsRun(Step(s, e), f, clock);
    hide Step, Inv, Quiet, Own, Reconcile, Replay;
    LastFails(s, e, f, clock);
  }

  lemma EndsRun(s: RunData, e: Event, clock: Clock)
    requires e.payload.WorkflowFailed? && e.seqNo == s.lastSeq + 1
    ensures Reconcile(Step(s, e), clock) == [] && s.lastSeq < Step(s, e).lastSeq
  {
  }

  lemma LastFails(s: RunData, e: Event, f: Event, clock: Clock)
    requires e.payload.CompensationTaskFailed? && f.payload.WorkflowFailed?
    requires var t := Step(s, e); Quiet(t) && t.lastSeq < Step(t, f).lastSeq && Reconcile(Step(t, f), clock) == []
    ensures Own(s, [e, f], [e, f], clock)
  {
    hide Step, Quiet, Reconcile;
    var t := Step(s, e);
    TwoSteps(s, e, f);
    assert [e, f] + [] == [e, f];
    forall k | 0 < k < 2 ensures Apart(Replay(s, [e, f][..k]), Replay(s, [e, f])) {
      assert [e, f][..k] == [e];
      OneStep(s, e);
      QuietAndShorter(t, Step(t, f));
    }
  }

  lemma TaskFailedQuiet(s: RunData, e: Event)
    requires StackInv(s) && ActiveInv(s) && Quiet(s) && s.active.Some? && e.payload.CompensationTaskFailed?
    ensures Quiet(Step(s, e))
  {
    var t := Step(s, e);
    assert t == s.(active := None, lastSeq := e.seqNo);
    if s.runState.RunCompensating? && !s.cancelRequested { assert NextEntry(t).Some?; }
  }

  lemma CancelReportOwn(last: Payload, s: RunData, n: string, w: string, a: uint32, clock: Clock)
    requires Inv(s) && Quiet(s) && Holds(s, n, w, a)
    ensures var e := Emit(s, clock, NodeCancelled(n, w, a)); Own(s, [e], ThenAdvance(s, clock, [e]), clock)
  {
    CancelledStep(last, s, n, w, a, clock);
    assert w != "";
    hide Inv, Quiet, Step, Legal, ThenAdvance, Own;
    ReportOwn(s, Emit(s, clock, NodeCancelled(n, w, a)), clock);
  }

  lemma NothingPending(c: RunData, w: RunData, n: string, a: uint32)
    requires !HasPendingRetryTimer(c, n, a) && HasPendingRetryTimer(w, n, a)
    ensures Apart(c, w)
  {
  }

  // A failure and its backoff: cut between them, either the backoff is missing or
  // another one is pending already.
  lemma RetryApart(s: RunData, req: FailRequest, retryNow: Time, clock: Clock, timer: seq<Event>)
    requires Inv(s) && Quiet(s) && Holds(s, req.node, req.worker, req.attempt) && !s.cancelRequested
    requires var e := Emit(s, clock, NodeFailed(req.node, req.worker, req.attempt, true, false));
      timer != [] && timer == RetryTimer(Step(s, e), clock, req.node, s.nodes[req.node].def, req.attempt, retryNow)
    ensures var e := Emit(s, clock, NodeFailed(req.node, req.worker, req.attempt, true, false)); var u := Replay(Step(s, e), timer);
      Apart(Step(s, e), u) && HasPendingRetryTimer(u, req.node, req.attempt)
  {
    var n, a := req.node, req.attempt;
    var e := Emit(s, clock, NodeFailed(n, req.worker, a, true, false));
    var t := Step(s, e);
    hide Inv, Quiet, Step, HasPendingRetryTimer, Apart;
    TimerStep(t, clock, n, s.nodes[n].def, a, retryNow);
    var u := Replay(t, timer);
    BackoffPends(t, u, timer[0].payload, n, a);
    if HasPendingRetryTimer(t, n, a) {
      assert Replay(t, []) == t && [e] + [] == [e] && [e][1..] == [];
      FailedThenTimer(s, n, req.worker, a, retryNow, clock, []);
      QuietAndShorter(t, u);
    } else {
      NothingPending(t, u, n, a);
    }
  }

  lemma QuietAndShorter(c: RunData, w: RunData)
    requires Quiet(c) && c.lastSeq < w.lastSeq
    ensures Apart(c, w)
  {
  }

  lemma BackoffPends(t: RunData, u: RunData, p: Payload, n: string, a: uint32)
    requires p.TimerScheduled?
    requires u == t.(timers := t.timers[p.timer := Timer(p.timer, n, a, RetryBackoff, p.fireAt, false)], lastSeq := t.lastSeq + 1)
    ensures HasPendingRetryTimer(u, n, a)
  {
    assert p.timer in u.timers && IsPendingTimer(u.timers[p.timer], n, RetryBackoff);
  }

  lemma FailNodeOwn(last: Payload, s: RunData, req: FailRequest, retryNow: Time, clock: Clock) returns (own: seq<Event>)
    requires Inv(s) && Quiet(s) && Holds(s, req.node, req.worker, req.attempt) && !s.cancelRequested && !req.cancelled && !req.compensation
    ensures Own(s, own, FailTask(s, req, retryNow, clock).events, clock)
    ensures |own| == OwnCount(OpFail(req, retryNow, clock), FailTask(s, req, retryNow, clock).events)
  {
    hide Inv, Quiet, Step, RetryTimer, Own, Advance, Reconcile, HasPendingRetryTimer, Apart, FailTask;
    own := Steps.FailureEvents(s, req, retryNow, clock);
    var t := Replay(s, own);
    Steps.FailTaskShape(s, req, retryNow, clock);
    var events := FailTask(s, req, retryNow, clock).events;
    FailQuiet(last, s, req, retryNow, clock);
    FailNodeLegal(last, s, req.node, req.worker, req.attempt, req.retryable, retryNow, clock);
    if events == own {
      ChainInv(last, s, own);
      QuietIffReconcileEmpty(t, clock);
      assert own + [] == own;
    } else {
      FailedFlag(s, req, retryNow, clock);
      AdvanceReconciles(t, clock);
    }
    FailureOwn(s, req, retryNow, clock, own, events);
    OwnFits(s, own, events, clock);
    FailureShape(s, req, retryNow, clock);
  }

  lemma FailureShape(s: RunData, req: FailRequest, retryNow: Time, clock: Clock)
    requires req.node in s.nodes
    ensures var own := Steps.FailureEvents(s, req, retryNow, clock);
      1 <= |own| <= 2 && (|own| == 2 ==> own[1].payload.TimerScheduled?)
  {
    hide Step;
  }

  lemma FailedFlag(s: RunData, req: FailRequest, retryNow: Time, clock: Clock)
    requires req.node in s.nodes && !s.cancelRequested
    ensures !Replay(s, Steps.FailureEvents(s, req, retryNow, clock)).cancelRequested
  {
    hide Step, RetryTimer;
    var e := Emit(s, clock, NodeFailed(req.node, req.worker, req.attempt, req.retryable, false));
    var timer := if req.retryable then RetryTimer(Step(s, e), clock, req.node, s.nodes[req.node].def, req.attempt, retryNow) else [];
    FailedKeepsCancelFlag(s, e, Step(s, e), clock, req.node, s.nodes[req.node].def, req.attempt, retryNow, timer);
  }

  lemma FailureOwn(s: RunData, req: FailRequest, retryNow: Time, clock: Clock, own: seq<Event>, events: seq<Event>)
    requires Inv(s) && Quiet(s) && Holds(s, req.node, req.worker, req.attempt) && !s.cancelRequested
    requires own == Steps.FailureEvents(s, req, retryNow, clock) && events == own + Reconcile(Replay(s, own), clock)
    ensures Own(s, own, events, clock)
  {
    hide Inv, Quiet, Step, Apart, Reconcile;
    var e := Emit(s, clock, NodeFailed(req.node, req.worker, req.attempt, req.retryable, false));
    var t := Step(s, e);
    var timer := if req.retryable then RetryTimer(t, clock, req.node, s.nodes[req.node].def, req.attempt, retryNow) else [];
    assert own == [e] + timer && |timer| <= 1;
    assert timer != [] ==> timer[0].payload.TimerScheduled?;
    if timer != [] { RetryApart(s, req, retryNow, clock, timer); }
    hide RetryTimer;
    assert own[1..] == timer && Replay(s, own) == Replay(t, timer);
    forall k | 0 < k < |own| ensures Apart(Replay(s, own[..k]), Replay(s, own)) {
      assert own[..k] == [e] && [e][1..] == [] && Replay(s, [e]) == t;
    }
  }

  lemma FailOwn(last: Payload, s: RunData, req: FailRequest, retryNow: Time, clock: Clock) returns (own: seq<Event>)
    requires Inv(s) && Quiet(s)
    ensures Own(s, own, FailTask(s, req, retryNow, clock).events, clock)
    ensures |own| == OwnCount(OpFail(req, retryNow, clock), FailTask(s, req, retryNow, clock).events)
  {
    hide Inv, Quiet, Step, ThenAdvance, RetryTimer, HasPendingRetryTimer, Own, FailCompensation, FailTask;
    Steps.FailTaskShape(s, req, retryNow, clock);
    own := [];
    if req.compensation {
      FailCompensationRefused(s, req, clock);
      if ActiveIs(s, req.node, req.worker, req.attempt) {
        FailCompensationOwn(s, req, clock);
        return FailCompensation(s, req, clock).events;
      }
    } else if LeaseCheck(s, req.worker, req.node, req.attempt) == NoError {
      if req.cancelled {
        CancelReportOwn(last, s, req.node, req.worker, req.attempt, clock);
        own := [Emit(s, clock, NodeCancelled(req.node, req.worker, req.attempt))];
        OwnFits(s, own, FailTask(s, req, retryNow, clock).events, clock);
        return;
      }
      if !s.cancelRequested {
        own := FailNodeOwn(last, s, req, retryNow, clock);
        return;
      }
    }
    NothingOwn(s, clock);
  }

  lemma FailCompensationRefused(s: RunData, req: FailRequest, clock: Clock)
    ensures !ActiveIs(s, req.node, req.worker, req.attempt) ==> FailCompensation(s, req, clock).events == []
  {
  }

  // ---- Cancellation requests ----

  lemma CancelOwn(s: RunData, clock: Clock) returns (own: seq<Event>)
    requires Inv(s) && Quiet(s)
    ensures Own(s, own, CancelRun(s, clock), clock)
    ensures |own| == OwnCount(OpCancel(clock), CancelRun(s, clock))
  {
    hide Step, Inv, Quiet, Own;
    if s.Terminal() || s.cancelRequested {
      own := [];
      NothingOwn(s, clock);
    } else {
      var e := Emit(s, clock, CancellationRequested);
      own := [e];
      var t := Step(s, e);
      RequestStep(s, e);
      hide CancelEligible, Advance;
      var cancelled := CancelEligible(t, clock);
      assert ([e] + cancelled)[1..] == cancelled && Replay(s, [e] + cancelled) == Replay(t, cancelled);
      var u := Replay(t, cancelled);
      assert [e] + cancelled + Advance(u, clock) == [e] + (cancelled + Advance(u, clock));
      OneOwn(s, e, clock);
    }
  }

  lemma RequestStep(s: RunData, e: Event)
    requires e.payload.CancellationRequested?
    ensures Step(s, e) == s.(cancelRequested := true, lastSeq := e.seqNo)
  {
  }

  // ---- Sweeps ----

  // What the monitors append.
  predicate Sweeping(p: Payload) {
    p.LeaseExpired? || p.CompensationTaskExpired? || p.TimerFired? || p.NodeFailed? || RunLevel(p)
  }

  ghost predicate AllSweeping(events: seq<Event>) {
    forall i | 0 <= i < |events| :: Sweeping(events[i].payload)
  }

  // Sweeps schedule nothing, start nothing and hand nothing out.
  lemma {:induction false} Backwards(last: Payload, s: RunData, events: seq<Event>)
    requires Inv(s) && Chain(last, s, events)
    requires AllSweeping(events)
    ensures var t := Replay(s, events);
      && (forall id | id in t.timers && !t.timers[id].fired :: id in s.timers && !s.timers[id].fired)
      && (forall n | n in t.nodes && t.nodes[n].state.Running? :: n in s.nodes && s.nodes[n].state.Running?)
      && (t.active.Some? ==> s.active.Some?)
    decreases |events|
  {
    hide Legal, Inv, Step;
    if events != [] {
      BackwardStep(last, s, events[0]);
      InvKept(last, s, events[0]);
      Backwards(events[0].payload, Step(s, events[0]), events[1..]);
    }
  }

  lemma BackwardStep(last: Payload, s: RunData, e: Event)
    requires Legal(last, s, e) && Inv(s) && Sweeping(e.payload)
    ensures var t := Step(s, e);
      && (forall id | id in t.timers && !t.timers[id].fired :: id in s.timers && !s.timers[id].fired)
      && (forall n | n in t.nodes && t.nodes[n].state.Running? :: n in s.nodes && s.nodes[n].state.Running?)
      && (t.active.Some? ==> s.active.Some?)
  {
    hide Legal, Step, WellFormed, Readiness, Leased, PhaseInv, NodesMove, StackInv, ActiveInv, TimerInv;
    TimerEffect(last, s, e);
    if TouchesNode(e.payload) { TouchNotStarted(last, s, e); }
    else if e.payload.TimerFired? { FireEffect(s, e); FiringActive(s, e); }
    else { NodesUntouched(last, s, e); RunLevelActive(s, e); }
  }

  lemma TouchNotStarted(last: Payload, s: RunData, e: Event)
    requires Legal(last, s, e) && Sweeping(e.payload) && TouchesNode(e.payload)
    ensures var t := Step(s, e);
      (forall n | n in t.nodes && t.nodes[n].state.Running? :: n in s.nodes && s.nodes[n].state.Running?) && t.active == s.active
  {
    TouchMoves(last, s, e);
  }

  lemma FiringActive(s: RunData, e: Event)
    requires e.payload.TimerFired?
    ensures Step(s, e).active == s.active
  {
  }

  lemma RunLevelActive(s: RunData, e: Event)
    requires Sweeping(e.payload) && !TouchesNode(e.payload) && !e.payload.TimerFired?
    ensures Step(s, e).active.Some? ==> s.active.Some?
  {
  }

  // Cut before the last event of a sweep, and the reconcile after it.
  lemma SweepApart(last: Payload, s: RunData, own: seq<Event>, k: nat)
    requires Inv(s) && Chain(last, s, own) && AllSweeping(own) && EndsSweep(own) && k < |own|
    ensures Apart(Replay(s, own[..k]), Replay(s, own))
  {
    hide Inv, Legal, Step, Apart, Replay, Sweeping;
    var m := |own| - 1;
    if own[m].payload.NodeFailed? && k < m {
      FiringApart(last, s, own, k, m - 1);
    } else {
      SplitAt(last, s, own, k, m);
      var c, u, w := Replay(s, own[..k]), Replay(s, own[..m]), Replay(s, own);
      Backwards(LastOf(last, own[..k]), c, own[k..m]);
      assert own[..m + 1] == own;
      LastApart(LastOf(last, own[..m]), c, u, own[m]);
    }
  }

  /** A sweep ends with an expiry, a firing, or the failure that follows a firing. */
  ghost predicate EndsSweep(own: seq<Event>) {
    own != [] &&
    var p := own[|own| - 1].payload;
    || p.LeaseExpired? || p.CompensationTaskExpired? || p.TimerFired?
    || (p.NodeFailed? && p.timedOut && |own| > 1 && own[|own| - 2].payload.TimerFired?)
  }

  lemma CutChain(last: Payload, s: RunData, own: seq<Event>, k: nat, m: nat)
    requires Inv(s) && Chain(last, s, own) && k <= m <= |own|
    ensures var c, u := Replay(s, own[..k]), Replay(s, own[..m]);
      && Inv(c) && Inv(u) && Chain(LastOf(last, own[..k]), c, own[k..m]) && u == Replay(c, own[k..m])
  {
    hide Inv, Legal, Step, Replay, Chain;
    ChainPrefix(last, s, own, m);
    ChainInv(last, s, own[..m]);
    assert own[..m] == own[..k] + own[k..m];
    ChainConcat(last, s, own[..k], own[k..m]);
    ChainInv(last, s, own[..k]);
    ReplayConcat(s, own[..k], own[k..m]);
  }

  lemma SplitAt(last: Payload, s: RunData, own: seq<Event>, k: nat, m: nat)
    requires Inv(s) && Chain(last, s, own) && AllSweeping(own) && k <= m < |own|
    ensures var c, u := Replay(s, own[..k]), Replay(s, own[..m]);
      && Inv(c) && Inv(u) && Chain(LastOf(last, own[..k]), c, own[k..m]) && AllSweeping(own[k..m])
      && u == Replay(c, own[k..m]) && Legal(LastOf(last, own[..m]), u, own[m]) && Replay(s, own[..m + 1]) == Step(u, own[m])
  {
    hide Inv, Legal, Step, Replay, Chain, Sweeping, LastOf;
    CutChain(last, s, own, k, m);
    CutChain(last, s, own, m, |own|);
    assert own[m..|own|] == [own[m]] + own[m + 1..];
    Steps.ChainHead(LastOf(last, own[..m]), Replay(s, own[..m]), own[m], own[m + 1..]);
    assert own[..m + 1] == own[..m] + [own[m]];
    Steps.ReplaySnoc(s, own[..m], own[m]);
  }

  lemma LastApart(last: Payload, c: RunData, u: RunData, e: Event)
    requires Legal(last, u, e) && Inv(u)
    requires e.payload.LeaseExpired? || e.payload.CompensationTaskExpired? || e.payload.TimerFired? || (c == u && e.payload.NodeFailed? && e.payload.timedOut)
    requires forall id | id in u.timers && !u.timers[id].fired :: id in c.timers && !c.timers[id].fired
    requires forall n | n in u.nodes && u.nodes[n].state.Running? :: n in c.nodes && c.nodes[n].state.Running?
    requires u.active.Some? ==> c.active.Some?
    ensures Apart(c, Step(u, e))
  {
    hide WellFormed, Readiness, Leased, StackInv, ActiveInv, PhaseInv, TimerInv, NodesMove;
    var w := Step(u, e);
    if e.payload.LeaseExpired? || e.payload.NodeFailed? {
      TouchMoves(last, u, e);
      assert NodeApart(c.nodes, w.nodes, e.payload.node);
    } else if e.payload.TimerFired? {
      assert !c.timers[e.payload.timer].fired && w.timers[e.payload.timer].fired;
    }
  }

  lemma FiringApart(last: Payload, s: RunData, own: seq<Event>, k: nat, m: nat)
    requires Inv(s) && Chain(last, s, own) && AllSweeping(own) && k <= m && m + 2 == |own|
    requires own[m].payload.TimerFired? && own[m + 1].payload.NodeFailed?
    ensures Apart(Replay(s, own[..k]), Replay(s, own))
  {
    hide Inv, Legal, Step, Replay, Sweeping, TimerInv;
    SplitAt(last, s, own, k, m);
    SplitAt(last, s, own, m + 1, m + 1);
    var c, u, v := Replay(s, own[..k]), Replay(s, own[..m]), Replay(s, own[..m + 1]);
    Backwards(LastOf(last, own[..k]), c, own[k..m]);
    assert own[..m + 2] == own;
    FiredApart(LastOf(last, own[..m]), c, u, own[m], LastOf(last, own[..m + 1]), own[m + 1]);
  }

  lemma FiredApart(last: Payload, c: RunData, u: RunData, e: Event, next: Payload, f: Event)
    requires Legal(last, u, e) && e.payload.TimerFired? && Inv(u)
    requires Legal(next, Step(u, e), f) && f.payload.NodeFailed?
    requires forall id | id in u.timers && !u.timers[id].fired :: id in c.timers && !c.timers[id].fired
    ensures Apart(c, Step(Step(u, e), f))
  {
    hide WellFormed, Readiness, Leased, StackInv, ActiveInv, PhaseInv, TimerInv, NodesMove;
    var id := e.payload.timer;
    assert id in u.timers && !u.timers[id].fired && Step(u, e).timers[id].fired;
    TouchMoves(next, Step(u, e), f);
    assert Step(Step(u, e), f).timers == Step(u, e).timers;
    hide Legal, Step;
  }

  lemma SweepOwn(last: Payload, s: RunData, own: seq<Event>, clock: Clock)
    requires Inv(s) && Chain(last, s, own) && AllSweeping(own) && EndsSweep(own)
    ensures Own(s, own, own + Reconcile(Replay(s, own), clock), clock)
  {
    hide Inv, Legal, Step, Replay, Reconcile, Apart, Chain;
    forall k | 0 < k < |own| ensures Apart(Replay(s, own[..k]), Replay(s, own)) { SweepApart(last, s, own, k); }
  }

  lemma {:induction false} OnlyExpiries(s: RunData, now: Time, order: seq<string>)
    ensures forall i | 0 <= i < |ExpireNodes(s, now, order)| :: ExpireNodes(s, now, order)[i].payload.LeaseExpired?
    decreases |order|
  {
    hide Step;
    if order != [] {
      if order[0] in s.nodes && Overdue(s.nodes[order[0]], now) {
        OnlyExpiries(Step(s, EmitAt(s, now, LeaseExpired(order[0], s.nodes[order[0]].worker, s.nodes[order[0]].attempt))), now, order[1..]);
      } else {
        OnlyExpiries(s, now, order[1..]);
      }
    }
  }

  lemma ExpireOwn(last: Payload, s: RunData, now: Time, order: seq<string>, clock: Clock) returns (own: seq<Event>)
    requires Inv(s) && Quiet(s)
    ensures Own(s, own, ExpireLeases(s, now, order, clock), clock)
  {
    hide Inv, Quiet, Step, Own, Reconcile, Chain, ExpireNodes;
    OnlyExpiries(s, now, order);
    own := ExpireOverdue(s, now, order);
    if own == [] {
      NothingOwn(s, clock);
    } else {
      OverdueLegal(last, s, now, order);
      SweepOwn(last, s, own, clock);
    }
  }

  // Firings up to the last one that changed something, and the reconcile after it.
  ghost predicate FiringsThen(s: RunData, own: seq<Event>, fired: seq<Event>, clock: Clock) {
    && fired + Reconcile(Replay(s, fired), clock) == own + Reconcile(Replay(s, own), clock)
    && AllSweeping(own) && EndsSweep(own)
  }

  lemma OneFiring(s: RunData, id: string, now: Time, clock: Clock) returns (own: seq<Event>)
    requires Inv(s) && Due(s, id, now)
    ensures FiringsThen(s, own, FireTimer(s, id, now, clock), clock)
    ensures AllSweeping(FireTimer(s, id, now, clock)) && FireTimer(s, id, now, clock) != []
  {
    hide Inv, Legal, Step, Reconcile, Replay, Quiet, Chain;
    Steps.FireFacts(s, id, now, clock);
    var t := s.timers[id];
    var e := EmitAt(s, now, TimerFired(t.id, t.node, t.attempt, t.purpose));
    var s1 := Step(s, e);
    if !t.purpose.RetryBackoff? && ShouldFailForTimer(s1.nodes, t) {
      var f := EmitAt(s1, now, NodeFailed(t.node, s1.nodes[t.node].worker, s1.nodes[t.node].attempt, false, true));
      own := [e, f];
      Single(Steps.ANY, s, e);
      InvKept(Steps.ANY, s, e);
      InvKept(e.payload, s1, f);
      var u := Step(s1, f);
      assert [e] + [f] == [e, f];
      Steps.ReplaySnoc(s, [e], f);
      ReconcileIsRunLevel(u, clock);
      ReconcileLegal(f.payload, u, clock);
      ReconcileQuiets(f.payload, u, clock);
      QuietIffReconcileEmpty(Replay(u, Reconcile(u, clock)), clock);
      ReplayConcat(s, own, Reconcile(u, clock));
      assert own + Reconcile(u, clock) + [] == own + Reconcile(u, clock);
    } else {
      own := [e];
    }
  }

  lemma {:induction false} FiringsOwn(last: Payload, s: RunData, now: Time, order: seq<string>, clock: Clock) returns (own: seq<Event>)
    requires Inv(s) && FireAll(s, now, order, clock) != []
    ensures FiringsThen(s, own, FireAll(s, now, order, clock), clock)
    decreases |order|
  {
    hide Inv, Legal, Step, Reconcile, Replay, Chain, FireTimer, FiringsThen, Due;
    if Due(s, order[0], now) {
      Steps.DueKnown(s, order[0], now);
      var fired := FireTimer(s, order[0], now, clock);
      var first := OneFiring(s, order[0], now, clock);
      FireTimerLegal(last, s, order[0], now, clock);
      ChainInv(last, s, fired);
      var t := Replay(s, fired);
      var rest := FireAll(t, now, order[1..], clock);
      if rest == [] {
        own := first;
        assert fired + [] == fired;
      } else {
        var tail := FiringsOwn(LastOf(last, fired), t, now, order[1..], clock);
        own := fired + tail;
        MoreFirings(s, fired, tail, rest, clock);
      }
    } else {
      own := FiringsOwn(last, s, now, order[1..], clock);
    }
  }

  lemma MoreFirings(s: RunData, fired: seq<Event>, tail: seq<Event>, rest: seq<Event>, clock: Clock)
    requires AllSweeping(fired) && fired != [] && FiringsThen(Replay(s, fired), tail, rest, clock)
    ensures FiringsThen(s, fired + tail, fired + rest, clock)
  {
    hide Step, Reconcile, Replay, AllSweeping, EndsSweep;
    var t := Replay(s, fired);
    ReplayConcat(s, fired, tail);
    ReplayConcat(s, fired, rest);
    Regroup(fired, rest, Reconcile(Replay(t, rest), clock));
    Regroup(fired, tail, Reconcile(Replay(t, tail), clock));
    SweepsOn(fired, tail);
  }

  lemma Regroup(a: seq<Event>, b: seq<Event>, c: seq<Event>)
    ensures (a + b) + c == a + (b + c)
  {
  }

  lemma SweepsOn(fired: seq<Event>, tail: seq<Event>)
    requires AllSweeping(fired) && AllSweeping(tail) && EndsSweep(tail)
    ensures AllSweeping(fired + tail) && EndsSweep(fired + tail)
  {
    hide Sweeping;
    assert |tail| > 1 ==> (fired + tail)[|fired + tail| - 2] == tail[|tail| - 2];
  }

  lemma FireOwn(last: Payload, s: RunData, now: Time, order: seq<string>, clock: Clock) returns (own: seq<Event>)
    requires Inv(s) && Quiet(s)
    ensures Own(s, own, FireDueTimers(s, now, order, clock), clock)
  {
    hide Inv, Quiet, Step, Own, Reconcile, Chain, FireAll, Replay, Legal;
    var fired := FireAll(s, now, order, clock);
    own := [];
    if fired == [] {
      NothingOwn(s, clock);
    } else {
      own := FiringsOwn(last, s, now, order, clock);
      FireAllLegal(last, s, now, order, clock);
      ChainInv(last, s, fired);
      ReconcileLegal(LastOf(last, fired), Replay(s, fired), clock);
      Concat(last, s, fired, Reconcile(Replay(s, fired), clock));
      ChainConcat(last, s, own, Reconcile(Replay(s, own), clock));
      SweepOwn(last, s, own, clock);
    }
  }

  // ---- Any operation ----

  lemma OpOwn(last: Payload, s: RunData, op: Op) returns (own: seq<Event>)
    requires Inv(s) && Quiet(s)
    ensures Own(s, own, OpEvents(s, op), ClockOf(op))
    ensures !op.OpExpireLeases? && !op.OpFireTimers? ==> |own| == OwnCount(op, OpEvents(s, op))
  {
    hide Inv, Quiet, Legal, Step, Chain, Own, CompleteTask, FailTask, CancelRun, ApproveCheckpoint, Heartbeat, Claim, ExpireLeases, FireDueTimers, BeatNodes;
    match op {
      case OpComplete(req, clock) => own := CompleteOwn(last, s, req, clock);
      case OpFail(req, retryNow, clock) => own := FailOwn(last, s, req, retryNow, clock);
      case OpCancel(clock) => own := CancelOwn(s, clock);
      case OpApprove(node, clock) =>
        own := ApproveCheckpoint(s, node, clock).events;
        ApproveLegal(last, s, node, clock);
        ApprovalIsMild(s, node, clock);
        MildOwn(last, s, own, clock);
      case OpHeartbeat(worker, now, order) =>
        own := Heartbeat(s, worker, now, order);
        HeartbeatLegal(last, s, worker, now, order);
        BeatsAreMild(s, worker, now, order);
        HeartbeatIsMild(s, worker, now, order);
        MildOwn(last, s, own, ClockOf(op));
      case OpClaim(reg, worker, clock) =>
        own := Claim(s, reg, worker, clock);
        ClaimLegal(last, s, reg, worker, clock);
        ClaimIsMild(s, reg, worker, clock);
        MildOwn(last, s, own, clock);
      case OpExpireLeases(now, order, clock) => own := ExpireOwn(last, s, now, order, clock);
      case OpFireTimers(now, order, clock) => own := FireOwn(last, s, now, order, clock);
    }
  }

  ghost predicate AllMild(events: seq<Event>) {
    forall i | 0 <= i < |events| :: Mild(events[i].payload)
  }

  lemma ApprovalIsMild(s: RunData, node: string, clock: Clock)
    ensures AllMild(ApproveCheckpoint(s, node, clock).events)
  {
  }

  lemma HeartbeatIsMild(s: RunData, worker: string, now: Time, order: seq<string>)
    ensures AllMild(Heartbeat(s, worker, now, order))
  {
    hide Step;
    BeatsAreMild(s, worker, now, order);
  }

  lemma ClaimIsMild(s: RunData, reg: Registry, worker: string, clock: Clock)
    ensures AllMild(Claim(s, reg, worker, clock))
  {
    hide Step;
  }

  // ---- The theorem ----

  lemma CutAfterOwn(last: Payload, s: RunData, own: seq<Event>, events: seq<Event>, k: nat, clock: Clock, recovery: Clock)
    requires Inv(s) && Chain(last, s, events) && Own(s, own, events, clock) && |own| <= k <= |events|
    ensures OnlyCatchUpLost(events, k)
    ensures var c := Replay(s, events[..k]); var rest := Reconcile(c, recovery);
      && SameButStamps(rest, events[k..])
      && Replay(c, rest) == Replay(s, events).(finishedAt := Replay(c, rest).finishedAt)
  {
    hide Inv, Legal, Step, Reconcile, Replay, Chain, Apart;
    var t := Replay(s, own);
    var due := Reconcile(t, clock);
    var j := k - |own|;
    assert events == own + due;
    ChainConcat(last, s, own, due);
    ChainInv(last, s, own);
    ReconcileResumes(LastOf(last, own), t, clock, j);
    assert events[..k] == own + due[..j] && events[k..] == due[j..];
    ReplayConcat(s, own, due[..j]);
    var c := Replay(t, due[..j]);
    ReconcileClock(c, recovery, clock);
    ReplayConcat(s, events[..k], events[k..]);
    assert events == events[..k] + events[k..];
    CaughtUpAfter(t, own, clock, k);
  }

  lemma CaughtUpAfter(t: RunData, own: seq<Event>, clock: Clock, k: nat)
    requires |own| <= k && (own != [] ==> !own[|own| - 1].payload.CompensationTaskFailed?)
    ensures OnlyCatchUpLost(own + Reconcile(t, clock), k)
  {
    hide Reconcile;
    ReconcileIsRunLevel(t, clock);
    var events := own + Reconcile(t, clock);
    forall i | k <= i < |events| ensures CatchesUp(events, i) {
      assert events[i] == Reconcile(t, clock)[i - |own|];
      if i > |own| { assert events[i - 1] == Reconcile(t, clock)[i - 1 - |own|]; }
    }
  }

  lemma CutBeforeOwn(last: Payload, s: RunData, own: seq<Event>, events: seq<Event>, k: nat, clock: Clock, recovery: Clock)
    requires Inv(s) && Quiet(s) && Chain(last, s, events) && Own(s, own, events, clock) && k < |own|
    ensures !OnlyCatchUpLost(events, k)
    ensures var c := Replay(s, events[..k]);
      Unstamped(Replay(c, Reconcile(c, recovery))) != Unstamped(Replay(s, events))
  {
    hide Inv, Quiet, Legal, Step, Reconcile, Replay, Chain, Apart, Unstamped;
    var t := Replay(s, own);
    ChainConcat(last, s, own, Reconcile(t, clock));
    ChainInv(last, s, own);
    ChainPrefix(last, s, own, k);
    ChainInv(last, s, own[..k]);
    assert events[..k] == own[..k];
    var c := Replay(s, own[..k]);
    if k == 0 {
      assert own[..0] == [];
      Steps.NoEvents(s);
      QuietAndShorter(c, t);
    }
    ApartStays(last, c, t, recovery, clock);
    ReplayConcat(s, own, Reconcile(t, clock));
    OwnLost(own, events, k);
  }

  lemma OwnLost(own: seq<Event>, events: seq<Event>, k: nat)
    requires own <= events && k < |own| && !CatchesUp(own, |own| - 1)
    ensures !OnlyCatchUpLost(events, k)
  {
    assert events[|own| - 1] == own[|own| - 1];
    if |own| > 1 { assert events[|own| - 2] == own[|own| - 2]; }
    assert !CatchesUp(events, |own| - 1);
  }

  /** Claims, heartbeats, approvals, checkpoints and failed compensation tasks must be
      appended whole; of any other report and of a cancellation request the first
      event is enough, or the first two where a backoff was armed. */
  lemma HarmlessCuts(s: RunData, op: Op, k: nat)
    requires Inv(s) && Quiet(s) && !op.OpExpireLeases? && !op.OpFireTimers? && k <= |OpEvents(s, op)|
    ensures OnlyCatchUpLost(OpEvents(s, op), k) <==> OwnCount(op, OpEvents(s, op)) <= k
  {
    hide Inv, Quiet, OpEvents, Reconcile, Replay, Apart, OnlyCatchUpLost;
    var own := OpOwn(Steps.ANY, s, op);
    if |own| <= k { CaughtUpAfter(Replay(s, own), own, ClockOf(op), k); }
    else { OwnLost(own, OpEvents(s, op), k); }
  }

  /** An operation that dies after k appends: recovery reaches the state the whole
      operation would have reached, up to time stamps, if and only if all that was
      lost are run-level transitions. It then appends the very events lost. */
  lemma RecoveryCompletesIff(y: Sys, op: Op, k: nat, recovery: Clock)
    requires Reachable(y) && y.up && ValidOp(StateOf(y.log), op) && k <= |OpEvents(StateOf(y.log), op)|
    ensures var s := StateOf(y.log); var events := OpEvents(s, op);
      var cut := Sys(y.log + events[..k], false);
      var rest := Reconcile(StateOf(cut.log), recovery);
      var recovered, whole := Replay(StateOf(cut.log), rest), Replay(s, events);
      && Dies(y, cut, op, k)
      && (Unstamped(recovered) == Unstamped(whole) <==> OnlyCatchUpLost(events, k))
      && (OnlyCatchUpLost(events, k) ==>
            SameButStamps(rest, events[k..]) && recovered == whole.(finishedAt := recovered.finishedAt))
  {
    hide Reachable, StateOf, Legal, LegalLog, Inv, Quiet, Step, Replay, Replays, Reconcile, OpEvents, Own, Unstamped, OnlyCatchUpLost, Chain, ValidOp;
    ReachableSound(y);
    var s, last := StateOf(y.log), Steps.ANY;
    var events := OpEvents(s, op);
    OpLegal(last, s, op);
    var own := OpOwn(last, s, op);
    StateOfConcat(y.log, events[..k]);
    OwnFits(s, own, events, ClockOf(op));
    if k < |own| {
      CutBeforeOwn(last, s, own, events, k, ClockOf(op), recovery);
    } else {
      CutAfterOwn(last, s, own, events, k, ClockOf(op), recovery);
      FinishingTime(Replay(StateOf(y.log + events[..k]), Reconcile(StateOf(y.log + events[..k]), recovery)), Replay(s, events));
    }
  }

  lemma FinishingTime(t: RunData, u: RunData)
    requires t == u.(finishedAt := t.finishedAt)
    ensures Unstamped(t) == Unstamped(u)
  {
  }
}
