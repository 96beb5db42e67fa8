/** The locked operations one append at a time: which event comes next, that it is
    guarded where it is appended, and where it leaves the run. */
module Steps {
  import opened Runtime
  import opened State
  import opened Strings
  import opened TimerIds
  import opened Workflowdef
  import opened EngineSpec
  import opened Guards
  import opened Logs
  import opened Operations

  // For events that may follow any other.
  const ANY: Payload := CancellationRequested

  lemma CancelFacts(s: RunData, clock: Clock)
    requires !s.Terminal() && !s.cancelRequested
    ensures var e := Emit(s, clock, CancellationRequested); var t := Step(s, e);
      Legal(ANY, s, e) && !t.Terminal() && t.cancelRequested
  {
  }

  lemma CompensationClaimFacts(s: RunData, reg: Registry, worker: string, clock: Clock)
    requires s.runState.RunCompensating? && !s.cancelRequested
    ensures match NextEntry(s)
      case None => ClaimCompensation(s, reg, worker, clock) == []
      case Some(i) =>
        if CanHandle(reg, worker, s.stack[i].activity) then
          var e := Emit(s, clock, CompensationTaskStarted(s.stack[i].node, worker, NextAttempt(s.stack[i].attempt)));
          Legal(ANY, s, e) && ClaimCompensation(s, reg, worker, clock) == [e]
        else ClaimCompensation(s, reg, worker, clock) == []
  {
  }

  lemma DispatchFacts(s: RunData, clock: Clock, n: string, worker: string)
    returns (e: Event, f: Event, exec: seq<Event>, abs: seq<Event>)
    requires Forward(s) && n in s.nodes && s.nodes[n].state.Ready? && worker != ""
    ensures var a := NextAttempt(s.nodes[n].attempt); var def := s.nodes[n].def; var s1 := Step(s, e); var s2 := Step(s1, f);
      && e == Emit(s, clock, LeaseGranted(n, worker, a)) && Legal(ANY, s, e)
      && f == Emit(s1, clock, NodeStarted(n, worker, a)) && Legal(e.payload, s1, f)
      && exec == ExecTimer(s2, clock, n, def, a) && (exec != [] ==> Legal(f.payload, s2, exec[0]))
      && abs == AbsTimer(Replay(s2, exec), clock, n, def) && (abs != [] ==> Legal(LastOf(f.payload, exec), Replay(s2, exec), abs[0]))
      && Replay(s, [e]) == s1 && Replay(s, [e] + [f]) == s2 && Replay(s, [e] + [f] + exec) == Replay(s2, exec)
      && ClaimNode(s, clock, n, worker) == [e] + [f] + exec + abs
  {
    hide Legal, Step, ExecTimer, AbsTimer, Replay;
    var a := NextAttempt(s.nodes[n].attempt);
    e := Emit(s, clock, LeaseGranted(n, worker, a));
    f := Emit(Step(s, e), clock, NodeStarted(n, worker, a));
    DispatchLegal(ANY, s, clock, n, worker);
    assert Dispatch(s, clock, n, worker) == [e] + [f];
    ReplaySnoc(s, [], e);
    ReplaySnoc(s, [e], f);
    NoEvents(s);
    assert [] + [e] == [e];
    var s2 := Step(Step(s, e), f);
    exec := ExecTimer(s2, clock, n, s.nodes[n].def, a);
    abs := AbsTimer(Replay(s2, exec), clock, n, s.nodes[n].def);
    ReplayConcat(s, [e] + [f], exec);
    ClaimNodeLegal(ANY, s, clock, n, worker);
    assert [e] + [f] + exec + abs == [e] + ([f] + (exec + abs));
    ChainHead(ANY, s, e, [f] + (exec + abs));
    ChainHead(e.payload, Step(s, e), f, exec + abs);
    ChainConcat(f.payload, s2, exec, abs);
    ChainFirst(f.payload, s2, exec);
    ChainFirst(LastOf(f.payload, exec), Replay(s2, exec), abs);
  }

  lemma ChainFirst(last: Payload, s: RunData, events: seq<Event>)
    requires Chain(last, s, events)
    ensures events != [] ==> Legal(last, s, events[0])
  {
    hide Legal, Step;
  }

  // ---- One turn of each loop ----

  lemma NoBeatsLeft(s: RunData, worker: string, now: Time)
    ensures BeatNodes(s, worker, now, []) == []
  {
  }

  lemma BeatHead(s: RunData, worker: string, now: Time, ids: seq<string>, i: nat)
    requires !s.Terminal() && i < |ids|
    ensures var n := ids[i];
      if n in s.nodes && s.nodes[n].state.Running? && s.nodes[n].worker == worker then
        var e := EmitAt(s, now, HeartbeatRecorded(n, worker, s.nodes[n].attempt));
        && BeatNodes(s, worker, now, ids[i..]) == [e] + BeatNodes(Step(s, e), worker, now, ids[i + 1..])
        && Legal(ANY, s, e) && !Step(s, e).Terminal()
      else BeatNodes(s, worker, now, ids[i..]) == BeatNodes(s, worker, now, ids[i + 1..])
  {
    assert ids[i..][0] == ids[i] && ids[i..][1..] == ids[i + 1..];
  }

  lemma BeatCompensationFacts(s: RunData, worker: string, now: Time)
    requires !s.Terminal()
    ensures BeatCompensation(s, worker, now) != [] ==> Legal(ANY, s, BeatCompensation(s, worker, now)[0])
  {
  }

  lemma NoExpiriesLeft(s: RunData, now: Time)
    ensures ExpireNodes(s, now, []) == []
  {
  }

  lemma ExpireHead(s: RunData, now: Time, ids: seq<string>, i: nat)
    requires i < |ids|
    ensures var n := ids[i];
      if n in s.nodes && Overdue(s.nodes[n], now) then
        var e := EmitAt(s, now, LeaseExpired(n, s.nodes[n].worker, s.nodes[n].attempt));
        && ExpireNodes(s, now, ids[i..]) == [e] + ExpireNodes(Step(s, e), now, ids[i + 1..])
        && Legal(ANY, s, e)
      else ExpireNodes(s, now, ids[i..]) == ExpireNodes(s, now, ids[i + 1..])
  {
    assert ids[i..][0] == ids[i] && ids[i..][1..] == ids[i + 1..];
  }

  lemma ExpireCompensationFacts(s: RunData, now: Time)
    ensures ExpireCompensation(s, now) != [] ==> Legal(ANY, s, ExpireCompensation(s, now)[0])
  {
  }

  lemma DueKnown(s: RunData, id: string, now: Time)
    requires Due(s, id, now)
    ensures id in s.timers && !s.Terminal()
  {
  }

  lemma ShouldFailHasNode(nodes: Nodes, t: Timer)
    requires ShouldFailForTimer(nodes, t)
    ensures t.node in nodes
  {
  }

  lemma FireFacts(s: RunData, id: string, now: Time, clock: Clock)
    requires Inv(s) && Due(s, id, now)
    ensures id in s.timers
    ensures var t := s.timers[id]; var e := EmitAt(s, now, TimerFired(t.id, t.node, t.attempt, t.purpose)); var s1 := Step(s, e);
      && Legal(ANY, s, e)
      && if !t.purpose.RetryBackoff? && ShouldFailForTimer(s1.nodes, t) then
           t.node in s1.nodes &&
           var f := EmitAt(s1, now, NodeFailed(t.node, s1.nodes[t.node].worker, s1.nodes[t.node].attempt, false, true));
           && Legal(e.payload, s1, f)
           && FireTimer(s, id, now, clock) == [e, f] + Reconcile(Step(s1, f), clock)
         else FireTimer(s, id, now, clock) == [e]
  {
    hide Legal, Step, Reconcile, StackInv, ActiveInv, WellFormed, Readiness, Leased, PhaseInv;
    FiringLegal(ANY, s, id, now);
    var t := s.timers[id];
    var e := EmitAt(s, now, TimerFired(t.id, t.node, t.attempt, t.purpose));
    if !t.purpose.RetryBackoff? && ShouldFailForTimer(Step(s, e).nodes, t) {
      TimeoutLegal(Step(s, e), t, e, now);
    }
  }

  lemma NoTimersLeft(s: RunData, now: Time, clock: Clock)
    ensures FireAll(s, now, [], clock) == []
  {
  }

  lemma FireHead(s: RunData, now: Time, ids: seq<string>, clock: Clock, i: nat)
    requires i < |ids|
    ensures if Due(s, ids[i], now) then
        ids[i] in s.timers && FireTimer(s, ids[i], now, clock) != [] &&
        FireAll(s, now, ids[i..], clock) ==
          FireTimer(s, ids[i], now, clock) + FireAll(Replay(s, FireTimer(s, ids[i], now, clock)), now, ids[i + 1..], clock)
      else FireAll(s, now, ids[i..], clock) == FireAll(s, now, ids[i + 1..], clock)
  {
    hide Step, Reconcile;
    assert ids[i..][0] == ids[i] && ids[i..][1..] == ids[i + 1..];
  }

  lemma NoEvents(s: RunData)
    ensures Replay(s, []) == s
  {
  }

  lemma ReplaySnoc(s: RunData, events: seq<Event>, e: Event)
    ensures Replay(s, events + [e]) == Step(Replay(s, events), e)
  {
    hide Step;
    ReplayConcat(s, events, [e]);
    assert [e][1..] == [];
  }

  lemma ChainHead(last: Payload, s: RunData, e: Event, rest: seq<Event>)
    requires Chain(last, s, [e] + rest)
    ensures Legal(last, s, e) && Chain(e.payload, Step(s, e), rest)
    ensures rest != [] ==> Legal(e.payload, Step(s, e), rest[0])
    ensures Replay(s, [e] + rest) == Replay(Step(s, e), rest)
  {
    hide Legal, Step;
    assert ([e] + rest)[0] == e && ([e] + rest)[1..] == rest;
  }

  function CheckpointEvents(s: RunData, req: CompleteRequest, clock: Clock): seq<Event>
    requires req.node in s.nodes
  {
    var e := Emit(s, clock, CheckpointReached(req.node, req.worker, req.attempt));
    [e] + CheckpointTimer(Step(s, e), clock, req.node, s.nodes[req.node].def, req.attempt)
  }

  lemma CheckpointFacts(s: RunData, req: CompleteRequest, clock: Clock)
    requires Inv(s) && Holds(s, req.node, req.worker, req.attempt) && !s.cancelRequested
    ensures var e := Emit(s, clock, CheckpointReached(req.node, req.worker, req.attempt));
      var timer := CheckpointTimer(Step(s, e), clock, req.node, s.nodes[req.node].def, req.attempt);
      && Legal(ANY, s, e)
      && CheckpointEvents(s, req, clock) == [e] + timer
      && (timer != [] ==> Legal(e.payload, Step(s, e), timer[0]))
      && Replay(s, CheckpointEvents(s, req, clock)) == Replay(Step(s, e), timer)
  {
    hide Legal, Inv, Step, CheckpointTimer;
    CheckpointLegal(ANY, s, req.node, req.worker, req.attempt, clock);
    var e := Emit(s, clock, CheckpointReached(req.node, req.worker, req.attempt));
    ChainHead(ANY, s, e, CheckpointTimer(Step(s, e), clock, req.node, s.nodes[req.node].def, req.attempt));
  }

  lemma CompensationReportLegal(s: RunData, n: string, w: string, a: uint32, clock: Clock)
    ensures ActiveIs(s, n, w, a) ==> Legal(ANY, s, Emit(s, clock, CompensationTaskCompleted(n, w, a)))
  {
  }

  lemma CompletionLegal(s: RunData, req: CompleteRequest, clock: Clock)
    requires Holds(s, req.node, req.worker, req.attempt) && !s.cancelRequested
    ensures SpawnOk(s.nodes, req.spawned) ==>
      Legal(ANY, s, Emit(s, clock, NodeCompleted(req.node, req.worker, req.attempt, NormalForms(req.spawned))))
    ensures Legal(ANY, s, Emit(s, clock, NodeFailed(req.node, req.worker, req.attempt, false, false)))
  {
    hide SpawnOk;
    if SpawnOk(s.nodes, req.spawned) { NormalFormsKeepSpawnOk(s.nodes, req.spawned); }
  }

  lemma CompensationFailureFacts(s: RunData, req: FailRequest, clock: Clock)
    ensures ActiveIs(s, req.node, req.worker, req.attempt) ==>
      var e := Emit(s, clock, CompensationTaskFailed(req.node, req.worker, req.attempt));
      var f := Emit(Step(s, e), clock, WorkflowFailed);
      && Legal(ANY, s, e) && FailCompensation(s, req, clock).events == [e] + [f]
      && (StackInv(s) && ActiveInv(s) ==> Legal(e.payload, Step(s, e), f))
      && Replay(s, FailCompensation(s, req, clock).events) == Step(Step(s, e), f)
  {
    if ActiveIs(s, req.node, req.worker, req.attempt) {
      var e := Emit(s, clock, CompensationTaskFailed(req.node, req.worker, req.attempt));
      assert Legal(ANY, s, e);
      var t := Step(s, e);
      var f := Emit(t, clock, WorkflowFailed);
      assert StackInv(s) && ActiveInv(s) ==> Legal(e.payload, t, f);
      hide Step, Legal, StackInv, ActiveInv;
      assert [e] + [f] == [e, f];
      ReplaySnoc(s, [e], f);
      ReplaySnoc(s, [], e);
      assert [] + [e] == [e];
    }
  }

  function FailureEvents(s: RunData, req: FailRequest, retryNow: Time, clock: Clock): seq<Event>
    requires req.node in s.nodes
  {
    var e := Emit(s, clock, NodeFailed(req.node, req.worker, req.attempt, req.retryable, false));
    [e] + if req.retryable then RetryTimer(Step(s, e), clock, req.node, s.nodes[req.node].def, req.attempt, retryNow) else []
  }

  lemma FailureFacts(s: RunData, req: FailRequest, retryNow: Time, clock: Clock)
    requires Inv(s) && Holds(s, req.node, req.worker, req.attempt) && !s.cancelRequested
    ensures var e := Emit(s, clock, NodeFailed(req.node, req.worker, req.attempt, req.retryable, false));
      var timer := RetryTimer(Step(s, e), clock, req.node, s.nodes[req.node].def, req.attempt, retryNow);
      && Legal(ANY, s, e)
      && FailureEvents(s, req, retryNow, clock) == (if req.retryable then [e] + timer else [e])
      && (req.retryable && timer != [] ==> Legal(e.payload, Step(s, e), timer[0]))
      && Replay(s, FailureEvents(s, req, retryNow, clock)) == (if req.retryable then Replay(Step(s, e), timer) else Step(s, e))
  {
    hide Legal, Inv, Step, RetryTimer;
    FailNodeLegal(ANY, s, req.node, req.worker, req.attempt, req.retryable, retryNow, clock);
    var e := Emit(s, clock, NodeFailed(req.node, req.worker, req.attempt, req.retryable, false));
    assert [e] + [] == [e];
    ChainHead(ANY, s, e, []);
    NoEvents(Step(s, e));
    if req.retryable {
      ChainHead(ANY, s, e, RetryTimer(Step(s, e), clock, req.node, s.nodes[req.node].def, req.attempt, retryNow));
    }
  }

  lemma FailTaskShape(s: RunData, req: FailRequest, retryNow: Time, clock: Clock)
    ensures var o := EngineSpec.FailTask(s, req, retryNow, clock);
      if req.compensation then o == FailCompensation(s, req, clock)
      else if LeaseCheck(s, req.worker, req.node, req.attempt) != NoError then o == Outcome(LeaseCheck(s, req.worker, req.node, req.attempt), [])
      else if s.cancelRequested && !req.cancelled then o == Outcome(RunIsCancelled, [])
      else if req.cancelled then
        var e := Emit(s, clock, NodeCancelled(req.node, req.worker, req.attempt));
        o == Outcome(NoError, ThenAdvance(s, clock, [e])) && Legal(ANY, s, e)
      else
        var failed := FailureEvents(s, req, retryNow, clock); var t := Replay(s, failed);
        && o.error == NoError
        && o.events == (if req.retryable && HasPendingRetryTimer(t, req.node, req.attempt) then failed else failed + Advance(t, clock))
        && Replay(s, o.events) == (if req.retryable && HasPendingRetryTimer(t, req.node, req.attempt) then t else Replay(t, Advance(t, clock)))
  {
    hide Step, RetryTimer, Advance, HasPendingRetryTimer, FailCompensation;
    if !req.compensation && LeaseCheck(s, req.worker, req.node, req.attempt) == NoError {
      if req.cancelled {
        assert Legal(ANY, s, Emit(s, clock, NodeCancelled(req.node, req.worker, req.attempt)));
      } else if !s.cancelRequested {
        hide Legal;
        var e := Emit(s, clock, NodeFailed(req.node, req.worker, req.attempt, req.retryable, false));
        var timer := if req.retryable then RetryTimer(Step(s, e), clock, req.node, s.nodes[req.node].def, req.attempt, retryNow) else [];
        assert ([e] + timer)[1..] == timer;
        assert Replay(s, [e] + timer) == Replay(Step(s, e), timer);
        ReplayConcat(s, [e] + timer, Advance(Replay(s, [e] + timer), clock));
      }
    }
  }

  lemma SortedMembers(keys: set<string>)
    ensures forall i | 0 <= i < |Sorted(keys)| :: Sorted(keys)[i] in keys
  {
    SortedEnumerates(keys);
    assert forall i | 0 <= i < |Sorted(keys)| :: Sorted(keys)[i] in Sorted(keys);
  }

  lemma NoIdsLeft(s: RunData, clock: Clock)
    ensures CancelNodes(s, clock, []) == []
  {
  }

  // One turn of the cancelling loop.
  lemma CancelHead(s: RunData, clock: Clock, ids: seq<string>, i: nat)
    requires !s.Terminal() && s.cancelRequested && i < |ids| && ids[i] in s.nodes
    ensures var e := Emit(s, clock, NodeCancelled(ids[i], "", 0));
      if Cancellable(s.nodes[ids[i]].state) then
        && CancelNodes(s, clock, ids[i..]) == [e] + CancelNodes(Step(s, e), clock, ids[i + 1..])
        && Legal(ANY, s, e) && !Step(s, e).Terminal() && Step(s, e).cancelRequested && Step(s, e).nodes.Keys == s.nodes.Keys
      else CancelNodes(s, clock, ids[i..]) == CancelNodes(s, clock, ids[i + 1..])
  {
    assert ids[i..][0] == ids[i] && ids[i..][1..] == ids[i + 1..];
  }

  lemma AdvanceStep(s: RunData, clock: Clock)
    requires Inv(s)
    ensures match AdvancePayload(s)
      case None => Advance(s, clock) == [] && Replay(s, Advance(s, clock)) == s
      case Some(p) =>
        && Legal(ANY, s, Emit(s, clock, p)) && Advance(s, clock) == [Emit(s, clock, p)]
        && Replay(s, Advance(s, clock)) == Step(s, Emit(s, clock, p))
  {
    hide Inv, Legal, Step;
    AdvanceLegal(ANY, s, clock);
    if AdvancePayload(s).Some? {
      assert Advance(s, clock)[1..] == [];
    }
  }
}
