/** Every operation appends a chain of guarded events. */
module Operations {
  import opened Runtime
  import opened State
  import opened TimerIds
  import opened Workflowdef
  import opened Graph
  import opened Strings
  import opened EngineSpec
  import opened Guards
  import opened Invariant
  import opened Logs

  lemma Single(last: Payload, s: RunData, e: Event)
    requires Legal(last, s, e)
    ensures Chain(last, s, [e])
    ensures Replay(s, [e]) == Step(s, e)
  {
    hide Legal, Step;
    assert [e][1..] == [];
  }

  lemma OneStep(s: RunData, e: Event)
    ensures Replay(s, [e]) == Step(s, e)
  {
    hide Step;
    assert [e][1..] == [];
  }

  lemma TwoSteps(s: RunData, e: Event, f: Event)
    ensures Replay(s, [e, f]) == Step(Step(s, e), f)
  {
    hide Step;
    assert [e, f][1..] == [f];
    OneStep(Step(s, e), f);
  }

  lemma ConsChain(last: Payload, s: RunData, e: Event, events: seq<Event>)
    requires Legal(last, s, e) && Chain(e.payload, Step(s, e), events)
    ensures Chain(last, s, [e] + events)
    ensures Replay(s, [e] + events) == Replay(Step(s, e), events)
  {
    hide Legal, Step;
    assert ([e] + events)[1..] == events;
  }

  lemma Concat(last: Payload, s: RunData, a: seq<Event>, b: seq<Event>)
    requires Chain(last, s, a) && Chain(LastOf(last, a), Replay(s, a), b)
    ensures Chain(last, s, a + b)
    ensures Replay(s, a + b) == Replay(Replay(s, a), b)
  {
    hide Chain, Replay;
    ChainConcat(last, s, a, b);
    ReplayConcat(s, a, b);
  }

  // One event, then whatever transition it makes due.
  lemma ReplayReport(s: RunData, clock: Clock, e: Event)
    ensures ThenAdvance(s, clock, [e]) == [e] + Advance(Step(s, e), clock)
    ensures Replay(s, ThenAdvance(s, clock, [e])) == Replay(Step(s, e), Advance(Step(s, e), clock))
  {
    hide Step, Advance;
    assert [e][1..] == [] && Replay(s, [e]) == Step(s, e);
    ReplayConcat(s, [e], Advance(Step(s, e), clock));
  }

  lemma AdvanceLegal(last: Payload, s: RunData, clock: Clock)
    requires Inv(s)
    ensures Chain(last, s, Advance(s, clock))
  {
    hide Inv;
    if AdvancePayload(s).Some? {
      var e := Emit(s, clock, AdvancePayload(s).value);
      assert Legal(last, s, e);
      hide Legal, Step;
      Single(last, s, e);
    }
  }

  lemma ThenAdvanceLegal(last: Payload, s: RunData, clock: Clock, events: seq<Event>)
    requires Inv(s) && Chain(last, s, events)
    ensures Chain(last, s, ThenAdvance(s, clock, events))
    ensures Inv(Replay(s, ThenAdvance(s, clock, events)))
  {
    hide Inv, Chain, Legal, Advance;
    ChainInv(last, s, events);
    AdvanceLegal(LastOf(last, events), Replay(s, events), clock);
    Concat(last, s, events, Advance(Replay(s, events), clock));
    ChainInv(last, s, ThenAdvance(s, clock, events));
  }

  // ---- Cancelling ----

  predicate CancelledIn(a: Nodes, b: Nodes, ids: seq<string>) {
    && a.Keys == b.Keys
    && forall n | n in a ::
         if n in ids && Cancellable(a[n].state) then b[n] == a[n].(state := Cancelled, worker := "", heartbeat := None)
         else b[n] == a[n]
  }

  // The loop cancels exactly the waiting nodes it visits, and changes nothing else.
  lemma {:induction false} CancelNodesLegal(last: Payload, s: RunData, clock: Clock, ids: seq<string>)
    requires Inv(s) && !s.Terminal() && s.cancelRequested
    ensures var events := CancelNodes(s, clock, ids); var t := Replay(s, events);
      && Chain(last, s, events)
      && t == s.(nodes := t.nodes, lastSeq := t.lastSeq)
      && CancelledIn(s.nodes, t.nodes, ids)
    decreases |ids|
  {
    hide Inv;
    if ids != [] {
      if ids[0] in s.nodes && Cancellable(s.nodes[ids[0]].state) {
        var e := Emit(s, clock, NodeCancelled(ids[0], "", 0));
        assert Legal(last, s, e);
        InvKept(last, s, e);
        var t := Step(s, e);
        assert t == s.(nodes := s.nodes[ids[0] := s.nodes[ids[0]].(state := Cancelled, worker := "", heartbeat := None)], lastSeq := t.lastSeq);
        hide Legal, Step;
        CancelNodesLegal(e.payload, t, clock, ids[1..]);
        ConsChain(last, s, e, CancelNodes(t, clock, ids[1..]));
      } else {
        hide Legal;
        CancelNodesLegal(last, s, clock, ids[1..]);
      }
    }
  }

  lemma CancelEligibleLegal(last: Payload, s: RunData, clock: Clock)
    requires Inv(s) && !s.Terminal() && s.cancelRequested
    ensures var events := CancelEligible(s, clock); var t := Replay(s, events);
      && Chain(last, s, events) && Inv(t)
      && t == s.(nodes := t.nodes, lastSeq := t.lastSeq)
      && CancelledIn(s.nodes, t.nodes, Sorted(s.nodes.Keys))
      && (forall n | n in t.nodes :: !Cancellable(t.nodes[n].state))
  {
    hide Inv, Chain, Legal, Step, Replay;
    CancelNodesLegal(last, s, clock, Sorted(s.nodes.Keys));
    SortedEnumerates(s.nodes.Keys);
    ChainInv(last, s, CancelEligible(s, clock));
  }

  lemma ReconcileLegal(last: Payload, s: RunData, clock: Clock)
    requires Inv(s)
    ensures Chain(last, s, Reconcile(s, clock)) && Inv(Replay(s, Reconcile(s, clock)))
  {
    hide Inv, Legal, Step, ThenAdvance, CancelEligible;
    if !s.Terminal() {
      if s.cancelRequested {
        CancelEligibleLegal(last, s, clock);
        ThenAdvanceLegal(last, s, clock, CancelEligible(s, clock));
      } else {
        ThenAdvanceLegal(last, s, clock, []);
      }
    }
  }

  lemma IfChangedReconcileLegal(last: Payload, s: RunData, clock: Clock, events: seq<Event>)
    requires Inv(s) && Chain(last, s, events)
    ensures Chain(last, s, IfChangedReconcile(s, clock, events))
  {
    hide Inv, Legal, Step, Reconcile;
    if events != [] {
      ChainInv(last, s, events);
      ReconcileLegal(LastOf(last, events), Replay(s, events), clock);
      Concat(last, s, events, Reconcile(Replay(s, events), clock));
    }
  }

  // ---- Worker reports ----

  lemma NormalFormsKeepSpawnOk(nodes: Nodes, spawned: seq<NodeDef>)
    requires SpawnOk(nodes, spawned)
    ensures SpawnOk(nodes, NormalForms(spawned))
  {
    var normal := NormalForms(spawned);
    if spawned != [] {
      forall i | 0 <= i < |normal|
        ensures normal[i].id == spawned[i].id && normal[i].activity == spawned[i].activity && normal[i].dependsOn == spawned[i].dependsOn {}
      IdsOfNormalForms(spawned);
      GrowNormalForms(DepGraph(nodes), spawned);
      hide GrowGraph, Cyclic;
    }
  }

  lemma IdsOfNormalForms(defs: seq<NodeDef>)
    ensures Ids(NormalForms(defs)) == Ids(defs)
  {
    var normal := NormalForms(defs);
    forall x | x in Ids(defs) ensures x in Ids(normal) {
      var i :| 0 <= i < |defs| && defs[i].id == x;
      assert normal[i].id == x;
    }
    forall x | x in Ids(normal) ensures x in Ids(defs) {
      var i :| 0 <= i < |normal| && normal[i].id == x;
      assert defs[i].id == x;
    }
  }

  lemma {:induction false} GrowNormalForms(g: Graph, defs: seq<NodeDef>)
    ensures GrowGraph(g, NormalForms(defs)) == GrowGraph(g, defs)
    decreases |defs|
  {
    if defs != [] {
      assert NormalForms(defs)[1..] == NormalForms(defs[1..]);
      GrowNormalForms(g[defs[0].id := defs[0].dependsOn], defs[1..]);
    }
  }

  // One report followed by an advance.
  lemma ReportLegal(last: Payload, s: RunData, clock: Clock, e: Event)
    requires Inv(s) && Legal(last, s, e)
    ensures Chain(last, s, ThenAdvance(s, clock, [e]))
  {
    hide Inv, Legal, Step, ThenAdvance;
    Single(last, s, e);
    ThenAdvanceLegal(last, s, clock, [e]);
  }

  lemma CheckpointLegal(last: Payload, s: RunData, n: string, w: string, a: uint32, clock: Clock)
    requires Inv(s) && Holds(s, n, w, a) && !s.cancelRequested
    ensures var e := Emit(s, clock, CheckpointReached(n, w, a));
      Chain(last, s, [e] + CheckpointTimer(Step(s, e), clock, n, s.nodes[n].def, a))
  {
    hide Inv;
    var e := Emit(s, clock, CheckpointReached(n, w, a));
    assert Legal(last, s, e);
    var t := Step(s, e);
    var timer := CheckpointTimer(t, clock, n, s.nodes[n].def, a);
    if timer != [] {
      assert Legal(e.payload, t, timer[0]);
      hide Legal, Step;
      Single(e.payload, t, timer[0]);
      ConsChain(last, s, e, timer);
    } else {
      hide Legal, Step;
      ConsChain(last, s, e, []);
    }
  }

  lemma CompleteNodeLegal(last: Payload, s: RunData, req: CompleteRequest, clock: Clock)
    requires Inv(s) && Holds(s, req.node, req.worker, req.attempt) && !s.cancelRequested
    ensures !SpawnOk(s.nodes, req.spawned) ==>
      Chain(last, s, ThenAdvance(s, clock, [Emit(s, clock, NodeFailed(req.node, req.worker, req.attempt, false, false))]))
    ensures SpawnOk(s.nodes, req.spawned) ==>
      Chain(last, s, ThenAdvance(s, clock, [Emit(s, clock, NodeCompleted(req.node, req.worker, req.attempt, NormalForms(req.spawned)))]))
  {
    hide Inv, SpawnOk, ThenAdvance, Chain;
    if SpawnOk(s.nodes, req.spawned) {
      NormalFormsKeepSpawnOk(s.nodes, req.spawned);
      ReportLegal(last, s, clock, Emit(s, clock, NodeCompleted(req.node, req.worker, req.attempt, NormalForms(req.spawned))));
    } else {
      ReportLegal(last, s, clock, Emit(s, clock, NodeFailed(req.node, req.worker, req.attempt, false, false)));
    }
  }

  lemma CompleteCompensationLegal(last: Payload, s: RunData, req: CompleteRequest, clock: Clock)
    requires Inv(s) && ActiveIs(s, req.node, req.worker, req.attempt)
    ensures Chain(last, s, ThenAdvance(s, clock, [Emit(s, clock, CompensationTaskCompleted(req.node, req.worker, req.attempt))]))
  {
    hide Inv, ThenAdvance, Chain;
    ReportLegal(last, s, clock, Emit(s, clock, CompensationTaskCompleted(req.node, req.worker, req.attempt)));
  }

  lemma CompleteLegal(last: Payload, s: RunData, req: CompleteRequest, clock: Clock)
    requires Inv(s)
    ensures Chain(last, s, CompleteTask(s, req, clock).events)
  {
    hide Inv, Legal, Step, ThenAdvance, SpawnOk, CheckpointTimer;
    if req.compensation {
      if ActiveCheck(s, req.worker, req.node, req.attempt) == NoError { CompleteCompensationLegal(last, s, req, clock); }
    } else if LeaseCheck(s, req.worker, req.node, req.attempt) == NoError && !s.cancelRequested {
      if req.checkpoint { CheckpointLegal(last, s, req.node, req.worker, req.attempt, clock); }
      else { CompleteNodeLegal(last, s, req, clock); }
    }
  }

  lemma FailCompensationLegal(last: Payload, s: RunData, n: string, w: string, a: uint32, clock: Clock)
    requires Inv(s) && ActiveIs(s, n, w, a)
    ensures var e := Emit(s, clock, CompensationTaskFailed(n, w, a));
      Chain(last, s, [e, Emit(Step(s, e), clock, WorkflowFailed)])
  {
    var e := Emit(s, clock, CompensationTaskFailed(n, w, a));
    assert Legal(last, s, e);
    var t := Step(s, e);
    var f := Emit(t, clock, WorkflowFailed);
    assert Legal(e.payload, t, f);
    hide Legal, Step, Inv;
    Single(e.payload, t, f);
    ConsChain(last, s, e, [f]);
    assert [e] + [f] == [e, f];
  }

  lemma FailNodeLegal(last: Payload, s: RunData, n: string, w: string, a: uint32, retryable: bool, retryNow: Time, clock: Clock)
    requires Inv(s) && Holds(s, n, w, a) && !s.cancelRequested
    ensures var e := Emit(s, clock, NodeFailed(n, w, a, retryable, false));
      Chain(last, s, [e]) &&
      (retryable ==> Chain(last, s, [e] + RetryTimer(Step(s, e), clock, n, s.nodes[n].def, a, retryNow)))
  {
    hide Inv;
    var e := Emit(s, clock, NodeFailed(n, w, a, retryable, false));
    assert Legal(last, s, e);
    var t := Step(s, e);
    var timer := RetryTimer(t, clock, n, s.nodes[n].def, a, retryNow);
    if timer != [] && retryable {
      assert Legal(e.payload, t, timer[0]);
      hide Legal, Step;
      Single(e.payload, t, timer[0]);
      ConsChain(last, s, e, timer);
      Single(last, s, e);
    } else {
      hide Legal, Step;
      ConsChain(last, s, e, []);
      Single(last, s, e);
    }
  }

  lemma CancelReportLegal(last: Payload, s: RunData, n: string, w: string, a: uint32, clock: Clock)
    requires Inv(s) && Holds(s, n, w, a)
    ensures Chain(last, s, ThenAdvance(s, clock, [Emit(s, clock, NodeCancelled(n, w, a))]))
  {
    hide Inv, ThenAdvance, Chain;
    ReportLegal(last, s, clock, Emit(s, clock, NodeCancelled(n, w, a)));
  }

  lemma FailLegal(last: Payload, s: RunData, req: FailRequest, retryNow: Time, clock: Clock)
    requires Inv(s)
    ensures Chain(last, s, FailTask(s, req, retryNow, clock).events)
  {
    hide Inv, Legal, Step, ThenAdvance, RetryTimer, HasPendingRetryTimer;
    if req.compensation {
      if ActiveCheck(s, req.worker, req.node, req.attempt) == NoError {
        FailCompensationLegal(last, s, req.node, req.worker, req.attempt, clock);
      }
    } else if LeaseCheck(s, req.worker, req.node, req.attempt) == NoError {
      if req.cancelled {
        CancelReportLegal(last, s, req.node, req.worker, req.attempt, clock);
      } else if !s.cancelRequested {
        FailNodeLegal(last, s, req.node, req.worker, req.attempt, req.retryable, retryNow, clock);
        var e := Emit(s, clock, NodeFailed(req.node, req.worker, req.attempt, req.retryable, false));
        var s1 := Step(s, e);
        var timer := if req.retryable then RetryTimer(s1, clock, req.node, s.nodes[req.node].def, req.attempt, retryNow) else [];
        assert [e] + [] == [e];
        ThenAdvanceLegal(last, s, clock, [e] + timer);
      }
    }
  }

  // ---- Callers ----

  lemma CancelLegal(last: Payload, s: RunData, clock: Clock)
    requires Inv(s)
    ensures Chain(last, s, CancelRun(s, clock))
  {
    hide Inv;
    if !s.Terminal() && !s.cancelRequested {
      var e := Emit(s, clock, CancellationRequested);
      assert Legal(last, s, e);
      var t := Step(s, e);
      InvKept(last, s, e);
      assert !t.Terminal() && t.cancelRequested;
      hide Legal, Step, CancelEligible, ThenAdvance, CancelledIn;
      CancelEligibleLegal(e.payload, t, clock);
      ConsChain(last, s, e, CancelEligible(t, clock));
      ThenAdvanceLegal(last, s, clock, [e] + CancelEligible(t, clock));
    }
  }

  lemma ApproveLegal(last: Payload, s: RunData, node: string, clock: Clock)
    requires Inv(s)
    ensures Chain(last, s, ApproveCheckpoint(s, node, clock).events)
  {
    hide Inv;
    if ApproveCheckpoint(s, node, clock).error == NoError {
      var e := Emit(s, clock, CheckpointApproved(node));
      assert Legal(last, s, e);
      hide Legal, Step;
      Single(last, s, e);
    }
  }

  // ---- Polling ----

  lemma {:induction false} BeatNodesLegal(last: Payload, s: RunData, worker: string, now: Time, order: seq<string>)
    requires Inv(s) && !s.Terminal()
    ensures Chain(last, s, BeatNodes(s, worker, now, order))
    ensures !Replay(s, BeatNodes(s, worker, now, order)).Terminal()
    decreases |order|
  {
    hide Inv;
    if order != [] {
      var n := order[0];
      if n in s.nodes && s.nodes[n].state.Running? && s.nodes[n].worker == worker {
        var e := EmitAt(s, now, HeartbeatRecorded(n, worker, s.nodes[n].attempt));
        assert Legal(last, s, e);
        InvKept(last, s, e);
        var t := Step(s, e);
        assert !t.Terminal();
        hide Legal, Step;
        BeatNodesLegal(e.payload, t, worker, now, order[1..]);
        ConsChain(last, s, e, BeatNodes(t, worker, now, order[1..]));
      } else {
        hide Legal, Step;
        BeatNodesLegal(last, s, worker, now, order[1..]);
      }
    }
  }

  lemma BeatCompensationLegal(last: Payload, s: RunData, worker: string, now: Time)
    requires Inv(s) && !s.Terminal()
    ensures Chain(last, s, BeatCompensation(s, worker, now))
  {
    hide Inv;
    if BeatCompensation(s, worker, now) != [] {
      var e := BeatCompensation(s, worker, now)[0];
      assert Legal(last, s, e);
      hide Legal, Step;
      Single(last, s, e);
    }
  }

  lemma HeartbeatLegal(last: Payload, s: RunData, worker: string, now: Time, order: seq<string>)
    requires Inv(s)
    ensures Chain(last, s, Heartbeat(s, worker, now, order))
  {
    hide Inv, Legal, Step, BeatNodes, BeatCompensation;
    if !s.Terminal() {
      var beats := BeatNodes(s, worker, now, order);
      BeatNodesLegal(last, s, worker, now, order);
      ChainInv(last, s, beats);
      BeatCompensationLegal(LastOf(last, beats), Replay(s, beats), worker, now);
      Concat(last, s, beats, BeatCompensation(Replay(s, beats), worker, now));
    }
  }

  // After the lease and the start, the node runs with the next attempt.
  lemma DispatchLegal(last: Payload, s: RunData, clock: Clock, n: string, worker: string)
    requires Forward(s) && n in s.nodes && s.nodes[n].state.Ready? && worker != ""
    ensures var events := Dispatch(s, clock, n, worker); var t := Replay(s, events);
      && Chain(last, s, events)
      && LastOf(last, events).NodeStarted? && LastOf(last, events).node == n
      && n in t.nodes
      && t == s.(nodes := s.nodes[n := t.nodes[n]], lastSeq := s.lastSeq + 2)
      && t.nodes[n] == s.nodes[n].(state := Running, attempt := NextAttempt(s.nodes[n].attempt), worker := worker, heartbeat := t.nodes[n].heartbeat)
  {
    var a := NextAttempt(s.nodes[n].attempt);
    var e := Emit(s, clock, LeaseGranted(n, worker, a));
    assert Legal(last, s, e);
    var t := Step(s, e);
    assert t == s.(nodes := s.nodes[n := s.nodes[n].(attempt := a, worker := worker, heartbeat := Some(e.timestamp))], lastSeq := s.lastSeq + 1);
    var f := Emit(t, clock, NodeStarted(n, worker, a));
    assert Legal(e.payload, t, f);
    var u := Step(t, f);
    assert u.nodes == s.nodes[n := u.nodes[n]];
    hide Legal, Step;
    Single(e.payload, t, f);
    ConsChain(last, s, e, [f]);
    assert [e] + [f] == [e, f];
  }

  lemma DeadlineTimersLegal(last: Payload, s: RunData, clock: Clock, n: string)
    requires n in s.nodes && s.nodes[n].state.Running? && last.NodeStarted? && last.node == n
    ensures var exec := ExecTimer(s, clock, n, s.nodes[n].def, s.nodes[n].attempt);
      Chain(last, s, exec + AbsTimer(Replay(s, exec), clock, n, s.nodes[n].def))
  {
    var exec := ExecTimer(s, clock, n, s.nodes[n].def, s.nodes[n].attempt);
    var l, t := last, s;
    if exec != [] {
      assert Legal(last, s, exec[0]);
      l, t := exec[0].payload, Step(s, exec[0]);
      assert t.nodes == s.nodes;
    }
    var abs := AbsTimer(t, clock, n, s.nodes[n].def);
    if abs != [] { assert Legal(l, t, abs[0]); }
    hide Legal, Step, AbsTimer, ExecTimer;
    if exec != [] { Single(last, s, exec[0]); }
    if abs != [] { Single(l, t, abs[0]); }
    Concat(last, s, exec, abs);
  }

  lemma ClaimNodeLegal(last: Payload, s: RunData, clock: Clock, n: string, worker: string)
    requires Forward(s) && n in s.nodes && s.nodes[n].state.Ready? && worker != ""
    ensures Chain(last, s, ClaimNode(s, clock, n, worker))
  {
    hide Chain, Legal, Step, Dispatch, ExecTimer, AbsTimer, Replay;
    DispatchLegal(last, s, clock, n, worker);
    var started := Dispatch(s, clock, n, worker);
    var t := Replay(s, started);
    DeadlineTimersLegal(LastOf(last, started), t, clock, n);
    var exec := ExecTimer(t, clock, n, s.nodes[n].def, NextAttempt(s.nodes[n].attempt));
    var abs := AbsTimer(Replay(t, exec), clock, n, s.nodes[n].def);
    Concat(last, s, started, exec + abs);
    assert started + (exec + abs) == started + exec + abs;
  }

  lemma ClaimLegal(last: Payload, s: RunData, reg: Registry, worker: string, clock: Clock)
    requires Inv(s)
    ensures Chain(last, s, Claim(s, reg, worker, clock))
  {
    hide Inv, ClaimNode;
    if !s.Terminal() && !s.cancelRequested {
      if s.runState.RunCompensating? {
        var claim := ClaimCompensation(s, reg, worker, clock);
        if claim != [] {
          assert Legal(last, s, claim[0]);
          hide Legal, Step, ClaimCompensation;
          Single(last, s, claim[0]);
        }
      } else if ClaimableNodes(s, reg, worker) != {} {
        var n := Least(ClaimableNodes(s, reg, worker));
        assert Claimable(s, reg, worker, n);
        hide Legal, Step;
        ClaimNodeLegal(last, s, clock, n, worker);
      }
    }
  }

  // ---- Monitors ----

  lemma {:induction false} ExpireNodesLegal(last: Payload, s: RunData, now: Time, order: seq<string>)
    requires Inv(s)
    ensures Chain(last, s, ExpireNodes(s, now, order))
    decreases |order|
  {
    hide Inv;
    if order != [] {
      var n := order[0];
      if n in s.nodes && Overdue(s.nodes[n], now) {
        var e := EmitAt(s, now, LeaseExpired(n, s.nodes[n].worker, s.nodes[n].attempt));
        assert Legal(last, s, e);
        InvKept(last, s, e);
        var t := Step(s, e);
        hide Legal, Step;
        ExpireNodesLegal(e.payload, t, now, order[1..]);
        ConsChain(last, s, e, ExpireNodes(t, now, order[1..]));
      } else {
        hide Legal, Step;
        ExpireNodesLegal(last, s, now, order[1..]);
      }
    }
  }

  lemma ExpireCompensationLegal(last: Payload, s: RunData, now: Time)
    requires Inv(s)
    ensures Chain(last, s, ExpireCompensation(s, now))
  {
    hide Inv;
    if ExpireCompensation(s, now) != [] {
      var e := ExpireCompensation(s, now)[0];
      assert Legal(last, s, e);
      hide Legal, Step;
      Single(last, s, e);
    }
  }

  lemma OverdueLegal(last: Payload, s: RunData, now: Time, order: seq<string>)
    requires Inv(s)
    ensures Chain(last, s, ExpireOverdue(s, now, order))
  {
    hide Inv, Legal, Step, ExpireNodes, ExpireCompensation;
    var expired := ExpireNodes(s, now, order);
    ExpireNodesLegal(last, s, now, order);
    ChainInv(last, s, expired);
    ExpireCompensationLegal(LastOf(last, expired), Replay(s, expired), now);
    Concat(last, s, expired, ExpireCompensation(Replay(s, expired), now));
  }

  lemma ExpireLegal(last: Payload, s: RunData, now: Time, order: seq<string>, clock: Clock)
    requires Inv(s)
    ensures Chain(last, s, ExpireLeases(s, now, order, clock))
  {
    hide Inv, Legal, Step, ExpireOverdue, IfChangedReconcile;
    OverdueLegal(last, s, now, order);
    IfChangedReconcileLegal(last, s, clock, ExpireOverdue(s, now, order));
  }

  lemma FiringLegal(last: Payload, s: RunData, id: string, now: Time)
    requires TimerInv(s) && Due(s, id, now)
    ensures var t := s.timers[id]; var e := EmitAt(s, now, TimerFired(t.id, t.node, t.attempt, t.purpose));
      Legal(last, s, e) && !Step(s, e).Terminal()
  {
    assert TimerOk(s, id, s.timers[id]);
  }

  lemma TimeoutLegal(s: RunData, t: Timer, fired: Event, now: Time)
    requires !s.Terminal() && !t.purpose.RetryBackoff? && ShouldFailForTimer(s.nodes, t)
    requires fired.payload == TimerFired(t.id, t.node, t.attempt, t.purpose)
    ensures Legal(fired.payload, s, EmitAt(s, now, NodeFailed(t.node, s.nodes[t.node].worker, s.nodes[t.node].attempt, false, true)))
  {
  }

  lemma FireTimerLegal(last: Payload, s: RunData, id: string, now: Time, clock: Clock)
    requires Inv(s) && Due(s, id, now)
    ensures Chain(last, s, FireTimer(s, id, now, clock))
  {
    hide WellFormed, Readiness, Leased, StackInv, ActiveInv, PhaseInv, TimerInv, Legal, Step, Reconcile, Chain;
    FiringLegal(last, s, id, now);
    var t := s.timers[id];
    var e := EmitAt(s, now, TimerFired(t.id, t.node, t.attempt, t.purpose));
    InvKept(last, s, e);
    var s1 := Step(s, e);
    Single(last, s, e);
    if !t.purpose.RetryBackoff? && ShouldFailForTimer(s1.nodes, t) {
      var f := EmitAt(s1, now, NodeFailed(t.node, s1.nodes[t.node].worker, s1.nodes[t.node].attempt, false, true));
      TimeoutLegal(s1, t, e, now);
      InvKept(e.payload, s1, f);
      ReconcileLegal(f.payload, Step(s1, f), clock);
      var rest := Reconcile(Step(s1, f), clock);
      ConsChain(e.payload, s1, f, rest);
      ConsChain(last, s, e, [f] + rest);
      assert [e] + ([f] + rest) == [e, f] + rest;
    }
  }

  lemma {:induction false} FireAllLegal(last: Payload, s: RunData, now: Time, order: seq<string>, clock: Clock)
    requires Inv(s)
    ensures Chain(last, s, FireAll(s, now, order, clock))
    decreases |order|
  {
    hide Inv, Legal, Step, FireTimer;
    if order != [] {
      if Due(s, order[0], now) {
        var fired := FireTimer(s, order[0], now, clock);
        FireTimerLegal(last, s, order[0], now, clock);
        ChainInv(last, s, fired);
        FireAllLegal(LastOf(last, fired), Replay(s, fired), now, order[1..], clock);
        Concat(last, s, fired, FireAll(Replay(s, fired), now, order[1..], clock));
      } else {
        FireAllLegal(last, s, now, order[1..], clock);
      }
    }
  }

  /** From a state that satisfies the invariants, every operation appends only
      guarded events, whatever its arguments, clock and iteration orders. */
  lemma OpLegal(last: Payload, s: RunData, op: Op)
    requires Inv(s)
    ensures Chain(last, s, OpEvents(s, op))
  {
    hide Inv, Legal, Step, Chain, CompleteTask, FailTask, CancelRun, ApproveCheckpoint, Heartbeat, Claim, ExpireLeases, FireAll, IfChangedReconcile;
    match op
    case OpComplete(req, clock) => CompleteLegal(last, s, req, clock);
    case OpFail(req, retryNow, clock) => FailLegal(last, s, req, retryNow, clock);
    case OpCancel(clock) => CancelLegal(last, s, clock);
    case OpApprove(node, clock) => ApproveLegal(last, s, node, clock);
    case OpHeartbeat(worker, now, order) => HeartbeatLegal(last, s, worker, now, order);
    case OpClaim(reg, worker, clock) => ClaimLegal(last, s, reg, worker, clock);
    case OpExpireLeases(now, order, clock) => ExpireLegal(last, s, now, order, clock);
    case OpFireTimers(now, order, clock) =>
      FireAllLegal(last, s, now, order, clock);
      IfChangedReconcileLegal(last, s, clock, FireAll(s, now, order, clock));
  }
}
