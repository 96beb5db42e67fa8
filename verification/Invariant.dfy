/** Every guarded event keeps the invariants of a run's state. */
module Invariant {
  import opened Runtime
  import opened State
  import opened TimerIds
  import opened Workflowdef
  import opened Graph
  import opened Strings
  import opened EngineSpec
  import opened Guards

  // ---- Readiness ----

  ghost predicate DepsDone(nodes: Nodes) {
    forall n | n in nodes && !nodes[n].state.Pending? && !nodes[n].state.Cancelled? :: DepsCompleted(nodes, nodes[n].def.dependsOn)
  }

  lemma MarkingKeepsCompleted(nodes: Nodes, deps: seq<string>)
    ensures DepsCompleted(MarkReady(nodes), deps) <==> DepsCompleted(nodes, deps)
  {
    var marked := MarkReady(nodes);
    assert marked.Keys == nodes.Keys;
    assert forall n | n in nodes :: marked[n] == MarkNode(nodes, nodes[n]);
    assert forall n | n in nodes :: marked[n].state.Completed? <==> nodes[n].state.Completed?;
  }

  lemma MarkingMakesReadiness(nodes: Nodes)
    requires DepsDone(nodes)
    ensures Readiness(MarkReady(nodes))
  {
    var marked := MarkReady(nodes);
    forall n | n in marked ensures ReadinessOf(marked, marked[n]) {
      MarkingKeepsCompleted(nodes, nodes[n].def.dependsOn);
      assert marked[n] == MarkNode(nodes, nodes[n]);
    }
  }

  lemma MoveKeepsReadiness(a: Nodes, b: Nodes)
    requires NodesMove(a, b) && Readiness(a)
    ensures Readiness(b)
  {
    assert forall n | n in a :: a[n].state.Completed? <==> b[n].state.Completed?;
    forall n | n in b ensures ReadinessOf(b, b[n]) {
      assert NodeMove(a[n], b[n]) && ReadinessOf(a, a[n]);
      assert DepsCompleted(a, a[n].def.dependsOn) <==> DepsCompleted(b, b[n].def.dependsOn);
    }
  }

  // ---- Completion with spawned nodes ----

  // What a completion does to the node map, before readiness is recomputed.
  function Grown(s: RunData, n: string, w: string, a: uint32, spawned: seq<NodeDef>): Nodes
    requires n in s.nodes
  {
    InsertDefs(s.nodes[n := s.nodes[n].(state := Completed, worker := w, attempt := a, heartbeat := None)], spawned)
  }

  lemma GrownShape(s: RunData, n: string, w: string, a: uint32, spawned: seq<NodeDef>)
    requires Holds(s, n, w, a) && SpawnOk(s.nodes, spawned)
    ensures var g := Grown(s, n, w, a, spawned);
      && g.Keys == s.nodes.Keys + Ids(spawned)
      && g[n] == s.nodes[n].(state := Completed, worker := w, attempt := a, heartbeat := None)
      && (forall m | m in s.nodes && m != n :: g[m] == s.nodes[m])
      && (forall i | 0 <= i < |spawned| :: spawned[i].id in g && g[spawned[i].id] == NewNode(spawned[i]))
  {
    var base := s.nodes[n := s.nodes[n].(state := Completed, worker := w, attempt := a, heartbeat := None)];
    InsertedDefs(base, spawned);
  }

  lemma CompletionNodes(last: Payload, s: RunData, e: Event)
    requires Legal(last, s, e) && e.payload.NodeCompleted?
    ensures ApplyEvent(s, e).ok
    ensures Step(s, e).nodes == MarkReady(Grown(s, e.payload.node, e.payload.worker, e.payload.attempt, e.payload.spawned))
  {
  }

  // Node by node: the completed one, the old others (at most promoted to READY), the new ones.
  lemma CompletionEffect(last: Payload, s: RunData, e: Event)
    requires Legal(last, s, e) && e.payload.NodeCompleted?
    ensures var t := Step(s, e).nodes; var p := e.payload;
      && t.Keys == s.nodes.Keys + Ids(p.spawned) && s.nodes.Keys !! Ids(p.spawned)
      && p.node in s.nodes
      && t[p.node] == s.nodes[p.node].(state := Completed, heartbeat := None)
      && (forall m | m in s.nodes && m != p.node :: t[m] == s.nodes[m] || (s.nodes[m].state.Pending? && t[m] == s.nodes[m].(state := Ready)))
      && (forall i | 0 <= i < |p.spawned| :: p.spawned[i].id in t && (t[p.spawned[i].id] == NewNode(p.spawned[i]) || t[p.spawned[i].id] == NewNode(p.spawned[i]).(state := Ready)))
  {
    var p := e.payload;
    CompletionNodes(last, s, e);
    GrownShape(s, p.node, p.worker, p.attempt, p.spawned);
    var g := Grown(s, p.node, p.worker, p.attempt, p.spawned);
    var t := Step(s, e).nodes;
    assert t.Keys == g.Keys;
    assert forall m | m in g :: t[m] == MarkNode(g, g[m]);
  }

  lemma CompletionReadiness(last: Payload, s: RunData, e: Event)
    requires Legal(last, s, e) && e.payload.NodeCompleted? && Readiness(s.nodes)
    ensures Readiness(Step(s, e).nodes)
  {
    var p := e.payload;
    CompletionNodes(last, s, e);
    GrownShape(s, p.node, p.worker, p.attempt, p.spawned);
    var g := Grown(s, p.node, p.worker, p.attempt, p.spawned);
    forall m | m in g && !g[m].state.Pending? && !g[m].state.Cancelled? ensures DepsCompleted(g, g[m].def.dependsOn) {
      if m in s.nodes {
        assert ReadinessOf(s.nodes, s.nodes[m]);
      }
    }
    MarkingMakesReadiness(g);
  }

  lemma CompletionWellFormed(last: Payload, s: RunData, e: Event)
    requires Legal(last, s, e) && e.payload.NodeCompleted? && WellFormed(s.nodes)
    ensures WellFormed(Step(s, e).nodes)
  {
    CompletionEffect(last, s, e);
    var p := e.payload;
    var t := Step(s, e).nodes;
    assert p.node in t;
    forall m | m in t ensures t[m].def.id == m && forall d | d in t[m].def.dependsOn :: d in t {
      if m !in s.nodes {
        var i :| 0 <= i < |p.spawned| && p.spawned[i].id == m;
        assert t[m].def == p.spawned[i];
      }
    }
  }

  lemma CompletionLeased(last: Payload, s: RunData, e: Event)
    requires Legal(last, s, e) && e.payload.NodeCompleted? && Leased(s.nodes)
    ensures Leased(Step(s, e).nodes)
  {
    CompletionEffect(last, s, e);
  }

  // ---- The node invariants under any legal event ----

  lemma WellFormedKept(last: Payload, s: RunData, e: Event)
    requires Legal(last, s, e) && Inv(s)
    ensures WellFormed(Step(s, e).nodes)
  {
    if e.payload.NodeCompleted? { CompletionWellFormed(last, s, e); }
    else {
      LegalMoves(last, s, e);
      var a, b := s.nodes, Step(s, e).nodes;
      var n :| n in a;
      assert n in b;
      forall m | m in b ensures b[m].def.id == m && forall d | d in b[m].def.dependsOn :: d in b { assert NodeMove(a[m], b[m]); }
    }
  }

  lemma ReadinessKept(last: Payload, s: RunData, e: Event)
    requires Legal(last, s, e) && Inv(s)
    ensures Readiness(Step(s, e).nodes)
  {
    if e.payload.NodeCompleted? { CompletionReadiness(last, s, e); }
    else {
      LegalMoves(last, s, e);
      MoveKeepsReadiness(s.nodes, Step(s, e).nodes);
    }
  }

  lemma LeasedKept(last: Payload, s: RunData, e: Event)
    requires Legal(last, s, e) && Inv(s)
    ensures Leased(Step(s, e).nodes)
  {
    hide Legal, Step, Leased, WellFormed, Readiness, StackInv, ActiveInv, PhaseInv, TimerInv;
    if e.payload.NodeCompleted? { CompletionLeased(last, s, e); }
    else if TouchesNode(e.payload) { TouchLeased(last, s, e); }
    else if e.payload.HeartbeatRecorded? { BeatLeased(last, s, e); }
    else if e.payload.TimerFired? { FireLeased(last, s, e); }
    else { NodesUntouched(last, s, e); }
  }

  lemma NodesUntouched(last: Payload, s: RunData, e: Event)
    requires Legal(last, s, e)
    requires !e.payload.NodeCompleted? && !TouchesNode(e.payload) && !e.payload.HeartbeatRecorded? && !e.payload.TimerFired?
    ensures Step(s, e).nodes == s.nodes
  {
  }

  lemma LeasedUpdate(nodes: Nodes, n: string, b: Node)
    requires Leased(nodes) && (b.state.Running? ==> b.worker != "" && b.heartbeat.Some?)
    ensures Leased(nodes[n := b])
  {
  }

  lemma TouchLeased(last: Payload, s: RunData, e: Event)
    requires Legal(last, s, e) && TouchesNode(e.payload) && Leased(s.nodes)
    ensures Leased(Step(s, e).nodes)
  {
    TouchMoves(last, s, e);
    LeasedUpdate(s.nodes, e.payload.node, Step(s, e).nodes[e.payload.node]);
  }

  lemma BeatLeased(last: Payload, s: RunData, e: Event)
    requires Legal(last, s, e) && e.payload.HeartbeatRecorded? && Leased(s.nodes) && StackInv(s) && ActiveInv(s)
    ensures Leased(Step(s, e).nodes)
  {
    BeatMoves(last, s, e);
    var n := e.payload.node;
    LeasedUpdate(s.nodes, n, s.nodes[n].(heartbeat := Some(e.timestamp)));
  }

  lemma FireLeased(last: Payload, s: RunData, e: Event)
    requires Legal(last, s, e) && e.payload.TimerFired? && Leased(s.nodes) && TimerInv(s)
    ensures Leased(Step(s, e).nodes)
  {
    FireMoves(last, s, e);
    var n := e.payload.node;
    LeasedUpdate(s.nodes, n, s.nodes[n].(state := Ready, worker := "", heartbeat := None));
  }

  // ---- The compensation stack ----

  lemma SameFirstEntry(a: seq<CompensationEntry>, b: seq<CompensationEntry>, n: string)
    requires |a| == |b| && forall i | 0 <= i < |a| :: a[i].node == b[i].node
    ensures FirstEntry(a, n) == FirstEntry(b, n)
  {
  }

  lemma EntryIsFirst(s: RunData, i: nat)
    requires StackInv(s) && i < |s.stack|
    ensures FirstEntry(s.stack, s.stack[i].node) == i
  {
  }

  // Entries keep their node and activity; completed nodes stay completed.
  lemma StackUnderMoves(s: RunData, t: RunData)
    requires StackInv(s) && NodesMove(s.nodes, t.nodes)
    requires |t.stack| == |s.stack| && forall i | 0 <= i < |s.stack| :: t.stack[i].node == s.stack[i].node && t.stack[i].activity == s.stack[i].activity
    ensures StackInv(t)
  {
    forall i | 0 <= i < |t.stack| ensures EntryOk(t.nodes, t.stack[i]) {
      assert EntryOk(s.nodes, s.stack[i]);
      assert NodeMove(s.nodes[s.stack[i].node], t.nodes[s.stack[i].node]);
    }
    forall n | n in t.nodes && t.nodes[n].state.Completed? && t.nodes[n].def.compensation != ""
      ensures FirstEntry(t.stack, n) < |t.stack|
    {
      assert NodeMove(s.nodes[n], t.nodes[n]);
      SameFirstEntry(s.stack, t.stack, n);
    }
  }

  lemma CompletionStackShape(last: Payload, s: RunData, e: Event)
    requires Legal(last, s, e) && e.payload.NodeCompleted? && WellFormed(s.nodes)
    ensures var def := s.nodes[e.payload.node].def;
      Step(s, e).stack == if def.compensation == "" then s.stack
                          else s.stack + [CompensationEntry(e.payload.node, def.compensation, false, 0)]
  {
  }

  lemma CompletionStack(last: Payload, s: RunData, e: Event)
    requires Legal(last, s, e) && e.payload.NodeCompleted? && Inv(s)
    ensures StackInv(Step(s, e))
  {
    CompletionStackShape(last, s, e);
    CompletionEffect(last, s, e);
    PushedStack(s, Step(s, e), e.payload.node);
  }

  lemma PushedStack(s: RunData, t: RunData, n: string)
    requires StackInv(s) && n in s.nodes && n in t.nodes && !s.nodes[n].state.Completed? && t.nodes[n].state.Completed?
    requires forall m | m in s.nodes :: m in t.nodes && t.nodes[m].def == s.nodes[m].def
    requires forall m | m in t.nodes && m != n :: t.nodes[m].state.Completed? <==> m in s.nodes && s.nodes[m].state.Completed?
    requires var def := s.nodes[n].def;
      t.stack == if def.compensation == "" then s.stack else s.stack + [CompensationEntry(n, def.compensation, false, 0)]
    ensures StackInv(t)
  {
    forall i | 0 <= i < |t.stack|
      ensures EntryOk(t.nodes, t.stack[i])
      ensures i < |s.stack| ==> t.stack[i].node != n
    {
      if i < |s.stack| { assert EntryOk(s.nodes, s.stack[i]); }
    }
    forall m | m in t.nodes && t.nodes[m].state.Completed? && t.nodes[m].def.compensation != ""
      ensures FirstEntry(t.stack, m) < |t.stack|
    {
      var k := if m == n then |t.stack| - 1 else FirstEntry(s.stack, m);
      assert t.stack[k].node == m;
    }
  }

  predicate TouchesEntry(p: Payload) {
    p.CompensationTaskStarted? || p.CompensationTaskCompleted?
  }

  // The entry a compensation event changes, and nothing else of the stack.
  lemma EntryEffect(last: Payload, s: RunData, e: Event)
    requires Legal(last, s, e) && TouchesEntry(e.payload) && StackInv(s) && ActiveInv(s)
    ensures var i := FirstEntry(s.stack, e.payload.node);
      && i < |s.stack| && s.stack[i].node == e.payload.node && !s.stack[i].completed
      && Step(s, e).stack == s.stack[i := if e.payload.CompensationTaskStarted?
                                          then s.stack[i].(attempt := e.payload.attempt)
                                          else s.stack[i].(completed := true)]
      && Step(s, e).active == (if e.payload.CompensationTaskStarted?
                               then Some(ActiveCompensation(e.payload.node, e.payload.worker, e.payload.attempt, e.timestamp)) else None)
      && Step(s, e).nodes == s.nodes
      && (e.payload.CompensationTaskStarted? ==> NextEntry(s) == Some(i))
  {
    if e.payload.CompensationTaskStarted? { EntryIsFirst(s, NextEntry(s).value); }
  }

  lemma StackKept(last: Payload, s: RunData, e: Event)
    requires Legal(last, s, e) && Inv(s)
    ensures StackInv(Step(s, e))
  {
    if e.payload.NodeCompleted? { CompletionStack(last, s, e); }
    else {
      LegalMoves(last, s, e);
      if TouchesEntry(e.payload) { EntryEffect(last, s, e); }
      else { StackUntouched(last, s, e); }
      StackUnderMoves(s, Step(s, e));
    }
  }

  lemma StackUntouched(last: Payload, s: RunData, e: Event)
    requires Legal(last, s, e) && !TouchesEntry(e.payload) && !e.payload.NodeCompleted?
    ensures Step(s, e).stack == s.stack
  {
    if TouchesNode(e.payload) { TouchMoves(last, s, e); }
  }

  lemma ActiveKept(last: Payload, s: RunData, e: Event)
    requires Legal(last, s, e) && Inv(s)
    ensures ActiveInv(Step(s, e))
  {
    if e.payload.NodeCompleted? { CompletionActive(last, s, e); }
    else if TouchesEntry(e.payload) { EntryActive(last, s, e); }
    else {
      StackUntouched(last, s, e);
      ActiveUntouched(last, s, e);
    }
  }

  lemma CompletionActive(last: Payload, s: RunData, e: Event)
    requires Legal(last, s, e) && e.payload.NodeCompleted? && Inv(s)
    ensures ActiveInv(Step(s, e))
  {
    CompletionStackShape(last, s, e);
    var t := Step(s, e);
    assert t.active == s.active && t.runState == s.runState;
    if s.active.Some? {
      var i := FirstEntry(s.stack, s.active.value.node);
      var k := FirstEntry(t.stack, s.active.value.node);
      assert t.stack[i] == s.stack[i];
      assert k <= i && t.stack[k] == s.stack[k];
      assert k == i;
    }
  }

  lemma EntryActive(last: Payload, s: RunData, e: Event)
    requires Legal(last, s, e) && TouchesEntry(e.payload) && StackInv(s) && ActiveInv(s)
    ensures ActiveInv(Step(s, e))
  {
    EntryEffect(last, s, e);
    var t := Step(s, e);
    assert t.runState == s.runState && !s.runState.RunRunning?;
    SameFirstEntry(s.stack, t.stack, e.payload.node);
  }

  // Elsewhere the active task can only be dropped or heard from again, and no
  // event brings a run back to RUNNING or takes an active task out of
  // COMPENSATING except to CANCELLED.
  lemma ActiveUntouched(last: Payload, s: RunData, e: Event)
    requires Legal(last, s, e) && ActiveInv(s) && !TouchesEntry(e.payload)
    ensures var t := Step(s, e);
      && (t.active.Some? ==> s.active.Some? && t.active.value == s.active.value.(heartbeat := t.active.value.heartbeat))
      && (t.runState.RunRunning? ==> s.runState.RunRunning?)
      && (t.active.Some? ==> t.runState.RunCompensating? || t.runState.RunCancelled?)
  {
    if TouchesNode(e.payload) { TouchMoves(last, s, e); }
    else if e.payload.NodeCompleted? {}
    else if e.payload.TimerFired? {}
    else if e.payload.HeartbeatRecorded? {}
    else {}
  }

  // ---- Run phase ----

  // Once the run is terminal and nothing runs, no event touches a node's state.
  lemma TerminalFreezes(last: Payload, s: RunData, e: Event)
    requires Legal(last, s, e) && s.Terminal() && forall n | n in s.nodes :: !s.nodes[n].state.Running?
    ensures Step(s, e).nodes == s.nodes
  {
  }

  lemma PhaseKept(last: Payload, s: RunData, e: Event)
    requires Legal(last, s, e) && Inv(s)
    ensures PhaseInv(Step(s, e))
  {
    if s.Terminal() {
      if s.runState.RunCancelled? || s.runState.RunCompleted? { TerminalFreezes(last, s, e); }
      TerminalPhase(last, s, e);
    } else {
      ForwardPhase(last, s, e);
    }
  }

  lemma TerminalPhase(last: Payload, s: RunData, e: Event)
    requires Legal(last, s, e) && s.Terminal() && s.finishedAt.Some?
    ensures Step(s, e).finishedAt.Some? && Step(s, e).cancelRequested == s.cancelRequested
    ensures Step(s, e).runState == s.runState || (s.runState.RunCancelled? && e.payload.WorkflowFailed? && Step(s, e).runState.RunFailed?)
  {
  }

  lemma ForwardPhase(last: Payload, s: RunData, e: Event)
    requires Legal(last, s, e) && !s.Terminal() && s.finishedAt.None?
    ensures PhaseInv(Step(s, e))
    ensures Step(s, e).Terminal() ==> Step(s, e).nodes == s.nodes
  {
    if TouchesNode(e.payload) { TouchMoves(last, s, e); }
    else if e.payload.NodeCompleted? {}
    else if e.payload.HeartbeatRecorded? {}
    else if e.payload.TimerFired? {}
    else {}
  }

  // ---- Timers ----

  lemma KeysGrow(last: Payload, s: RunData, e: Event)
    requires Legal(last, s, e) && Inv(s)
    ensures s.nodes.Keys <= Step(s, e).nodes.Keys
    ensures forall n | n in s.nodes :: Step(s, e).nodes[n].def == s.nodes[n].def
  {
    if e.payload.NodeCompleted? { CompletionEffect(last, s, e); }
    else {
      LegalMoves(last, s, e);
      assert forall n | n in s.nodes :: NodeMove(s.nodes[n], Step(s, e).nodes[n]);
    }
  }

  lemma TimerKept(last: Payload, s: RunData, e: Event)
    requires Legal(last, s, e) && Inv(s)
    ensures TimerInv(Step(s, e))
  {
    KeysGrow(last, s, e);
    LegalApplies(last, s, e);
    TimerEffect(last, s, e);
    ScheduledOk(last, s, e);
    hide Legal, Step, WellFormed, Readiness, Leased, StackInv, ActiveInv, PhaseInv;
    var t := Step(s, e);
    forall id | id in t.timers ensures TimerOk(t, id, t.timers[id]) {
      if id in s.timers { assert TimerOk(s, id, s.timers[id]); }
    }
  }

  lemma ScheduledOk(last: Payload, s: RunData, e: Event)
    requires Legal(last, s, e)
    ensures var p := e.payload;
      p.TimerScheduled? ==>
        p.timer == TimerId(s.runId, p.node, p.attempt, p.purpose) && p.node in s.nodes && (p.purpose.AbsDeadline? ==> p.attempt == 0)
  {
  }

  lemma TimersUntouched(last: Payload, s: RunData, e: Event)
    requires Legal(last, s, e) && !e.payload.TimerScheduled? && !e.payload.TimerFired?
    ensures Step(s, e).timers == s.timers
  {
    if TouchesNode(e.payload) { TouchMoves(last, s, e); }
    else if e.payload.NodeCompleted? {}
    else if e.payload.HeartbeatRecorded? {}
    else {}
  }

  lemma TimerMarked(last: Payload, s: RunData, e: Event)
    requires Legal(last, s, e) && TimerInv(s) && e.payload.TimerFired?
    ensures e.payload.timer in s.timers
    ensures Step(s, e).timers == s.timers[e.payload.timer := s.timers[e.payload.timer].(fired := true)]
  {
    assert TimerOk(s, e.payload.timer, s.timers[e.payload.timer]);
  }

  lemma TimerAdded(s: RunData, e: Event)
    requires e.payload.TimerScheduled?
    ensures var p := e.payload;
      Step(s, e).timers == s.timers[p.timer := Timer(p.timer, p.node, p.attempt, p.purpose, p.fireAt, false)]
  {
  }

  lemma TimerEffect(last: Payload, s: RunData, e: Event)
    requires Legal(last, s, e) && TimerInv(s)
    ensures e.payload.TimerFired? ==> e.payload.timer in s.timers
    ensures var p := e.payload;
      Step(s, e).timers ==
        if p.TimerScheduled? then s.timers[p.timer := Timer(p.timer, p.node, p.attempt, p.purpose, p.fireAt, false)]
        else if p.TimerFired? then s.timers[p.timer := s.timers[p.timer].(fired := true)]
        else s.timers
  {
    hide Legal, Step, TimerInv;
    if e.payload.TimerScheduled? { TimerAdded(s, e); }
    else if e.payload.TimerFired? { TimerMarked(last, s, e); }
    else { TimersUntouched(last, s, e); }
  }

  /** Every guarded event keeps every invariant. */
  lemma InvKept(last: Payload, s: RunData, e: Event)
    requires Legal(last, s, e) && Inv(s)
    ensures Inv(Step(s, e)) && ApplyEvent(s, e).ok
    ensures Step(s, e).lastSeq == e.seqNo == s.lastSeq + 1 && Step(s, e).runId == s.runId
  {
    WellFormedKept(last, s, e);
    ReadinessKept(last, s, e);
    LeasedKept(last, s, e);
    StackKept(last, s, e);
    ActiveKept(last, s, e);
    PhaseKept(last, s, e);
    TimerKept(last, s, e);
    LegalApplies(last, s, e);
  }
}
