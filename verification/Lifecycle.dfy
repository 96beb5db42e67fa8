/** The life of a node and of a run, field by field: exactly which events give a field
    its value (internal/state/state.go, Apply). Nothing here asks for legality. */
module Lifecycle {
  import opened Runtime
  import opened State
  import opened Workflowdef

  // ---- Refusals ----

  predicate AboutNode(p: Payload) {
    p.LeaseGranted? || p.LeaseExpired? || p.CheckpointReached? || p.CheckpointApproved? || p.NodeReady? ||
    p.NodeStarted? || p.NodeCancelled? || p.NodeCompleted? || p.NodeFailed?
  }

  predicate About(p: Payload, n: string) {
    AboutNode(p) && p.node == n
  }

  predicate BeatsTask(s: RunData, p: Payload) {
    p.HeartbeatRecorded? && s.active.Some? &&
    s.active.value.node == p.node && s.active.value.worker == p.worker && s.active.value.attempt == p.attempt
  }

  predicate Refused(s: RunData, p: Payload) {
    || (AboutNode(p) && p.node !in s.nodes)
    || (p.LeaseExpired? && p.node in s.nodes && p.attempt != s.nodes[p.node].attempt)
    || (p.HeartbeatRecorded? && p.node !in s.nodes && !BeatsTask(s, p))
    || (p.TimerFired? && (p.timer !in s.timers || (p.purpose.RetryBackoff? && p.node !in s.nodes)))
  }

  /** Apply refuses events about unknown nodes and timers, beats of nobody, and the
      expiry of another attempt. A refused event changes nothing, except that a backoff
      of an unknown node counts as fired. */
  lemma RefusedIff(s: RunData, e: Event)
    ensures ApplyEvent(s, e).ok <==> !Refused(s, e.payload)
    ensures ApplyEvent(s, e).ok ==> Step(s, e).lastSeq == e.seqNo
    ensures Refused(s, e.payload) ==>
      Step(s, e) == if e.payload.TimerFired? && e.payload.timer in s.timers
                    then s.(timers := s.timers[e.payload.timer := s.timers[e.payload.timer].(fired := true)]) else s
  {
  }

  // ---- One node ----

  // The events after which a node's state is decided by the event alone.
  predicate Moves(p: Payload, n: string) {
    About(p, n) && (p.LeaseExpired? || p.CheckpointReached? || p.NodeStarted? || p.NodeCancelled? || p.NodeFailed?)
  }

  predicate Approves(p: Payload, n: string, was: Node) {
    p.CheckpointApproved? && p.node == n && was.state.AwaitingApproval?
  }

  predicate Promotes(p: Payload, n: string, was: Node) {
    p.NodeReady? && p.node == n && was.state.Pending?
  }

  predicate Revives(p: Payload, n: string, was: Node) {
    p.TimerFired? && p.purpose.RetryBackoff? && p.node == n && p.attempt == was.attempt && was.state.Failed?
  }

  // The node is nobody's any more.
  predicate Releases(p: Payload, n: string, was: Node) {
    || (About(p, n) && (p.LeaseExpired? || p.CheckpointReached? || p.NodeCancelled?))
    || Approves(p, n, was) || Revives(p, n, was)
  }

  predicate Assigns(p: Payload, n: string) {
    About(p, n) && (p.LeaseGranted? || p.NodeStarted? || p.NodeFailed?)
  }

  predicate Beats(p: Payload, n: string, was: Node) {
    p.HeartbeatRecorded? && p.node == n && p.worker == was.worker && p.attempt == was.attempt
  }

  /** State by state, what brings a node there or leaves it there. */
  ghost predicate StateFollows(p: Payload, n: string, was: Node, next: Node) {
    && (next.state.Ready? <==>
          || (About(p, n) && p.LeaseExpired?) || Approves(p, n, was) || Promotes(p, n, was) || Revives(p, n, was)
          || (was.state.Ready? && !Moves(p, n)))
    && (next.state.Running? <==> (About(p, n) && p.NodeStarted?) || (was.state.Running? && !Moves(p, n)))
    && (next.state.AwaitingApproval? <==>
          (About(p, n) && p.CheckpointReached?) || (was.state.AwaitingApproval? && !Moves(p, n) && !Approves(p, n, was)))
    && (next.state.Cancelled? <==> (About(p, n) && p.NodeCancelled?) || (was.state.Cancelled? && !Moves(p, n)))
    && (next.state.Failed? <==> (About(p, n) && p.NodeFailed?) || (was.state.Failed? && !Moves(p, n) && !Revives(p, n, was)))
    && (next.state.Completed? <==> was.state.Completed? && !Moves(p, n))
    && (next.state.Pending? <==> was.state.Pending? && !Moves(p, n) && !Promotes(p, n, was))
  }

  /** Whose the node is: the events that name a holder give it one, the events that
      release it leave none, and only its holder's heartbeats count. */
  ghost predicate HolderFollows(e: Event, n: string, was: Node, next: Node) {
    var p := e.payload;
    && next.def == was.def
    && next.attempt == (if Assigns(p, n) then p.attempt else was.attempt)
    && next.worker == (if Assigns(p, n) then p.worker else if Releases(p, n, was) then "" else was.worker)
    && next.heartbeat == (if (Assigns(p, n) && !p.NodeFailed?) || Beats(p, n, was) then Some(e.timestamp)
                        else if Assigns(p, n) || Releases(p, n, was) then None else was.heartbeat)
  }

  /** Every event but a start or a completion, for every node of the graph. */
  lemma NodeFollows(s: RunData, e: Event, n: string)
    requires !Refused(s, e.payload) && !e.payload.WorkflowStarted? && !e.payload.NodeCompleted?
    ensures Step(s, e).nodes.Keys == s.nodes.Keys
    ensures n in s.nodes ==>
      StateFollows(e.payload, n, s.nodes[n], Step(s, e).nodes[n]) && HolderFollows(e, n, s.nodes[n], Step(s, e).nodes[n])
  {
    if AboutNode(e.payload) { NodeFollowsReport(s, e, n); }
    else if e.payload.TimerFired? { NodeFollowsFiring(s, e, n); }
    else if e.payload.HeartbeatRecorded? { NodeFollowsBeat(s, e, n); }
    else { NodesUnmoved(s, e); }
    hide Step, Refused;
  }

  lemma NodeFollowsReport(s: RunData, e: Event, n: string)
    requires !Refused(s, e.payload) && AboutNode(e.payload) && !e.payload.NodeCompleted?
    ensures Step(s, e).nodes.Keys == s.nodes.Keys
    ensures n in s.nodes ==>
      StateFollows(e.payload, n, s.nodes[n], Step(s, e).nodes[n]) && HolderFollows(e, n, s.nodes[n], Step(s, e).nodes[n])
  {
    OnlyNode(s, e);
    if n == e.payload.node {
      OwnState(s, e);
      OwnHolder(s, e);
    }
    hide Step, Refused;
  }

  lemma OnlyNode(s: RunData, e: Event)
    requires !Refused(s, e.payload) && AboutNode(e.payload) && !e.payload.NodeCompleted?
    ensures e.payload.node in s.nodes && e.payload.node in Step(s, e).nodes
    ensures Step(s, e).nodes == s.nodes[e.payload.node := Step(s, e).nodes[e.payload.node]]
  {
  }

  lemma OwnState(s: RunData, e: Event)
    requires !Refused(s, e.payload) && AboutNode(e.payload) && !e.payload.NodeCompleted?
    requires e.payload.node in s.nodes && e.payload.node in Step(s, e).nodes
    ensures StateFollows(e.payload, e.payload.node, s.nodes[e.payload.node], Step(s, e).nodes[e.payload.node])
  {
  }

  lemma OwnHolder(s: RunData, e: Event)
    requires !Refused(s, e.payload) && AboutNode(e.payload) && !e.payload.NodeCompleted?
    requires e.payload.node in s.nodes && e.payload.node in Step(s, e).nodes
    ensures HolderFollows(e, e.payload.node, s.nodes[e.payload.node], Step(s, e).nodes[e.payload.node])
  {
  }

  lemma NodeFollowsFiring(s: RunData, e: Event, n: string)
    requires !Refused(s, e.payload) && e.payload.TimerFired?
    ensures Step(s, e).nodes.Keys == s.nodes.Keys
    ensures n in s.nodes ==>
      StateFollows(e.payload, n, s.nodes[n], Step(s, e).nodes[n]) && HolderFollows(e, n, s.nodes[n], Step(s, e).nodes[n])
  {
  }

  lemma NodeFollowsBeat(s: RunData, e: Event, n: string)
    requires !Refused(s, e.payload) && e.payload.HeartbeatRecorded?
    ensures Step(s, e).nodes.Keys == s.nodes.Keys
    ensures n in s.nodes ==>
      StateFollows(e.payload, n, s.nodes[n], Step(s, e).nodes[n]) && HolderFollows(e, n, s.nodes[n], Step(s, e).nodes[n])
  {
    BeatNode(s, e, n);
    hide Step, Refused;
  }

  lemma BeatNode(s: RunData, e: Event, n: string)
    requires e.payload.HeartbeatRecorded?
    ensures Step(s, e).nodes.Keys == s.nodes.Keys
    ensures n in s.nodes ==>
      Step(s, e).nodes[n] == if Beats(e.payload, n, s.nodes[n]) then s.nodes[n].(heartbeat := Some(e.timestamp)) else s.nodes[n]
  {
  }

  lemma NodesUnmoved(s: RunData, e: Event)
    requires !AboutNode(e.payload) && !e.payload.TimerFired? && !e.payload.HeartbeatRecorded? && !e.payload.WorkflowStarted?
    ensures Step(s, e).nodes == s.nodes
  {
  }

  // ---- The graph: starts and completions ----

  // As a node enters: never leased, READY exactly if everything it depends on is COMPLETED.
  ghost predicate Enters(nodes: Nodes, def: NodeDef) {
    def.id in nodes && exists st: NodeState ::
      && nodes[def.id] == Node(def, st, 0, "", None)
      && st == if forall d | d in def.dependsOn :: d in nodes && nodes[d].state.Completed? then Ready else Pending
  }

  // What a completion leaves of a node that was there before.
  ghost predicate StaysBut(nodes: Nodes, was: Node, next: Node) {
    next == if was.state.Pending? && forall d | d in was.def.dependsOn :: d in nodes && nodes[d].state.Completed?
          then was.(state := Ready) else was
  }

  lemma MarkedDeps(nodes: Nodes, deps: seq<string>)
    ensures DepsCompleted(MarkReady(nodes), deps) <==> DepsCompleted(nodes, deps)
  {
    forall d | d in nodes ensures MarkReady(nodes)[d].state.Completed? <==> nodes[d].state.Completed? {}
  }

  lemma StartGraph(s: RunData, e: Event)
    requires e.payload.WorkflowStarted? && s.nodes == map[] && UniqueIds(e.payload.def.nodes)
    ensures var t := Step(s, e); var defs := e.payload.def.nodes;
      && t == s.(runId := e.runId, runState := RunRunning, nodes := t.nodes, lastSeq := e.seqNo)
      && t.nodes.Keys == Ids(defs)
      && forall i | 0 <= i < |defs| :: Enters(t.nodes, defs[i])
  {
    var defs := e.payload.def.nodes;
    var g := InsertDefs(map[], defs);
    InsertedDefs(map[], defs);
    forall n | n in g ensures n in Ids(defs) {
      assert HasId(defs, n);
      var i :| 0 <= i < |defs| && defs[i].id == n;
    }
    forall i | 0 <= i < |defs| ensures Enters(MarkReady(g), defs[i]) { EntersMarked(g, defs[i]); }
  }

  lemma EntersMarked(g: Nodes, def: NodeDef)
    requires def.id in g && g[def.id] == NewNode(def)
    ensures Enters(MarkReady(g), def)
  {
    MarkedDeps(g, def.dependsOn);
    var nodes := MarkReady(g);
    assert nodes[def.id] == Node(def, nodes[def.id].state, 0, "", None);
  }

  /** A completion: the node is COMPLETED under the reported holder, pushed if its
      definition asks for compensation; the spawned nodes enter; PENDING nodes all of
      whose dependencies are COMPLETED now become READY; nothing else changes. */
  lemma CompletionFollows(s: RunData, e: Event)
    requires e.payload.NodeCompleted? && e.payload.node in s.nodes
    requires UniqueIds(e.payload.spawned) && forall i | 0 <= i < |e.payload.spawned| :: e.payload.spawned[i].id !in s.nodes
    ensures var t := Step(s, e); var p := e.payload; var def := s.nodes[p.node].def;
      && t == s.(nodes := t.nodes, stack := t.stack, lastSeq := e.seqNo)
      && t.stack == (if def.compensation == "" then s.stack else s.stack + [CompensationEntry(def.id, def.compensation, false, 0)])
      && t.nodes.Keys == s.nodes.Keys + Ids(p.spawned)
      && t.nodes[p.node] == Node(def, Completed, p.attempt, p.worker, None)
      && (forall m | m in s.nodes && m != p.node :: StaysBut(t.nodes, s.nodes[m], t.nodes[m]))
      && (forall i | 0 <= i < |p.spawned| :: Enters(t.nodes, p.spawned[i]))
  {
    var p := e.payload;
    var done := s.nodes[p.node := s.nodes[p.node].(state := Completed, worker := p.worker, attempt := p.attempt, heartbeat := None)];
    var g := InsertDefs(done, p.spawned);
    Inserted(done, p.spawned);
    CompletionShape(s, e);
    hide Step, InsertDefs;
    var t := MarkReady(g);
    forall m | m in s.nodes && m != p.node ensures StaysBut(t, s.nodes[m], t[m]) { MarkedDeps(g, s.nodes[m].def.dependsOn); }
    forall i | 0 <= i < |p.spawned| ensures Enters(t, p.spawned[i]) { EntersMarked(g, p.spawned[i]); }
  }

  lemma CompletionShape(s: RunData, e: Event)
    requires e.payload.NodeCompleted? && e.payload.node in s.nodes
    ensures var p := e.payload; var def := s.nodes[p.node].def;
      var done := s.nodes[p.node := s.nodes[p.node].(state := Completed, worker := p.worker, attempt := p.attempt, heartbeat := None)];
      Step(s, e) == s.(
        stack := if def.compensation == "" then s.stack else s.stack + [CompensationEntry(def.id, def.compensation, false, 0)],
        nodes := MarkReady(InsertDefs(done, p.spawned)), lastSeq := e.seqNo)
  {
    hide MarkReady, InsertDefs;
  }

  lemma Inserted(nodes: Nodes, defs: seq<NodeDef>)
    requires UniqueIds(defs) && forall i | 0 <= i < |defs| :: defs[i].id !in nodes
    ensures var g := InsertDefs(nodes, defs);
      && g.Keys == nodes.Keys + Ids(defs)
      && (forall m | m in nodes :: g[m] == nodes[m])
      && forall i | 0 <= i < |defs| :: g[defs[i].id] == NewNode(defs[i])
  {
    InsertedDefs(nodes, defs);
    hide InsertDefs;
    forall n ensures HasId(defs, n) <==> n in Ids(defs) {}
    assert forall m | m in nodes :: !HasId(defs, m);
  }

  // ---- The run ----

  predicate Ends(p: Payload) {
    p.WorkflowCompleted? || p.WorkflowFailed? || p.CancellationCompleted? || p.CompensationCompleted?
  }

  // What becomes of the run's state.
  predicate OutcomeFollows(p: Payload, was: RunState, next: RunState) {
    && (next.RunCompleted? <==> p.WorkflowCompleted? || (was.RunCompleted? && !Turns(p)))
    && (next.RunFailed? <==> p.WorkflowFailed? || (was.RunFailed? && !Turns(p)))
    && (next.RunCancelled? <==> p.CancellationCompleted? || (was.RunCancelled? && !Turns(p)))
    && (next.RunCompensated? <==> p.CompensationCompleted? || (was.RunCompensated? && !Turns(p)))
    && (next.RunCompensating? <==> p.CompensationStarted? || (was.RunCompensating? && !Turns(p)))
  }

  predicate Turns(p: Payload) {
    Ends(p) || p.CompensationStarted? || p.WorkflowStarted?
  }

  predicate RunFieldsFollow(e: Event, was: RunData, next: RunData) {
    && OutcomeFollows(e.payload, was.runState, next.runState)
    && (next.cancelRequested <==> was.cancelRequested || e.payload.CancellationRequested?)
    && next.finishedAt == (if Ends(e.payload) then Some(e.timestamp) else was.finishedAt)
    && next.runId == (if e.payload.WorkflowStarted? then e.runId else was.runId)
  }

  /** The run's own fields: its state is the last transition's, its end is stamped by
      the event that ends it, and a request for cancellation stays. */
  lemma RunFollows(s: RunData, e: Event)
    requires !Refused(s, e.payload)
    ensures RunFieldsFollow(e, s, Step(s, e))
  {
    if AboutNode(e.payload) { RunFollowsReport(s, e); }
    else { RunFollowsRest(s, e); }
  }

  lemma RunFollowsReport(s: RunData, e: Event)
    requires !Refused(s, e.payload) && AboutNode(e.payload)
    ensures RunFieldsFollow(e, s, Step(s, e))
  {
    RunUnmoved(s, e);
    hide Step, Refused;
  }

  lemma RunUnmoved(s: RunData, e: Event)
    requires AboutNode(e.payload) || e.payload.HeartbeatRecorded? || e.payload.TimerFired?
    ensures var t := Step(s, e);
      t == s.(nodes := t.nodes, stack := t.stack, active := t.active, timers := t.timers, lastSeq := t.lastSeq)
    ensures ChangesOneNode(e) ==> Step(s, e).stack == s.stack && Step(s, e).active == s.active
    ensures e.payload.TimerFired? ==> Step(s, e).stack == s.stack && Step(s, e).active == s.active
  {
    if ChangesOneNode(e) {
      OneNodeShape(s, e);
      hide Step;
      if !ApplyEvent(s, e).ok { RefusedIff(s, e); }
    }
  }

  lemma RunFollowsRest(s: RunData, e: Event)
    requires !Refused(s, e.payload) && !AboutNode(e.payload)
    ensures RunFieldsFollow(e, s, Step(s, e))
  {
    if e.payload.HeartbeatRecorded? || e.payload.TimerFired? { RunUnmoved(s, e); }
    else if Turns(e.payload) || e.payload.CancellationRequested? { RunTurns(s, e); }
    else { RunIdle(s, e); }
    hide Step, Refused;
  }

  lemma RunTurns(s: RunData, e: Event)
    requires Turns(e.payload) || e.payload.CancellationRequested?
    ensures RunFieldsFollow(e, s, Step(s, e))
  {
    hide MarkReady, InsertDefs;
  }

  lemma RunIdle(s: RunData, e: Event)
    requires !Turns(e.payload) && !e.payload.CancellationRequested? && !AboutNode(e.payload)
    requires !e.payload.HeartbeatRecorded? && !e.payload.TimerFired?
    ensures var t := Step(s, e); t == s.(stack := t.stack, active := t.active, timers := t.timers, lastSeq := t.lastSeq)
  {
    hide MarkEntryCompleted;
  }

  // ---- Compensation ----

  predicate ClosesTask(p: Payload) {
    p.CompensationTaskCompleted? || p.CompensationTaskExpired? || p.CompensationTaskFailed? || p.CompensationCompleted?
  }

  // Entry i is the one an event about a task of node n means: the node's first.
  predicate Meant(stack: seq<CompensationEntry>, i: nat, n: string) {
    i < |stack| && stack[i].node == n && forall j | 0 <= j < i :: stack[j].node != n
  }

  ghost predicate StackKept(p: Payload, was: seq<CompensationEntry>, next: seq<CompensationEntry>) {
    |next| == |was| && forall i | 0 <= i < |was| ::
      next[i] == if p.CompensationTaskStarted? && Meant(was, i, p.node) then was[i].(attempt := p.attempt)
                 else if p.CompensationTaskCompleted? && Meant(was, i, p.node) then was[i].(completed := true) else was[i]
  }

  /** A task's start gives the entry of its node the attempt, its completion marks it;
      one task is open at most, from its start until it is reported on or expires. */
  lemma StackFollows(s: RunData, e: Event)
    requires !Refused(s, e.payload) && !e.payload.NodeCompleted?
    ensures var t := Step(s, e); var p := e.payload;
      && StackKept(p, s.stack, t.stack)
      && (t.active == if p.CompensationTaskStarted? && (exists i :: Meant(s.stack, i, p.node))
                      then Some(ActiveCompensation(p.node, p.worker, p.attempt, e.timestamp))
                      else if ClosesTask(p) then None
                      else if BeatsTask(s, p) then Some(s.active.value.(heartbeat := e.timestamp)) else s.active)
  {
    if e.payload.CompensationTaskStarted? || e.payload.CompensationTaskCompleted? { TaskFollows(s, e); }
    else {
      StackUnmoved(s, e);
      hide Step, Refused;
    }
  }

  lemma TaskFollows(s: RunData, e: Event)
    requires e.payload.CompensationTaskStarted? || e.payload.CompensationTaskCompleted?
    ensures var t := Step(s, e); var p := e.payload;
      && StackKept(p, s.stack, t.stack)
      && t.active == if p.CompensationTaskCompleted? then None
                     else if exists i :: Meant(s.stack, i, p.node)
                     then Some(ActiveCompensation(p.node, p.worker, p.attempt, e.timestamp)) else s.active
  {
    var n := e.payload.node;
    var f := FirstEntry(s.stack, n);
    assert forall i | 0 <= i < |s.stack| :: Meant(s.stack, i, n) <==> i == f;
    assert f < |s.stack| ==> Meant(s.stack, f, n);
  }

  lemma StackUnmoved(s: RunData, e: Event)
    requires !Refused(s, e.payload) && !e.payload.NodeCompleted? && !e.payload.CompensationTaskStarted? && !e.payload.CompensationTaskCompleted?
    ensures var t := Step(s, e); var p := e.payload;
      && t.stack == s.stack
      && t.active == if ClosesTask(p) then None
                     else if BeatsTask(s, p) then Some(s.active.value.(heartbeat := e.timestamp)) else s.active
  {
    if ChangesOneNode(e) || e.payload.TimerFired? {
      RunUnmoved(s, e);
      hide Step, Refused;
    } else if e.payload.HeartbeatRecorded? {
      BeatTask(s, e);
      hide Step, Refused;
    }
  }

  lemma BeatTask(s: RunData, e: Event)
    requires !Refused(s, e.payload) && e.payload.HeartbeatRecorded?
    ensures Step(s, e).stack == s.stack
    ensures Step(s, e).active == if BeatsTask(s, e.payload) then Some(s.active.value.(heartbeat := e.timestamp)) else s.active
  {
  }

  // ---- Timers ----

  lemma TimersFollow(s: RunData, e: Event)
    requires !Refused(s, e.payload)
    ensures var t := Step(s, e); var p := e.payload;
      t.timers == if p.TimerScheduled? then s.timers[p.timer := Timer(p.timer, p.node, p.attempt, p.purpose, p.fireAt, false)]
                  else if p.TimerFired? then s.timers[p.timer := s.timers[p.timer].(fired := true)] else s.timers
  {
    if ChangesOneNode(e) {
      OneNodeShape(s, e);
      if !ApplyEvent(s, e).ok { RefusedIff(s, e); }
      hide Step, Refused;
    } else if !e.payload.TimerFired? {
      hide MarkReady, InsertDefs, MarkEntryCompleted, Refused;
    }
  }
}
