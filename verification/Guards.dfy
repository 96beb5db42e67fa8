/** The guard under which the engine appends each kind of event, and the
    invariants of a run's state that every guarded event keeps. `Apply` checks
    almost nothing itself; legality comes from the engine. */
module Guards {
  import opened Runtime
  import opened State
  import opened TimerIds
  import opened Workflowdef
  import opened Graph
  import opened Strings
  import opened EngineSpec

  // ---- Guards ----

  predicate Holds(s: RunData, n: string, w: string, a: uint32) {
    n in s.nodes && s.nodes[n].state.Running? && s.nodes[n].worker == w && s.nodes[n].attempt == a
  }

  // Work is handed out only while the run goes forward.
  predicate Forward(s: RunData) {
    s.runState.RunRunning? && !s.cancelRequested
  }

  // Each timer is one the node's definition asks for, scheduled right after the event it
  // belongs to; the absolute deadline while the node runs and none is pending.
  predicate SchedulesLegally(last: Payload, s: RunData, id: string, n: string, a: uint32, p: TimerPurpose) {
    && n in s.nodes
    && id == TimerId(s.runId, n, a, p)
    && match p
       case ExecDeadline =>
         && s.nodes[n].state.Running? && a == s.nodes[n].attempt && last.NodeStarted? && last.node == n
         && s.nodes[n].def.executionDeadline > 0
       case AbsDeadline => s.nodes[n].state.Running? && a == 0 && !HasPendingAbsoluteTimer(s, n) && s.nodes[n].def.absoluteDeadline > 0
       case CheckpointTimeout =>
         && s.nodes[n].state.AwaitingApproval? && a == s.nodes[n].attempt && last.CheckpointReached? && last.node == n
         && s.nodes[n].def.checkpointTimeout > 0
       case RetryBackoff =>
         && s.nodes[n].state.Failed? && a == s.nodes[n].attempt
         && last.NodeFailed? && last.node == n && last.retryable
         && s.nodes[n].def.retry.Some? && s.nodes[n].def.retry.value.maxAttempts > 1 && a < s.nodes[n].def.retry.value.maxAttempts
  }

  /** `last` is the event before `e` in the log, `s` the state that log replays to. */
  ghost predicate Legal(last: Payload, s: RunData, e: Event) {
    && e.seqNo == s.lastSeq + 1
    && e.runId == s.runId
    && match e.payload
       case WorkflowStarted(_) => false
       case LeaseGranted(n, w, a) =>
         Forward(s) && n in s.nodes && s.nodes[n].state.Ready? && w != "" && a == NextAttempt(s.nodes[n].attempt)
       case HeartbeatRecorded(n, w, a) =>
         !s.Terminal() && (Holds(s, n, w, a) || ActiveIs(s, n, w, a))
       case LeaseExpired(n, w, a) =>
         Holds(s, n, w, a) && Overdue(s.nodes[n], e.timestamp)
       case CancellationRequested => !s.Terminal() && !s.cancelRequested
       case CancellationCompleted => !s.Terminal() && s.cancelRequested && AllNodesTerminal(s)
       case CompensationStarted => Forward(s) && HasUnrecoveredFailure(s) && HasCompensationWork(s)
       case CompensationTaskStarted(n, w, a) =>
         && s.runState.RunCompensating? && !s.cancelRequested && w != ""
         && NextEntry(s).Some?
         && var entry := s.stack[NextEntry(s).value];
            n == entry.node && a == NextAttempt(entry.attempt)
       case CompensationTaskCompleted(n, w, a) => ActiveIs(s, n, w, a)
       case CompensationTaskExpired(n, w, a) =>
         ActiveIs(s, n, w, a) && e.timestamp - s.active.value.heartbeat > HEARTBEAT_TIMEOUT
       case CompensationTaskFailed(n, w, a) => ActiveIs(s, n, w, a)
       case CompensationCompleted =>
         s.runState.RunCompensating? && !s.cancelRequested && s.active.None? && NextEntry(s).None?
       case TimerScheduled(id, n, a, p, _) => SchedulesLegally(last, s, id, n, a, p)
       case TimerFired(id, n, a, p) =>
         && Due(s, id, e.timestamp)
         && s.timers[id].node == n && s.timers[id].attempt == a && s.timers[id].purpose == p
       case CheckpointReached(n, w, a) => Holds(s, n, w, a) && !s.cancelRequested
       case CheckpointApproved(n) => !s.Terminal() && n in s.nodes && s.nodes[n].state.AwaitingApproval?
       case NodeReady(_) => false
       case NodeStarted(n, w, a) =>
         && Forward(s) && n in s.nodes && s.nodes[n].state.Ready? && w != ""
         && s.nodes[n].worker == w && s.nodes[n].attempt == a
       case NodeCancelled(n, w, a) =>
         || Holds(s, n, w, a)
         || (!s.Terminal() && s.cancelRequested && n in s.nodes && Cancellable(s.nodes[n].state))
       case NodeCompleted(n, w, a, spawned) =>
         Holds(s, n, w, a) && !s.cancelRequested && SpawnOk(s.nodes, spawned)
       case NodeFailed(n, w, a, retryable, timedOut) =>
         || (!timedOut && Holds(s, n, w, a) && !s.cancelRequested)
         || (timedOut && !retryable && !s.Terminal() && last.TimerFired? && last.node == n
             && ShouldFailForTimer(s.nodes, Timer("", n, last.attempt, last.purpose, 0, true))
             && s.nodes[n].worker == w && s.nodes[n].attempt == a)
       case WorkflowFailed =>
         || (Forward(s) && HasUnrecoveredFailure(s) && !HasCompensationWork(s))
         || (last.CompensationTaskFailed? && s.active.None? && (s.runState.RunCompensating? || s.runState.RunCancelled?))
       case WorkflowCompleted => Forward(s) && AllNodesCompleted(s)
  }

  // ---- Invariants ----

  ghost predicate WellFormed(nodes: Nodes) {
    && nodes != map[]
    && forall n | n in nodes ::
         nodes[n].def.id == n && forall d | d in nodes[n].def.dependsOn :: d in nodes
  }

  predicate ReadinessOf(nodes: Nodes, n: Node) {
    && (n.state.Pending? ==> !DepsCompleted(nodes, n.def.dependsOn))
    && (!n.state.Pending? && !n.state.Cancelled? ==> DepsCompleted(nodes, n.def.dependsOn))
  }

  /** PENDING exactly while some dependency is not COMPLETED (CANCELLED aside). */
  ghost predicate Readiness(nodes: Nodes) {
    forall n | n in nodes :: ReadinessOf(nodes, nodes[n])
  }

  ghost predicate Leased(nodes: Nodes) {
    forall n | n in nodes && nodes[n].state.Running? :: nodes[n].worker != "" && nodes[n].heartbeat.Some?
  }

  predicate EntryOk(nodes: Nodes, c: CompensationEntry) {
    && c.node in nodes
    && nodes[c.node].state.Completed?
    && nodes[c.node].def.compensation == c.activity != ""
  }

  /** The stack lists exactly the completed compensable nodes, each once. */
  ghost predicate StackInv(s: RunData) {
    && (forall i | 0 <= i < |s.stack| :: EntryOk(s.nodes, s.stack[i]))
    && (forall i, j | 0 <= i < j < |s.stack| :: s.stack[i].node != s.stack[j].node)
    && forall n | n in s.nodes && s.nodes[n].state.Completed? && s.nodes[n].def.compensation != "" ::
         FirstEntry(s.stack, n) < |s.stack|
  }

  ghost predicate ActiveInv(s: RunData) {
    && (s.active.Some? ==>
          var i := FirstEntry(s.stack, s.active.value.node);
          && i < |s.stack|
          && !s.stack[i].completed
          && s.stack[i].attempt == s.active.value.attempt
          && s.active.value.worker != ""
          && (s.runState.RunCompensating? || s.runState.RunCancelled?))
    && (s.runState.RunRunning? ==> forall i | 0 <= i < |s.stack| :: !s.stack[i].completed)
  }

  ghost predicate PhaseInv(s: RunData) {
    && (s.finishedAt.Some? <==> s.Terminal())
    && (s.runState.RunCancelled? ==> s.cancelRequested && AllNodesTerminal(s))
    && (s.runState.RunCompleted? ==> AllNodesCompleted(s))
  }

  predicate TimerOk(s: RunData, id: string, t: Timer) {
    && t.id == id == TimerId(s.runId, t.node, t.attempt, t.purpose)
    && t.node in s.nodes
    && (t.purpose.AbsDeadline? ==> t.attempt == 0)
  }

  ghost predicate TimerInv(s: RunData) {
    forall id | id in s.timers :: TimerOk(s, id, s.timers[id])
  }

  ghost predicate Inv(s: RunData) {
    && WellFormed(s.nodes)
    && Readiness(s.nodes)
    && Leased(s.nodes)
    && StackInv(s)
    && ActiveInv(s)
    && PhaseInv(s)
    && TimerInv(s)
  }

  // ---- What one event does to the nodes ----

  predicate StateMove(a: NodeState, b: NodeState) {
    a == b ||
    match a
    case Pending => b.Cancelled?
    case Ready => b.Running? || b.Failed? || b.Cancelled?
    case Running => b.Ready? || b.AwaitingApproval? || b.Failed? || b.Cancelled?
    case AwaitingApproval => b.Ready? || b.Failed? || b.Cancelled?
    case Failed => b.Ready?
    case Completed => false
    case Cancelled => false
  }

  predicate NodeMove(a: Node, b: Node) {
    b.def == a.def && StateMove(a.state, b.state)
  }

  ghost predicate NodesMove(a: Nodes, b: Nodes) {
    a.Keys == b.Keys && forall n | n in a :: NodeMove(a[n], b[n])
  }

  predicate ChangesGraph(p: Payload) {
    p.WorkflowStarted? || p.NodeCompleted?
  }

  lemma OneMove(a: Nodes, n: string, b: Node)
    requires n in a && NodeMove(a[n], b)
    ensures NodesMove(a, a[n := b])
  {
  }

  predicate TouchesNode(p: Payload) {
    p.LeaseGranted? || p.LeaseExpired? || p.CheckpointReached? || p.CheckpointApproved? ||
    p.NodeStarted? || p.NodeCancelled? || p.NodeFailed?
  }

  lemma TouchMoves(last: Payload, s: RunData, e: Event)
    requires Legal(last, s, e) && TouchesNode(e.payload)
    ensures ApplyEvent(s, e).ok && e.payload.node in s.nodes && e.payload.node in Step(s, e).nodes
    ensures Step(s, e) == s.(lastSeq := e.seqNo, nodes := s.nodes[e.payload.node := Step(s, e).nodes[e.payload.node]])
    ensures NodeMove(s.nodes[e.payload.node], Step(s, e).nodes[e.payload.node])
    ensures NodesMove(s.nodes, Step(s, e).nodes)
  {
    OneMove(s.nodes, e.payload.node, Step(s, e).nodes[e.payload.node]);
  }

  // A heartbeat moves heartbeat times only.
  lemma BeatEffect(s: RunData, e: Event)
    requires e.payload.HeartbeatRecorded?
    ensures var t := Step(s, e);
      && t == s.(nodes := t.nodes, active := t.active, lastSeq := t.lastSeq)
      && t.active.Some? == s.active.Some?
      && t.nodes.Keys == s.nodes.Keys
      && forall m | m in s.nodes :: t.nodes[m] == s.nodes[m].(heartbeat := t.nodes[m].heartbeat)
  {
  }

  // A firing timer changes at most one node: a failed one becomes READY again.
  lemma FireEffect(s: RunData, e: Event)
    requires e.payload.TimerFired? && e.payload.timer in s.timers
    ensures var n := e.payload.node;
      || Step(s, e).nodes == s.nodes
      || (n in s.nodes && s.nodes[n].state.Failed? &&
          Step(s, e).nodes == s.nodes[n := s.nodes[n].(state := Ready, worker := "", heartbeat := None)])
  {
  }

  lemma BeatMoves(last: Payload, s: RunData, e: Event)
    requires Legal(last, s, e) && e.payload.HeartbeatRecorded? && ActiveInv(s) && StackInv(s)
    ensures ApplyEvent(s, e).ok && e.payload.node in s.nodes
    ensures NodesMove(s.nodes, Step(s, e).nodes)
  {
    var n := e.payload.node;
    OneMove(s.nodes, n, s.nodes[n].(heartbeat := Some(e.timestamp)));
    OneMove(s.nodes, n, s.nodes[n]);
  }

  lemma FireMoves(last: Payload, s: RunData, e: Event)
    requires Legal(last, s, e) && e.payload.TimerFired? && TimerInv(s)
    ensures ApplyEvent(s, e).ok && e.payload.node in s.nodes
    ensures NodesMove(s.nodes, Step(s, e).nodes)
  {
    var n := e.payload.node;
    assert TimerOk(s, e.payload.timer, s.timers[e.payload.timer]);
    if s.nodes[n].state.Failed? {
      OneMove(s.nodes, n, s.nodes[n].(state := Ready, worker := "", heartbeat := None));
    }
    OneMove(s.nodes, n, s.nodes[n]);
  }

  lemma LegalMoves(last: Payload, s: RunData, e: Event)
    requires Legal(last, s, e) && !ChangesGraph(e.payload)
    requires TimerInv(s) && ActiveInv(s) && StackInv(s)
    ensures NodesMove(s.nodes, Step(s, e).nodes)
  {
    hide Legal, Step, TimerInv, ActiveInv, StackInv, NodesMove;
    LegalBasics(last, s, e);
    if TouchesNode(e.payload) { TouchMoves(last, s, e); }
    else if e.payload.HeartbeatRecorded? { BeatMoves(last, s, e); }
    else if e.payload.TimerFired? { FireMoves(last, s, e); }
    else { RestMoves(s, e); }
  }

  lemma RestMoves(s: RunData, e: Event)
    requires !ChangesGraph(e.payload) && !TouchesNode(e.payload) && !e.payload.NodeReady?
    requires !e.payload.HeartbeatRecorded? && !e.payload.TimerFired?
    ensures NodesMove(s.nodes, Step(s, e).nodes)
  {
    assert Step(s, e).nodes == s.nodes;
  }

  lemma LegalBasics(last: Payload, s: RunData, e: Event)
    requires Legal(last, s, e)
    ensures e.seqNo == s.lastSeq + 1 && e.runId == s.runId && !e.payload.WorkflowStarted? && !e.payload.NodeReady?
    ensures e.payload.NodeCompleted? ==> Holds(s, e.payload.node, e.payload.worker, e.payload.attempt)
  {
  }

  // A legal event is never refused.
  lemma LegalApplies(last: Payload, s: RunData, e: Event)
    requires Legal(last, s, e) && TimerInv(s) && StackInv(s) && ActiveInv(s)
    ensures ApplyEvent(s, e).ok
    ensures Step(s, e).lastSeq == e.seqNo && Step(s, e).runId == s.runId
  {
    hide Legal, TimerInv, StackInv, ActiveInv, NodesMove;
    LegalBasics(last, s, e);
    if TouchesNode(e.payload) { TouchMoves(last, s, e); }
    else if e.payload.HeartbeatRecorded? { BeatMoves(last, s, e); }
    else if e.payload.TimerFired? { FireMoves(last, s, e); }
  }
}
