/** What each locked engine operation appends to a run's log, as a function of
    the run's state (internal/engine/engine.go). `clock(k)` is the wall-clock
    reading stamped on event number k; nothing is assumed about it. `order`
    arguments are the arbitrary iteration orders of Go maps. */
module EngineSpec {
  import opened Runtime
  import opened State
  import opened TimerIds
  import opened Workflowdef
  import opened Graph
  import opened Strings

  type Clock = nat -> Time

  // Registered workers and their activities; an empty worker id is refused at registration.
  type Registry = r: map<string, seq<string>> | "" !in r witness map[]

  predicate CanHandle(reg: Registry, worker: string, activity: string) {
    worker in reg && activity in reg[worker]
  }

  datatype Error =
    | NoError | RunNotFound | TaskNotFound | LeaseLost | AttemptMismatch
    | CheckpointNotWaiting | RunIsCancelled | InvalidSpawn | InvalidDefinition | CapacityExceeded
    | CorruptLog | SnapshotUndecodable

  datatype Outcome = Outcome(error: Error, events: seq<Event>)

  datatype CompleteRequest = CompleteRequest(
    worker: string, node: string, attempt: uint32, compensation: bool, checkpoint: bool, spawned: seq<NodeDef>)

  datatype FailRequest = FailRequest(
    worker: string, node: string, attempt: uint32, compensation: bool, cancelled: bool, retryable: bool)

  function EmitAt(s: RunData, t: Time, p: Payload): Event {
    Event(s.lastSeq + 1, s.runId, t, p)
  }

  function Emit(s: RunData, clock: Clock, p: Payload): Event {
    EmitAt(s, clock(s.lastSeq + 1), p)
  }

  // ---- Read-only predicates ----

  predicate IsTerminalNode(st: NodeState) {
    st.Completed? || st.Failed? || st.Cancelled?
  }

  predicate AllNodesCompleted(s: RunData) {
    s.nodes != map[] && forall n | n in s.nodes :: s.nodes[n].state.Completed?
  }

  predicate AllNodesTerminal(s: RunData) {
    s.nodes != map[] && forall n | n in s.nodes :: IsTerminalNode(s.nodes[n].state)
  }

  predicate IsPendingTimer(t: Timer, node: string, purpose: TimerPurpose) {
    t.node == node && t.purpose == purpose && !t.fired
  }

  predicate HasPendingRetryTimer(s: RunData, node: string, attempt: uint32) {
    exists id :: id in s.timers && IsPendingTimer(s.timers[id], node, RetryBackoff) && s.timers[id].attempt == attempt
  }

  predicate HasPendingAbsoluteTimer(s: RunData, node: string) {
    exists id :: id in s.timers && IsPendingTimer(s.timers[id], node, AbsDeadline)
  }

  // The source also excuses a failed node that is READY, which none is.
  predicate UnrecoveredFailure(s: RunData, n: string)
    requires n in s.nodes
  {
    s.nodes[n].state.Failed? && !HasPendingRetryTimer(s, n, s.nodes[n].attempt)
  }

  predicate HasUnrecoveredFailure(s: RunData) {
    exists n :: n in s.nodes && UnrecoveredFailure(s, n)
  }

  predicate HasCompensationWork(s: RunData) {
    exists i :: 0 <= i < |s.stack| && !s.stack[i].completed
  }

  // The last uncompleted entry below position k.
  function LastOpen(stack: seq<CompensationEntry>, k: nat): (r: Option<nat>)
    requires k <= |stack|
    ensures r.Some? ==> r.value < k && !stack[r.value].completed && forall j | r.value < j < k :: stack[j].completed
    ensures r.None? ==> forall j | 0 <= j < k :: stack[j].completed
  {
    if k == 0 then None
    else if stack[k - 1].completed then LastOpen(stack, k - 1)
    else Some(k - 1)
  }

  function NextEntry(s: RunData): Option<nat> {
    if s.active.Some? then None else LastOpen(s.stack, |s.stack|)
  }

  predicate ShouldFailForTimer(nodes: Nodes, t: Timer) {
    && t.node in nodes
    && !IsTerminalNode(nodes[t.node].state)
    && match t.purpose
       case ExecDeadline => nodes[t.node].state.Running? && nodes[t.node].attempt == t.attempt
       case CheckpointTimeout => nodes[t.node].state.AwaitingApproval? && nodes[t.node].attempt == t.attempt
       case AbsDeadline => nodes[t.node].state.Running? || nodes[t.node].state.AwaitingApproval? || nodes[t.node].state.Ready?
       case RetryBackoff => false
  }

  // ---- Run-level transitions ----

  function AdvancePayload(s: RunData): Option<Payload> {
    if s.Terminal() then None
    else if s.cancelRequested then
      if AllNodesTerminal(s) then Some(CancellationCompleted) else None
    else if s.runState.RunCompensating? then
      if NextEntry(s).Some? || s.active.Some? then None else Some(CompensationCompleted)
    else if AllNodesCompleted(s) then Some(WorkflowCompleted)
    else if HasUnrecoveredFailure(s) then
      if HasCompensationWork(s) then Some(CompensationStarted) else Some(WorkflowFailed)
    else None
  }

  function Advance(s: RunData, clock: Clock): seq<Event> {
    match AdvancePayload(s)
    case None => []
    case Some(p) => [Emit(s, clock, p)]
  }

  predicate Cancellable(st: NodeState) {
    st.Pending? || st.Ready? || st.AwaitingApproval?
  }

  function CancelNodes(s: RunData, clock: Clock, ids: seq<string>): seq<Event>
    decreases |ids|
  {
    if ids == [] then []
    else if ids[0] in s.nodes && Cancellable(s.nodes[ids[0]].state) then
      var e := Emit(s, clock, NodeCancelled(ids[0], "", 0));
      [e] + CancelNodes(Step(s, e), clock, ids[1..])
    else CancelNodes(s, clock, ids[1..])
  }

  ghost function CancelEligible(s: RunData, clock: Clock): seq<Event> {
    CancelNodes(s, clock, Sorted(s.nodes.Keys))
  }

  function ThenAdvance(s: RunData, clock: Clock, events: seq<Event>): seq<Event> {
    events + Advance(Replay(s, events), clock)
  }

  ghost function Reconcile(s: RunData, clock: Clock): seq<Event> {
    if s.Terminal() then []
    else ThenAdvance(s, clock, if s.cancelRequested then CancelEligible(s, clock) else [])
  }

  // ---- Worker reports ----

  function LeaseCheck(s: RunData, worker: string, node: string, attempt: uint32): Error {
    if node !in s.nodes then TaskNotFound
    else if s.nodes[node].attempt == attempt && !s.nodes[node].state.Running? then LeaseLost
    else if !s.nodes[node].state.Running? || s.nodes[node].worker != worker || s.nodes[node].attempt != attempt then AttemptMismatch
    else NoError
  }

  function ActiveCheck(s: RunData, worker: string, node: string, attempt: uint32): Error {
    if s.active.None? then TaskNotFound
    else if !ActiveIs(s, node, worker, attempt) then AttemptMismatch
    else NoError
  }

  function DepGraph(nodes: Nodes): Graph {
    map n | n in nodes :: nodes[n].def.dependsOn
  }

  function GrowGraph(g: Graph, defs: seq<NodeDef>): Graph
    decreases |defs|
  {
    if defs == [] then g else GrowGraph(g[defs[0].id := defs[0].dependsOn], defs[1..])
  }

  /** The spawned definitions the engine accepts; an empty spawn is never examined. */
  ghost predicate SpawnOk(nodes: Nodes, spawned: seq<NodeDef>) {
    spawned != [] ==>
      && Named(spawned)
      && UniqueIds(spawned)
      && (forall i | 0 <= i < |spawned| :: spawned[i].id !in nodes)
      && Closed(spawned, nodes.Keys + Ids(spawned))
      && !Cyclic(GrowGraph(DepGraph(nodes), spawned))
  }

  function CheckpointTimer(s: RunData, clock: Clock, n: string, def: NodeDef, a: uint32): seq<Event> {
    var timeout := def.checkpointTimeout;
    if timeout <= 0 then []
    else [Emit(s, clock, TimerScheduled(TimerId(s.runId, n, a, CheckpointTimeout), n, a, CheckpointTimeout, clock(s.lastSeq + 1) + timeout))]
  }

  function CompleteCompensation(s: RunData, req: CompleteRequest, clock: Clock): Outcome {
    var error := ActiveCheck(s, req.worker, req.node, req.attempt);
    if error != NoError then Outcome(error, [])
    else Outcome(NoError, ThenAdvance(s, clock, [Emit(s, clock, CompensationTaskCompleted(req.node, req.worker, req.attempt))]))
  }

  ghost function CompleteTask(s: RunData, req: CompleteRequest, clock: Clock): Outcome {
    if req.compensation then CompleteCompensation(s, req, clock)
    else
      var error := LeaseCheck(s, req.worker, req.node, req.attempt);
      if error != NoError then Outcome(error, [])
      else if s.cancelRequested then Outcome(RunIsCancelled, [])
      else if req.checkpoint then
        var e := Emit(s, clock, CheckpointReached(req.node, req.worker, req.attempt));
        Outcome(NoError, [e] + CheckpointTimer(Step(s, e), clock, req.node, s.nodes[req.node].def, req.attempt))
      else if !SpawnOk(s.nodes, req.spawned) then
        Outcome(InvalidSpawn, ThenAdvance(s, clock, [Emit(s, clock, NodeFailed(req.node, req.worker, req.attempt, false, false))]))
      else
        Outcome(NoError, ThenAdvance(s, clock,
          [Emit(s, clock, NodeCompleted(req.node, req.worker, req.attempt, NormalForms(req.spawned)))]))
  }

  function FailCompensation(s: RunData, req: FailRequest, clock: Clock): Outcome {
    var error := ActiveCheck(s, req.worker, req.node, req.attempt);
    if error != NoError then Outcome(error, [])
    else
      var e := Emit(s, clock, CompensationTaskFailed(req.node, req.worker, req.attempt));
      Outcome(NoError, [e, Emit(Step(s, e), clock, WorkflowFailed)])
  }

  // `retryNow` is the separate clock reading the backoff is counted from.
  function RetryTimer(s: RunData, clock: Clock, n: string, def: NodeDef, a: uint32, retryNow: Time): seq<Event> {
    match def.retry
    case None => []
    case Some(policy) =>
      if policy.maxAttempts <= 1 || a >= policy.maxAttempts then []
      else [Emit(s, clock, TimerScheduled(TimerId(s.runId, n, a, RetryBackoff), n, a, RetryBackoff, retryNow + policy.backoff))]
  }

  function FailTask(s: RunData, req: FailRequest, retryNow: Time, clock: Clock): Outcome {
    if req.compensation then FailCompensation(s, req, clock)
    else
      var error := LeaseCheck(s, req.worker, req.node, req.attempt);
      if error != NoError then Outcome(error, [])
      else if s.cancelRequested && !req.cancelled then Outcome(RunIsCancelled, [])
      else if req.cancelled then
        Outcome(NoError, ThenAdvance(s, clock, [Emit(s, clock, NodeCancelled(req.node, req.worker, req.attempt))]))
      else
        var e := Emit(s, clock, NodeFailed(req.node, req.worker, req.attempt, req.retryable, false));
        var s1 := Step(s, e);
        var timer := if req.retryable then RetryTimer(s1, clock, req.node, s.nodes[req.node].def, req.attempt, retryNow) else [];
        if req.retryable && HasPendingRetryTimer(Replay(s1, timer), req.node, req.attempt) then
          Outcome(NoError, [e] + timer)
        else
          Outcome(NoError, ThenAdvance(s, clock, [e] + timer))
  }

  // ---- Callers ----

  ghost function CancelRun(s: RunData, clock: Clock): seq<Event> {
    if s.Terminal() || s.cancelRequested then []
    else
      var e := Emit(s, clock, CancellationRequested);
      ThenAdvance(s, clock, [e] + CancelEligible(Step(s, e), clock))
  }

  function ApproveCheckpoint(s: RunData, node: string, clock: Clock): Outcome {
    if s.Terminal() then Outcome(CheckpointNotWaiting, [])
    else if node !in s.nodes then Outcome(TaskNotFound, [])
    else if !s.nodes[node].state.AwaitingApproval? then Outcome(CheckpointNotWaiting, [])
    else Outcome(NoError, [Emit(s, clock, CheckpointApproved(node))])
  }

  // ---- Polling: heartbeat and claim ----

  function BeatNodes(s: RunData, worker: string, now: Time, order: seq<string>): seq<Event>
    decreases |order|
  {
    if order == [] then []
    else if order[0] in s.nodes && s.nodes[order[0]].state.Running? && s.nodes[order[0]].worker == worker then
      var e := EmitAt(s, now, HeartbeatRecorded(order[0], worker, s.nodes[order[0]].attempt));
      [e] + BeatNodes(Step(s, e), worker, now, order[1..])
    else BeatNodes(s, worker, now, order[1..])
  }

  function BeatCompensation(s: RunData, worker: string, now: Time): seq<Event> {
    if s.active.Some? && s.active.value.worker == worker
    then [EmitAt(s, now, HeartbeatRecorded(s.active.value.node, worker, s.active.value.attempt))]
    else []
  }

  function Heartbeat(s: RunData, worker: string, now: Time, order: seq<string>): seq<Event> {
    if s.Terminal() then []
    else
      var beats := BeatNodes(s, worker, now, order);
      beats + BeatCompensation(Replay(s, beats), worker, now)
  }

  predicate Claimable(s: RunData, reg: Registry, worker: string, n: string) {
    n in s.nodes && s.nodes[n].state.Ready? && CanHandle(reg, worker, s.nodes[n].def.activity)
  }

  function ClaimableNodes(s: RunData, reg: Registry, worker: string): set<string> {
    set n | n in s.nodes && Claimable(s, reg, worker, n)
  }

  function ExecTimer(s: RunData, clock: Clock, n: string, def: NodeDef, a: uint32): seq<Event> {
    var deadline := def.executionDeadline;
    if deadline <= 0 then []
    else [Emit(s, clock, TimerScheduled(TimerId(s.runId, n, a, ExecDeadline), n, a, ExecDeadline, clock(s.lastSeq + 1) + deadline))]
  }

  function AbsTimer(s: RunData, clock: Clock, n: string, def: NodeDef): seq<Event> {
    var deadline := def.absoluteDeadline;
    if deadline <= 0 || HasPendingAbsoluteTimer(s, n) then []
    else [Emit(s, clock, TimerScheduled(TimerId(s.runId, n, 0, AbsDeadline), n, 0, AbsDeadline, clock(s.lastSeq + 1) + deadline))]
  }

  // Lease and start: two appends.
  function Dispatch(s: RunData, clock: Clock, n: string, worker: string): seq<Event>
    requires n in s.nodes
  {
    var a := NextAttempt(s.nodes[n].attempt);
    var granted := Emit(s, clock, LeaseGranted(n, worker, a));
    [granted, Emit(Step(s, granted), clock, NodeStarted(n, worker, a))]
  }

  function ClaimNode(s: RunData, clock: Clock, n: string, worker: string): seq<Event>
    requires n in s.nodes
  {
    var a := NextAttempt(s.nodes[n].attempt);
    var started := Dispatch(s, clock, n, worker);
    var s2 := Replay(s, started);
    var exec := ExecTimer(s2, clock, n, s.nodes[n].def, a);
    started + exec + AbsTimer(Replay(s2, exec), clock, n, s.nodes[n].def)
  }

  function ClaimCompensation(s: RunData, reg: Registry, worker: string, clock: Clock): seq<Event> {
    match NextEntry(s)
    case None => []
    case Some(i) =>
      if !CanHandle(reg, worker, s.stack[i].activity) then []
      else [Emit(s, clock, CompensationTaskStarted(s.stack[i].node, worker, NextAttempt(s.stack[i].attempt)))]
  }

  ghost function Claim(s: RunData, reg: Registry, worker: string, clock: Clock): seq<Event> {
    if s.Terminal() || s.cancelRequested then []
    else if s.runState.RunCompensating? then ClaimCompensation(s, reg, worker, clock)
    else if ClaimableNodes(s, reg, worker) == {} then []
    else ClaimNode(s, clock, Least(ClaimableNodes(s, reg, worker)), worker)
  }

  // ---- Monitors ----

  predicate Overdue(n: Node, now: Time) {
    n.state.Running? && n.worker != "" && (n.heartbeat.None? || now - n.heartbeat.value > HEARTBEAT_TIMEOUT)
  }

  function ExpireNodes(s: RunData, now: Time, order: seq<string>): seq<Event>
    decreases |order|
  {
    if order == [] then []
    else if order[0] in s.nodes && Overdue(s.nodes[order[0]], now) then
      var e := EmitAt(s, now, LeaseExpired(order[0], s.nodes[order[0]].worker, s.nodes[order[0]].attempt));
      [e] + ExpireNodes(Step(s, e), now, order[1..])
    else ExpireNodes(s, now, order[1..])
  }

  function ExpireCompensation(s: RunData, now: Time): seq<Event> {
    if s.active.Some? && now - s.active.value.heartbeat > HEARTBEAT_TIMEOUT
    then [EmitAt(s, now, CompensationTaskExpired(s.active.value.node, s.active.value.worker, s.active.value.attempt))]
    else []
  }

  ghost function IfChangedReconcile(s: RunData, clock: Clock, events: seq<Event>): seq<Event> {
    if events == [] then [] else events + Reconcile(Replay(s, events), clock)
  }

  function ExpireOverdue(s: RunData, now: Time, order: seq<string>): seq<Event> {
    var expired := ExpireNodes(s, now, order);
    expired + ExpireCompensation(Replay(s, expired), now)
  }

  ghost function ExpireLeases(s: RunData, now: Time, order: seq<string>, clock: Clock): seq<Event> {
    IfChangedReconcile(s, clock, ExpireOverdue(s, now, order))
  }

  predicate Due(s: RunData, id: string, now: Time) {
    !s.Terminal() && id in s.timers && !s.timers[id].fired && s.timers[id].fireAt <= now
  }

  // One due timer: its firing, and for a deadline that still bites the failure and a reconcile.
  ghost function FireTimer(s: RunData, id: string, now: Time, clock: Clock): seq<Event>
    requires id in s.timers
  {
    var t := s.timers[id];
    var e := EmitAt(s, now, TimerFired(t.id, t.node, t.attempt, t.purpose));
    var s1 := Step(s, e);
    if !t.purpose.RetryBackoff? && ShouldFailForTimer(s1.nodes, t) then
      var f := EmitAt(s1, now, NodeFailed(t.node, s1.nodes[t.node].worker, s1.nodes[t.node].attempt, false, true));
      [e, f] + Reconcile(Step(s1, f), clock)
    else [e]
  }

  ghost function FireAll(s: RunData, now: Time, order: seq<string>, clock: Clock): seq<Event>
    decreases |order|
  {
    if order == [] then []
    else if Due(s, order[0], now) then
      var fired := FireTimer(s, order[0], now, clock);
      fired + FireAll(Replay(s, fired), now, order[1..], clock)
    else FireAll(s, now, order[1..], clock)
  }

  ghost function FireDueTimers(s: RunData, now: Time, order: seq<string>, clock: Clock): seq<Event> {
    IfChangedReconcile(s, clock, FireAll(s, now, order, clock))
  }

  // ---- One operation on one run ----

  datatype Op =
    | OpComplete(complete: CompleteRequest, clock: Clock)
    | OpFail(fail: FailRequest, retryNow: Time, clock: Clock)
    | OpCancel(clock: Clock)
    | OpApprove(node: string, clock: Clock)
    | OpHeartbeat(worker: string, now: Time, order: seq<string>)
    | OpClaim(reg: Registry, worker: string, clock: Clock)
    | OpExpireLeases(now: Time, order: seq<string>, clock: Clock)
    | OpFireTimers(now: Time, order: seq<string>, clock: Clock)

  // Iteration orders enumerate the map they range over.
  ghost predicate ValidOp(s: RunData, op: Op) {
    match op
    case OpHeartbeat(_, _, order) => Enumerates(order, s.nodes.Keys)
    case OpExpireLeases(_, order, _) => Enumerates(order, s.nodes.Keys)
    case OpFireTimers(_, order, _) => Enumerates(order, s.timers.Keys)
    case _ => true
  }

  ghost function OpEvents(s: RunData, op: Op): seq<Event> {
    match op
    case OpComplete(req, clock) => CompleteTask(s, req, clock).events
    case OpFail(req, retryNow, clock) => FailTask(s, req, retryNow, clock).events
    case OpCancel(clock) => CancelRun(s, clock)
    case OpApprove(node, clock) => ApproveCheckpoint(s, node, clock).events
    case OpHeartbeat(worker, now, order) => Heartbeat(s, worker, now, order)
    case OpClaim(reg, worker, clock) => Claim(s, reg, worker, clock)
    case OpExpireLeases(now, order, clock) => ExpireLeases(s, now, order, clock)
    case OpFireTimers(now, order, clock) => FireDueTimers(s, now, order, clock)
  }
}
