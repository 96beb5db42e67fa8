/** Deadlock freedom: which runs can always move on, and exactly which are stranded. */
module Liveness {
  import opened Runtime
  import opened State
  import opened Strings
  import opened Workflowdef
  import opened Graph
  import opened EngineSpec
  import opened Guards
  import opened Invariant
  import opened Logs
  import opened Operations
  import opened Quiescence
  import opened Runs
  import opened Scenarios
  import Fencing
  import Growth

  // ---- Nodes that can move, nodes that are blocked ----

  // A node some party can act on: a worker, a caller, or one of the monitors.
  predicate EnabledNode(s: RunData, n: string) {
    n in s.nodes &&
    match s.nodes[n].state
    case Ready => true
    case Running => true
    case AwaitingApproval => true
    case Failed => HasPendingRetryTimer(s, n, s.nodes[n].attempt)
    case _ => false
  }

  ghost predicate LeadsTo(nodes: Nodes, p: seq<string>, n: string, c: string) {
    p != [] && p[0] == n && p[|p| - 1] == c && Path(DepGraph(nodes), p)
  }

  // A node that can never complete: it was cancelled, or lies on a dependency cycle.
  ghost predicate Dead(nodes: Nodes, c: string) {
    c in nodes && (nodes[c].state.Cancelled? || OnCycle(DepGraph(nodes), c))
  }

  ghost predicate OnCycle(g: Graph, c: string) {
    exists p :: Cycle(g, p) && p[0] == c
  }

  // The node is dead or depends, through any number of edges, on one that is.
  ghost predicate Blocked(nodes: Nodes, n: string) {
    exists p, c :: Dead(nodes, c) && LeadsTo(nodes, p, n, c)
  }

  ghost predicate Open(s: RunData, n: string) {
    n in s.nodes && !s.nodes[n].state.Completed? && !Blocked(s.nodes, n)
  }

  lemma DeadIsBlocked(nodes: Nodes, n: string)
    requires Dead(nodes, n)
    ensures Blocked(nodes, n)
  {
    assert LeadsTo(nodes, [n], n, n);
  }

  lemma BlockedThroughDependency(nodes: Nodes, n: string, d: string)
    requires n in nodes && d in nodes && d in nodes[n].def.dependsOn && Blocked(nodes, d)
    ensures Blocked(nodes, n)
  {
    hide Dead;
    var p, c :| Dead(nodes, c) && LeadsTo(nodes, p, d, c);
    var q := [n] + p;
    forall i | 0 <= i < |q| - 1 ensures Edge(DepGraph(nodes), q[i], q[i + 1]) {
      if i > 0 { assert Edge(DepGraph(nodes), p[i - 1], p[i]); }
    }
    assert LeadsTo(nodes, q, n, c);
  }

  // Whatever lies below a completed node is completed.
  lemma {:induction false} CompletedDownward(nodes: Nodes, p: seq<string>, k: nat)
    requires Readiness(nodes) && Path(DepGraph(nodes), p) && 0 < k < |p|
    requires p[0] in nodes && !nodes[p[0]].state.Pending? && !nodes[p[0]].state.Cancelled?
    ensures p[k] in nodes && nodes[p[k]].state.Completed?
  {
    if k > 1 { CompletedDownward(nodes, p, k - 1); }
    assert Edge(DepGraph(nodes), p[k - 1], p[k - 1 + 1]);
    assert ReadinessOf(nodes, nodes[p[k - 1]]);
  }

  lemma DeadWaits(nodes: Nodes, c: string)
    requires CyclesWait(nodes) && Dead(nodes, c)
    ensures nodes[c].state.Pending? || nodes[c].state.Cancelled?
  {
    if !nodes[c].state.Cancelled? {
      var p :| Cycle(DepGraph(nodes), p) && p[0] == c;
      assert Waiting(nodes, p);
    }
  }

  lemma EnabledIsOpen(s: RunData, n: string)
    requires Readiness(s.nodes) && CyclesWait(s.nodes) && EnabledNode(s, n)
    ensures Open(s, n)
  {
    if Blocked(s.nodes, n) {
      hide Dead, CyclesWait;
      var p, c :| Dead(s.nodes, c) && LeadsTo(s.nodes, p, n, c);
      DeadWaits(s.nodes, c);
      CompletedDownward(s.nodes, p, |p| - 1);
    }
  }

  // The dependencies among the open nodes have no cycle.
  lemma OpenGraphAcyclic(s: RunData, g: Graph)
    requires forall m | m in g :: Open(s, m) && g[m] == s.nodes[m].def.dependsOn
    ensures !Cyclic(g)
  {
    hide Open;
    forall p | Cycle(g, p) ensures false {
      forall i | 0 <= i < |p| - 1 ensures Edge(DepGraph(s.nodes), p[i], p[i + 1]) {
        assert Edge(g, p[i], p[i + 1]);
        OpenKnown(s, p[i]);
        OpenKnown(s, p[i + 1]);
      }
      assert Cycle(DepGraph(s.nodes), p);
      assert Edge(g, p[0], p[0 + 1]);
      OpenKnown(s, p[0]);
      DeadIsBlocked(s.nodes, p[0]);
    }
  }

  lemma OpenKnown(s: RunData, n: string)
    requires Open(s, n)
    ensures n in s.nodes && !s.nodes[n].state.Completed? && !Blocked(s.nodes, n)
  {
  }

  lemma OpenHasEnabled(s: RunData, n: string) returns (x: string)
    requires Inv(s) && Quiet(s) && Forward(s) && Open(s, n)
    ensures EnabledNode(s, x)
  {
    var open := set m | m in s.nodes && Open(s, m);
    assert n in open;
    var g: Graph := map m | m in open :: s.nodes[m].def.dependsOn;
    OpenGraphAcyclic(s, g);
    x := MinimumExists(g, open);
    OpenMinimumEnabled(s, g, open, x);
  }

  lemma OpenMinimumEnabled(s: RunData, g: Graph, open: set<string>, x: string)
    requires Inv(s) && Quiet(s) && Forward(s)
    requires forall m :: m in open <==> Open(s, m)
    requires g == map m | m in open && m in s.nodes :: s.nodes[m].def.dependsOn
    requires x in open && !HasEdgeInto(g, x, open)
    ensures EnabledNode(s, x)
  {
    hide Blocked;
    var node := s.nodes[x];
    forall d | d in node.def.dependsOn ensures d in s.nodes && s.nodes[d].state.Completed? {
      assert d in s.nodes by { hide Readiness, StackInv, ActiveInv, PhaseInv, TimerInv; }
      assert Edge(g, x, d) <==> d in open;
      if Blocked(s.nodes, d) { BlockedThroughDependency(s.nodes, x, d); }
    }
    assert DepsCompleted(s.nodes, node.def.dependsOn);
    assert ReadinessOf(s.nodes, node);
    if node.state.Cancelled? { DeadIsBlocked(s.nodes, x); }
    assert !UnrecoveredFailure(s, x);
  }

  ghost predicate AcyclicStart(log: seq<Event>) {
    log != [] && !Cyclic(DepGraph(StateOf(log[..1]).nodes))
  }

  ghost predicate HasEnabledNode(s: RunData) {
    exists n :: EnabledNode(s, n)
  }

  /** A forward run can move exactly while some uncompleted node neither is CANCELLED
      or on a dependency cycle nor depends, however indirectly, on such a node. */
  lemma ProgressIff(y: Sys)
    requires Reachable(y) && y.up && Forward(StateOf(y.log))
    ensures HasEnabledNode(StateOf(y.log)) <==> exists n :: Open(StateOf(y.log), n)
  {
    hide Reachable, LegalLog, StateOf, Quiet, Legal, Step, EnabledNode, Open, Inv, Cyclic, Replays;
    var s := StateOf(y.log);
    ReachableSound(y);
    SoundIsLegal(y);
    if n :| EnabledNode(s, n) {
      InvReadiness(s);
      EveryCycleWaits(y.log);
      EnabledIsOpen(s, n);
    }
    if n :| Open(s, n) {
      var x := OpenHasEnabled(s, n);
    }
  }

  lemma InvReadiness(s: RunData)
    requires Inv(s)
    ensures Readiness(s.nodes) && s.nodes != map[] && Leased(s.nodes) && TimerInv(s)
  {
  }

  // ---- Without self-cancellation nothing is blocked ----

  /** No worker reported its node cancelled while the run was not. */
  ghost predicate NoSelfCancel(log: seq<Event>) {
    forall i | 0 < i < |log| && log[i].payload.NodeCancelled? :: StateOf(log[..i]).cancelRequested
  }

  ghost predicate NoneCancelled(nodes: Nodes) {
    forall n | n in nodes :: !nodes[n].state.Cancelled?
  }

  lemma CancelledEffect(last: Payload, s: RunData, e: Event)
    requires Legal(last, s, e) && Inv(s) && NoneCancelled(s.nodes) && !e.payload.NodeCancelled?
    ensures NoneCancelled(Step(s, e).nodes)
  {
    hide Legal, Step, Inv, NodesMove;
    if e.payload.NodeCompleted? { CompletionNoneCancelled(last, s, e); }
    else if TouchesNode(e.payload) { TouchNoneCancelled(last, s, e); }
    else if e.payload.HeartbeatRecorded? { BeatEffect(s, e); }
    else if e.payload.TimerFired? { Fencing.FiredKnown(last, s, e); FireEffect(s, e); }
    else { NodesUntouched(last, s, e); }
  }

  lemma TouchNoneCancelled(last: Payload, s: RunData, e: Event)
    requires Legal(last, s, e) && TouchesNode(e.payload) && NoneCancelled(s.nodes) && !e.payload.NodeCancelled?
    ensures NoneCancelled(Step(s, e).nodes)
  {
    TouchMoves(last, s, e);
  }

  lemma CompletionNoneCancelled(last: Payload, s: RunData, e: Event)
    requires Legal(last, s, e) && e.payload.NodeCompleted? && NoneCancelled(s.nodes)
    ensures NoneCancelled(Step(s, e).nodes)
  {
    CompletionEffect(last, s, e);
    var p, t := e.payload, Step(s, e).nodes;
    hide Legal, Step;
    forall n | n in t ensures !t[n].state.Cancelled? {
      if n !in s.nodes {
        var i :| 0 <= i < |p.spawned| && p.spawned[i].id == n;
      }
    }
  }

  lemma CancelFlagKept(s: RunData, e: Event)
    ensures Step(s, e).cancelRequested <==> s.cancelRequested || e.payload.CancellationRequested?
  {
    if ChangesOneNode(e) { OneNodeShape(s, e); }
    else if e.payload.NodeCompleted? {}
    else if e.payload.WorkflowStarted? {}
    else if e.payload.HeartbeatRecorded? {}
    else if e.payload.TimerFired? {}
    else {}
  }

  lemma {:induction false} NothingCancelledYet(log: seq<Event>)
    requires LegalLog(log) && NoSelfCancel(log) && !StateOf(log).cancelRequested
    ensures NoneCancelled(StateOf(log).nodes)
    decreases |log|
  {
    hide Legal, Step, Inv;
    if |log| == 1 {
      forall n | n in StateOf(log).nodes ensures !StateOf(log).nodes[n].state.Cancelled? {
        Fencing.StartAttempts(log, n);
      }
    } else {
      var front := Front(log);
      CancelFlagKept(StateOf(front), Last(log));
      assert log[..|log| - 1] == front;
      forall i | 0 < i < |front| && front[i].payload.NodeCancelled? ensures StateOf(front[..i]).cancelRequested {
        assert front[..i] == log[..i] && front[i] == log[i];
      }
      NothingCancelledYet(front);
      LogInv(front);
      CancelledEffect(Last(front).payload, StateOf(front), Last(log));
    }
  }

  // ---- Operations that move a run on ----

  /** A step that needs no cooperation of a lease holder and no cancellation: a
      poll by some worker, an approval, or a monitor sweep that appends something. */
  ghost predicate Progresses(s: RunData, op: Op) {
    && (op.OpClaim? || op.OpApprove? || op.OpExpireLeases? || op.OpFireTimers?)
    && ValidOp(s, op) && OpEvents(s, op) != []
  }

  lemma {:induction false} SweepExpires(s: RunData, now: Time, order: seq<string>, k: nat)
    requires k < |order| && order[k] in s.nodes && Overdue(s.nodes[order[k]], now)
    ensures ExpireNodes(s, now, order) != []
    decreases |order|
  {
    if k > 0 && !(order[0] in s.nodes && Overdue(s.nodes[order[0]], now)) {
      SweepExpires(s, now, order[1..], k - 1);
    }
  }

  lemma {:induction false} SweepFires(s: RunData, now: Time, order: seq<string>, clock: Clock, k: nat)
    requires k < |order| && Due(s, order[k], now)
    ensures FireAll(s, now, order, clock) != []
    decreases |order|
  {
    if k > 0 && !Due(s, order[0], now) {
      SweepFires(s, now, order[1..], clock, k - 1);
    }
  }

  lemma RunningProgresses(s: RunData, n: string) returns (op: Op)
    requires n in s.nodes && s.nodes[n].state.Running? && Leased(s.nodes)
    ensures Progresses(s, op)
  {
    hide Progresses;
    var order := Sorted(s.nodes.Keys);
    SortedEnumerates(s.nodes.Keys);
    var now := s.nodes[n].heartbeat.value + HEARTBEAT_TIMEOUT + 1;
    assert n in order;
    var k: nat :| k < |order| && order[k] == n;
    op := OpExpireLeases(now, order, _ => 0);
    ExpiryProgresses(s, now, order, k);
  }

  lemma ExpiryProgresses(s: RunData, now: Time, order: seq<string>, k: nat)
    requires k < |order| && order[k] in s.nodes && Overdue(s.nodes[order[k]], now) && Enumerates(order, s.nodes.Keys)
    ensures Progresses(s, OpExpireLeases(now, order, _ => 0))
  {
    SweepExpires(s, now, order, k);
    hide ExpireNodes, ExpireCompensation, Reconcile;
  }

  lemma ReadyProgresses(s: RunData, n: string) returns (op: Op)
    requires n in s.nodes && s.nodes[n].state.Ready? && Forward(s)
    ensures Progresses(s, op)
  {
    var reg: Registry := map["worker" := [s.nodes[n].def.activity]];
    assert Claimable(s, reg, "worker", n);
    assert n in ClaimableNodes(s, reg, "worker");
    op := OpClaim(reg, "worker", _ => 0);
  }

  lemma RetryProgresses(s: RunData, n: string) returns (op: Op)
    requires n in s.nodes && HasPendingRetryTimer(s, n, s.nodes[n].attempt) && Forward(s)
    ensures Progresses(s, op)
  {
    hide Progresses;
    var id :| id in s.timers && IsPendingTimer(s.timers[id], n, RetryBackoff) && s.timers[id].attempt == s.nodes[n].attempt;
    var order := Sorted(s.timers.Keys);
    SortedEnumerates(s.timers.Keys);
    assert id in order;
    var k: nat :| k < |order| && order[k] == id;
    SweepProgresses(s, s.timers[id].fireAt, order, k);
    op := OpFireTimers(s.timers[id].fireAt, order, _ => 0);
  }

  lemma SweepProgresses(s: RunData, now: Time, order: seq<string>, k: nat)
    requires k < |order| && Due(s, order[k], now) && Enumerates(order, s.timers.Keys)
    ensures Progresses(s, OpFireTimers(now, order, _ => 0))
  {
    var op := OpFireTimers(now, order, _ => 0);
    SweepFires(s, now, order, op.clock, k);
    hide FireAll, Reconcile;
  }

  lemma EnabledProgresses(s: RunData, n: string) returns (op: Op)
    requires Inv(s) && Forward(s) && EnabledNode(s, n)
    ensures Progresses(s, op)
  {
    InvReadiness(s);
    hide Inv, Progresses, Leased, TimerInv;
    match s.nodes[n].state
    case Ready => op := ReadyProgresses(s, n);
    case Running => op := RunningProgresses(s, n);
    case AwaitingApproval =>
      op := OpApprove(n, _ => 0);
      ApprovalProgresses(s, n);
    case Failed => op := RetryProgresses(s, n);
  }

  lemma ApprovalProgresses(s: RunData, n: string)
    requires Forward(s) && n in s.nodes && s.nodes[n].state.AwaitingApproval?
    ensures Progresses(s, OpApprove(n, _ => 0))
  {
  }

  // Unwinding: the active task can expire, the next entry can be claimed.
  lemma UnwindingProgresses(s: RunData) returns (op: Op)
    requires Quiet(s) && s.runState.RunCompensating? && !s.cancelRequested
    ensures s.active.Some? || NextEntry(s).Some?
    ensures Progresses(s, op)
  {
    if s.active.Some? {
      var now := s.active.value.heartbeat + HEARTBEAT_TIMEOUT + 1;
      SortedEnumerates(s.nodes.Keys);
      op := OpExpireLeases(now, Sorted(s.nodes.Keys), _ => 0);
      ActiveExpires(s, now, Sorted(s.nodes.Keys));
    } else {
      var entry := s.stack[NextEntry(s).value];
      op := OpClaim(map["worker" := [entry.activity]], "worker", _ => 0);
    }
  }

  // If no lease expires, the sweep reaches the active task untouched.
  lemma ActiveExpires(s: RunData, now: Time, order: seq<string>)
    requires s.active.Some? && now - s.active.value.heartbeat > HEARTBEAT_TIMEOUT
    ensures ExpireOverdue(s, now, order) != []
  {
  }

  lemma CancellingHasRunning(s: RunData)
    requires Inv(s) && Quiet(s) && s.cancelRequested && !s.Terminal()
    ensures exists n :: n in s.nodes && s.nodes[n].state.Running?
  {
    InvReadiness(s);
    hide Inv;
    assert !AllNodesTerminal(s);
    var n :| n in s.nodes && !IsTerminalNode(s.nodes[n].state);
    assert s.nodes[n].state.Running?;
  }

  /** From an acyclic start, with no worker cancelling its own node of an
      uncancelled run, every non-terminal run at an operation boundary has an
      enabled step; which one depends on the phase. */
  lemma DeadlockFreedom(y: Sys)
    requires Reachable(y) && y.up && !StateOf(y.log).Terminal()
    requires AcyclicStart(y.log) && NoSelfCancel(y.log)
    ensures var s := StateOf(y.log);
      && (Forward(s) ==> HasEnabledNode(s))
      && (s.cancelRequested ==> exists n :: n in s.nodes && s.nodes[n].state.Running?)
      && (!s.cancelRequested && s.runState.RunCompensating? ==> s.active.Some? || NextEntry(s).Some?)
      && exists op :: Progresses(s, op)
  {
    hide Reachable, LegalLog, StateOf, Quiet, Legal, Step, EnabledNode, Open, Inv, Cyclic, Replays, Progresses, AcyclicStart, NoSelfCancel, Leased;
    var s := StateOf(y.log);
    ReachableSound(y);
    SoundIsLegal(y);
    InvReadiness(s);
    if s.cancelRequested {
      CancellingHasRunning(s);
      var n :| n in s.nodes && s.nodes[n].state.Running?;
      var op := RunningProgresses(s, n);
    } else if s.runState.RunCompensating? {
      var op := UnwindingProgresses(s);
    } else {
      NothingCancelledYet(y.log);
      NeverCyclic(y.log);
      var n := UncompletedIsOpen(s);
      ProgressIff(y);
      var x :| EnabledNode(s, x);
      var op := EnabledProgresses(s, x);
    }
  }

  lemma NeverCyclic(log: seq<Event>)
    requires LegalLog(log) && AcyclicStart(log)
    ensures !Cyclic(DepGraph(StateOf(log).nodes))
  {
    Growth.AcyclicForever(log);
  }

  lemma UncompletedIsOpen(s: RunData) returns (n: string)
    requires Inv(s) && Quiet(s) && Forward(s) && NoneCancelled(s.nodes) && !Cyclic(DepGraph(s.nodes))
    ensures Open(s, n)
  {
    InvReadiness(s);
    hide Inv;
    assert !AllNodesCompleted(s);
    n :| n in s.nodes && !s.nodes[n].state.Completed?;
  }

  // ---- Stranded runs ----

  /** Still RUNNING, yet every node is COMPLETED, CANCELLED or waiting. */
  ghost predicate Stranded(s: RunData) {
    Forward(s) && !AllNodesCompleted(s) &&
    forall n | n in s.nodes :: s.nodes[n].state.Completed? || s.nodes[n].state.Cancelled? || s.nodes[n].state.Pending?
  }

  lemma StrandedIffNothingEnabled(s: RunData)
    requires Quiet(s) && Forward(s)
    ensures Stranded(s) <==> !HasEnabledNode(s)
  {
    if !HasEnabledNode(s) {
      forall n | n in s.nodes ensures s.nodes[n].state.Completed? || s.nodes[n].state.Cancelled? || s.nodes[n].state.Pending? {
        assert !EnabledNode(s, n) && !UnrecoveredFailure(s, n);
      }
    }
  }

  lemma StrandedStep(last: Payload, s: RunData, e: Event)
    requires Legal(last, s, e) && Inv(s) && Stranded(s) && !e.payload.CancellationRequested?
    ensures e.payload.TimerFired? && Step(s, e).nodes == s.nodes && Stranded(Step(s, e))
  {
    assert s.active.None?;
    assert e.payload.TimerFired?;
    FireEffect(s, e);
  }

  /** A stranded run stays stranded until somebody cancels it: the only events its
      log can still receive are stale timers firing. */
  lemma {:induction false} StrandedUntilCancelled(log: seq<Event>, i: nat)
    requires LegalLog(log) && 0 < i <= |log| && Stranded(StateOf(log[..i]))
    requires forall k | i <= k < |log| :: !log[k].payload.CancellationRequested?
    ensures Stranded(StateOf(log)) && StateOf(log).nodes == StateOf(log[..i]).nodes
    ensures forall k | i <= k < |log| :: log[k].payload.TimerFired?
    decreases |log|
  {
    hide Legal, Step, Inv, Stranded;
    if i == |log| {
      assert log[..i] == log;
    } else {
      assert Front(log)[..i] == log[..i];
      StrandedUntilCancelled(Front(log), i);
      LogInv(Front(log));
      StrandedStep(Last(Front(log)).payload, StateOf(Front(log)), Last(log));
    }
  }

  const LONE_NODE := NodeDef("a", "act", [], None, "", 0, 0, 0)
  const LONE_START := Event(1, "r", 0, WorkflowStarted(WorkflowDef("w", [LONE_NODE])))
  const LONE_NODES: Nodes := map["a" := NewNode(LONE_NODE).(state := Ready)]

  lemma LoneStart()
    ensures StartsRun(LONE_START)
    ensures StateOf([LONE_START]) == EMPTY_RUN.(runId := "r", lastSeq := 1, nodes := LONE_NODES)
  {
    StateOfAppend([], LONE_START);
    assert [] + [LONE_START] == [LONE_START];
    StartInv(LONE_START);
    assert InsertDefs(map[], [LONE_NODE]) == map["a" := NewNode(LONE_NODE)];
    assert MarkReady(map["a" := NewNode(LONE_NODE)]) == LONE_NODES;
    hide Step, InsertDefs, MarkReady, StateOf;
  }

  // Claiming the only node of a fresh run, then reporting it cancelled.
  lemma LoneClaim(s: RunData, reg: Registry, clock: Clock)
    requires s == EMPTY_RUN.(runId := "r", lastSeq := 1, nodes := LONE_NODES) && reg == map["k" := ["act"]]
    ensures var t := Replay(s, Claim(s, reg, "k", clock));
      && t == s.(nodes := t.nodes, lastSeq := 3) && t.nodes.Keys == {"a"}
      && t.nodes["a"] == NewNode(LONE_NODE).(state := Running, worker := "k", attempt := 1, heartbeat := t.nodes["a"].heartbeat)
  {
    assert Claimable(s, reg, "k", "a");
    var ids := ClaimableNodes(s, reg, "k");
    assert ids == {"a"} && Least(ids) in ids;
    assert Claim(s, reg, "k", clock) == ClaimNode(s, clock, "a", "k");
    DispatchLegal(CancellationRequested, s, clock, "a", "k");
    var started := Dispatch(s, clock, "a", "k");
    hide Dispatch, Step, Legal, Chain;
    assert ClaimNode(s, clock, "a", "k") == started + [] + [];
    assert started + [] + [] == started;
  }

  lemma LoneSelfCancel(s: RunData, clock: Clock)
    requires s.nodes.Keys == {"a"} && Holds(s, "a", "k", 1) && Forward(s)
    ensures var t := Replay(s, FailTask(s, FailRequest("k", "a", 1, false, true, false), 0, clock).events);
      Stranded(t)
  {
    var e := Emit(s, clock, NodeCancelled("a", "k", 1));
    var t := Step(s, e);
    assert t.nodes.Keys == {"a"} && t.nodes["a"].state.Cancelled? && Forward(t);
    assert "a" in t.nodes;
    assert !AllNodesCompleted(t) && !HasUnrecoveredFailure(t);
    hide Step;
    assert [e][1..] == [] && Replay(s, [e]) == t;
    assert Advance(t, clock) == [] && [e] + [] == [e];
  }

  /** The hypothesis on workers is needed: a worker that reports its node cancelled
      although the run is not leaves a run that is RUNNING and cannot move. */
  lemma SelfCancelStrands() returns (y: Sys)
    ensures Reachable(y) && y.up && AcyclicStart(y.log) && Stranded(StateOf(y.log)) && !HasEnabledNode(StateOf(y.log))
  {
    hide StateOf, Step, Replay, Legal, Inv, Claim, FailTask, Stranded, Cyclic, LegalLog, AcyclicStart, Reachable, OpEvents;
    LoneStart();
    var a := Sys([LONE_START], true);
    ReachableStart(a);
    var claim := OpClaim(map["k" := ["act"]], "k", _ => 0);
    var s := StateOf(a.log);
    assert OpEvents(s, claim) == Claim(s, claim.reg, "k", claim.clock) by { OpIsClaim(s, claim); }
    LoneClaim(s, claim.reg, claim.clock);
    var b := AfterOp(a, claim);
    var t := StateOf(b.log);
    assert Holds(t, "a", "k", 1);
    var fail := OpFail(FailRequest("k", "a", 1, false, true, false), 0, _ => 0);
    assert OpEvents(t, fail) == FailTask(t, fail.fail, 0, fail.clock).events by { OpIsFail(t, fail); }
    LoneSelfCancel(t, fail.clock);
    y := AfterOp(b, fail);
    LoneAcyclic(a.log);
    SameStart(a.log, b.log, y.log);
    StrandedHasNothingEnabled(StateOf(y.log));
  }

  lemma SameStart(a: seq<Event>, b: seq<Event>, c: seq<Event>)
    requires a != [] && a <= b <= c && AcyclicStart(a)
    ensures AcyclicStart(c)
  {
    hide StateOf;
    assert a[..1] == c[..1];
  }

  lemma StrandedHasNothingEnabled(s: RunData)
    requires Stranded(s)
    ensures !HasEnabledNode(s)
  {
  }

  lemma LoneAcyclic(log: seq<Event>)
    requires log == [LONE_START]
    ensures AcyclicStart(log)
  {
    LoneStart();
    assert log[..1] == log;
    hide StateOf;
    var g := DepGraph(LONE_NODES);
    assert g["a"] == [];
    TopologicalAcyclic(g, ["a"]);
  }

  // ---- Cyclic starts ----

  ghost predicate Waiting(nodes: Nodes, p: seq<string>) {
    forall i | 0 <= i < |p| :: p[i] in nodes && (nodes[p[i]].state.Pending? || nodes[p[i]].state.Cancelled?)
  }

  lemma WaitingStep(last: Payload, s: RunData, e: Event, p: seq<string>)
    requires Legal(last, s, e) && Inv(s) && Cycle(DepGraph(s.nodes), p) && Waiting(s.nodes, p)
    ensures Cycle(DepGraph(Step(s, e).nodes), p) && Waiting(Step(s, e).nodes, p)
  {
    ReadinessKept(last, s, e);
    KeysGrow(last, s, e);
    var t := Step(s, e).nodes;
    forall i | 0 <= i < |p| ensures p[i] in t && !t[p[i]].state.Completed? {
      NotCompletedByStep(last, s, e, p[i]);
    }
    hide Legal, Step, WellFormed, Leased, StackInv, ActiveInv, PhaseInv, TimerInv;
    forall i | 0 <= i < |p| - 1 ensures Edge(DepGraph(t), p[i], p[i + 1]) {
      assert Edge(DepGraph(s.nodes), p[i], p[i + 1]);
    }
    forall i | 0 <= i < |p| - 1 ensures t[p[i]].state.Pending? || t[p[i]].state.Cancelled? {
      assert Edge(DepGraph(t), p[i], p[i + 1]);
      assert ReadinessOf(t, t[p[i]]);
    }
    assert p[|p| - 1] == p[0];
  }

  lemma NotCompletedByStep(last: Payload, s: RunData, e: Event, n: string)
    requires Legal(last, s, e) && Inv(s) && n in s.nodes && (s.nodes[n].state.Pending? || s.nodes[n].state.Cancelled?)
    ensures n in Step(s, e).nodes && !Step(s, e).nodes[n].state.Completed?
  {
    hide StackInv, ActiveInv, TimerInv, WellFormed, Readiness, Leased, PhaseInv;
    if e.payload.NodeCompleted? {
      CompletionEffect(last, s, e);
      LegalBasics(last, s, e);
    } else {
      LegalMoves(last, s, e);
      assert NodeMove(s.nodes[n], Step(s, e).nodes[n]);
    }
  }

  lemma CycleWaitsAtStart(nodes: Nodes, p: seq<string>)
    requires Readiness(nodes) && Cycle(DepGraph(nodes), p)
    requires forall n | n in nodes :: nodes[n].state.Pending? || nodes[n].state.Ready?
    ensures Waiting(nodes, p)
  {
    forall i | 0 <= i < |p| - 1 ensures p[i] in nodes && nodes[p[i]].state.Pending? {
      assert Edge(DepGraph(nodes), p[i], p[i + 1]);
      assert ReadinessOf(nodes, nodes[p[i]]);
    }
    assert p[|p| - 1] == p[0];
  }

  /** No node on a dependency cycle was ever handed out. */
  ghost predicate CyclesWait(nodes: Nodes) {
    forall p | Cycle(DepGraph(nodes), p) :: Waiting(nodes, p)
  }

  // An accepted spawn leaves no cycle at all; no other event changes the graph.
  lemma CyclesWaitStep(last: Payload, s: RunData, e: Event)
    requires Legal(last, s, e) && Inv(s) && CyclesWait(s.nodes)
    ensures CyclesWait(Step(s, e).nodes)
  {
    hide Legal, Step, Cycle, Waiting, WellFormed, Readiness, Leased, StackInv, ActiveInv, PhaseInv, TimerInv;
    var t := Step(s, e).nodes;
    if e.payload.NodeCompleted? && e.payload.spawned != [] {
      Growth.CompletionGraph(last, s, e);
      assert !Cyclic(DepGraph(t));
    } else {
      Growth.SameGraph(last, s, e);
      forall p | Cycle(DepGraph(t), p) ensures Waiting(t, p) { WaitingStep(last, s, e, p); }
    }
  }

  lemma {:induction false} EveryCycleWaits(log: seq<Event>)
    requires LegalLog(log)
    ensures CyclesWait(StateOf(log).nodes)
    decreases |log|
  {
    hide Legal, Step, Inv, Cycle, Waiting;
    if |log| == 1 {
      forall p | Cycle(DepGraph(StateOf(log).nodes), p) ensures Waiting(StateOf(log).nodes, p) { StartCycleWaits(log, p); }
    } else {
      EveryCycleWaits(Front(log));
      LogInv(Front(log));
      hide CyclesWait;
      CyclesWaitStep(Last(Front(log)).payload, StateOf(Front(log)), Last(log));
    }
  }

  lemma StartCycleWaits(log: seq<Event>, p: seq<string>)
    requires LegalLog(log) && |log| == 1 && Cycle(DepGraph(StateOf(log).nodes), p)
    ensures Waiting(StateOf(log).nodes, p)
  {
    hide Legal, Step, Inv, Cycle, Waiting, StateOf;
    LogInv(log);
    InvReadiness(StateOf(log));
    forall n | n in StateOf(log).nodes ensures StateOf(log).nodes[n].state.Pending? || StateOf(log).nodes[n].state.Ready? {
      Fencing.StartAttempts(log, n);
    }
    CycleWaitsAtStart(StateOf(log).nodes, p);
  }

  lemma {:induction false} CycleWaits(log: seq<Event>, p: seq<string>)
    requires LegalLog(log) && Cycle(DepGraph(StateOf(log[..1]).nodes), p)
    ensures Cycle(DepGraph(StateOf(log).nodes), p) && Waiting(StateOf(log).nodes, p)
    decreases |log|
  {
    hide Legal, Step, Inv, Cycle, Waiting;
    if |log| == 1 {
      assert log[..1] == log;
      StartCycleWaits(log, p);
    } else {
      assert Front(log)[..1] == log[..1];
      CycleWaits(Front(log), p);
      LogInv(Front(log));
      WaitingStep(Last(Front(log)).payload, StateOf(Front(log)), Last(log), p);
    }
  }

  /** Definitions with longer dependency cycles are accepted, but a run of one can
      never complete: no node on the cycle is ever leased. */
  lemma CyclicStartNeverCompletes(y: Sys)
    requires Reachable(y) && !AcyclicStart(y.log)
    ensures !StateOf(y.log).runState.RunCompleted? && !AllNodesCompleted(StateOf(y.log))
  {
    hide Reachable, LegalLog, StateOf, Inv, Legal, Step, Replays, Waiting;
    ReachableSound(y);
    SoundIsLegal(y);
    LegalNotEmpty(y.log);
    var p :| Cycle(DepGraph(StateOf(y.log[..1]).nodes), p);
    CycleWaits(y.log, p);
    WaitingNotCompleted(StateOf(y.log), p);
  }

  const FIRST_OF_CYCLE := NodeDef("a", "act", ["b"], None, "", 0, 0, 0)
  const SECOND_OF_CYCLE := NodeDef("b", "act", ["a"], None, "", 0, 0, 0)
  const CYCLIC_START := Event(1, "r", 0, WorkflowStarted(WorkflowDef("w", [FIRST_OF_CYCLE, SECOND_OF_CYCLE])))

  lemma CyclicStart()
    ensures StartsRun(CYCLIC_START)
    ensures DepGraph(StateOf([CYCLIC_START]).nodes) == map["a" := ["b"], "b" := ["a"]]
  {
    var defs := [FIRST_OF_CYCLE, SECOND_OF_CYCLE];
    assert Closed(defs, Ids(defs)) by {
      assert defs[0].id in Ids(defs) && defs[1].id in Ids(defs);
    }
    StateOfAppend([], CYCLIC_START);
    assert [] + [CYCLIC_START] == [CYCLIC_START];
    hide StateOf, Step;
    StartInv(CYCLIC_START);
    InsertedPair(FIRST_OF_CYCLE, SECOND_OF_CYCLE);
  }

  /** Such a definition is accepted, and its run, in which no node was cancelled,
      goes forward with nothing enabled from the start. */
  lemma CyclicAccepted() returns (y: Sys)
    ensures Reachable(y) && y.up && !AcyclicStart(y.log) && NoSelfCancel(y.log)
    ensures Forward(StateOf(y.log)) && NoneCancelled(StateOf(y.log).nodes) && !HasEnabledNode(StateOf(y.log))
  {
    hide StateOf, Reachable, HasEnabledNode, Cyclic;
    CyclicStart();
    y := Sys([CYCLIC_START], true);
    ReachableStart(y);
    assert y.log[..1] == y.log;
    PairIdle(y.log);
  }

  lemma PairIdle(log: seq<Event>)
    requires |log| == 1 && StartsRun(log[0]) && DepGraph(StateOf(log).nodes) == map["a" := ["b"], "b" := ["a"]]
    ensures Cyclic(DepGraph(StateOf(log).nodes))
    ensures Forward(StateOf(log)) && NoneCancelled(StateOf(log).nodes) && !HasEnabledNode(StateOf(log))
  {
    var s, p := StateOf(log), ["a", "b", "a"];
    hide StateOf, Waiting;
    assert Cycle(DepGraph(s.nodes), p);
    StartCycleWaits(log, p);
    forall n | n in s.nodes ensures s.nodes[n].state.Pending? {
      Fencing.StartAttempts(log, n);
      assert n in DepGraph(s.nodes);
      OnTheCycle(s.nodes, p, n);
    }
    Fencing.StartAttempts(log, "a");
  }

  lemma OnTheCycle(nodes: Nodes, p: seq<string>, n: string)
    requires Waiting(nodes, p) && n in p
    ensures n in nodes && (nodes[n].state.Pending? || nodes[n].state.Cancelled?)
  {
  }

  lemma WaitingNotCompleted(s: RunData, p: seq<string>)
    requires Inv(s) && Waiting(s.nodes, p) && p != []
    ensures !s.runState.RunCompleted? && !AllNodesCompleted(s)
  {
    assert p[0] in s.nodes;
  }

  // ---- Cancelled runs drain ----

  lemma {:induction false} SweepEffect(s: RunData, now: Time, order: seq<string>)
    ensures var t := Replay(s, ExpireNodes(s, now, order));
      && t == s.(nodes := t.nodes, lastSeq := t.lastSeq)
      && t.nodes.Keys == s.nodes.Keys
      && forall n | n in s.nodes :: t.nodes[n] == if n in order && Overdue(s.nodes[n], now)
                                                  then s.nodes[n].(state := Ready, worker := "", heartbeat := None) else s.nodes[n]
    decreases |order|
  {
    if order != [] {
      var n := order[0];
      if n in s.nodes && Overdue(s.nodes[n], now) {
        var e := EmitAt(s, now, LeaseExpired(n, s.nodes[n].worker, s.nodes[n].attempt));
        var t := Step(s, e);
        assert t == s.(nodes := s.nodes[n := s.nodes[n].(state := Ready, worker := "", heartbeat := None)], lastSeq := t.lastSeq);
        hide Step;
        SweepEffect(t, now, order[1..]);
        assert ([e] + ExpireNodes(t, now, order[1..]))[1..] == ExpireNodes(t, now, order[1..]);
      } else {
        hide Step;
        SweepEffect(s, now, order[1..]);
      }
    }
  }

  lemma CompensationSweepEffect(s: RunData, now: Time)
    ensures var t := Replay(s, ExpireCompensation(s, now)); t == s.(active := t.active, lastSeq := t.lastSeq)
  {
    if ExpireCompensation(s, now) != [] { assert ExpireCompensation(s, now)[1..] == []; }
  }

  lemma DrainedReconcile(last: Payload, s: RunData, clock: Clock)
    requires Inv(s) && s.cancelRequested && !s.Terminal() && forall n | n in s.nodes :: !s.nodes[n].state.Running?
    ensures Replay(s, Reconcile(s, clock)).runState.RunCancelled?
  {
    hide Inv, Legal, CancelEligible, Advance, Step;
    CancelEligibleLegal(last, s, clock);
    var cancelled := CancelEligible(s, clock);
    var t := Replay(s, cancelled);
    InvReadiness(t);
    assert AllNodesTerminal(t);
    CancellationCompletes(t, clock);
    ReplayConcat(s, cancelled, Advance(t, clock));
  }

  lemma CancellationCompletes(s: RunData, clock: Clock)
    requires s.cancelRequested && !s.Terminal() && AllNodesTerminal(s)
    ensures Replay(s, Advance(s, clock)).runState.RunCancelled?
  {
    var e := Emit(s, clock, CancellationCompleted);
    assert Advance(s, clock) == [e];
    assert [e][1..] == [];
  }

  /** Cancellation needs no cooperation: once every lease of a cancelled run is
      overdue, one sweep of the lease monitor ends the run as CANCELLED. */
  lemma CancelledRunDrains(y: Sys, now: Time, order: seq<string>, clock: Clock)
    requires Reachable(y) && y.up
    requires var s := StateOf(y.log);
      && s.cancelRequested && !s.Terminal() && ValidOp(s, OpExpireLeases(now, order, clock))
      && forall n | n in s.nodes && s.nodes[n].state.Running? :: Overdue(s.nodes[n], now)
    ensures Replay(StateOf(y.log), OpEvents(StateOf(y.log), OpExpireLeases(now, order, clock))).runState.RunCancelled?
  {
    hide Reachable, LegalLog, StateOf, Quiet, Legal, Step, Inv, Replays, Replay, Reconcile;
    var s := StateOf(y.log);
    ReachableSound(y);
    CancellingHasRunning(s);
    var n :| n in s.nodes && s.nodes[n].state.Running?;
    assert n in order;
    var k: nat :| k < |order| && order[k] == n;
    SweepExpires(s, now, order, k);
    var expired := ExpireNodes(s, now, order);
    SweepEffect(s, now, order);
    var t := Replay(s, expired);
    CompensationSweepEffect(t, now);
    ReplayConcat(s, expired, ExpireCompensation(t, now));
    var swept := ExpireOverdue(s, now, order);
    OverdueLegal(CancellationRequested, s, now, order);
    ChainInv(CancellationRequested, s, swept);
    var u := Replay(s, swept);
    DrainedReconcile(CancellationRequested, u, clock);
    ReplayConcat(s, swept, Reconcile(u, clock));
  }

  // A time by which every lease is overdue.
  lemma {:induction false} LateEnough(nodes: Nodes) returns (now: Time)
    ensures forall n | n in nodes && nodes[n].heartbeat.Some? :: now - nodes[n].heartbeat.value > HEARTBEAT_TIMEOUT
    decreases |nodes|
  {
    if nodes == map[] { return 0; }
    var n :| n in nodes;
    var rest := nodes - {n};
    assert rest.Keys == nodes.Keys - {n};
    assert |rest| < |nodes| by { assert |rest.Keys| < |nodes.Keys|; }
    now := LateEnough(rest);
    assert forall m | m in nodes && m != n :: m in rest && rest[m] == nodes[m];
    if nodes[n].heartbeat.Some? && now <= nodes[n].heartbeat.value + HEARTBEAT_TIMEOUT {
      now := nodes[n].heartbeat.value + HEARTBEAT_TIMEOUT + 1;
    }
  }

  lemma {:induction false} RequestStays(s: RunData, events: seq<Event>)
    requires s.cancelRequested
    ensures Replay(s, events).cancelRequested
    decreases |events|
  {
    hide Step;
    if events != [] {
      CancelFlagKept(s, events[0]);
      RequestStays(Step(s, events[0]), events[1..]);
    }
  }

  lemma RequestedOrOver(s: RunData, clock: Clock)
    ensures Replay(s, CancelRun(s, clock)).cancelRequested || Replay(s, CancelRun(s, clock)).Terminal()
  {
    if !s.Terminal() && !s.cancelRequested {
      var e := Emit(s, clock, CancellationRequested);
      CancelFlagKept(s, e);
      hide Step, CancelEligible, Advance;
      assert CancelRun(s, clock)[0] == e;
      RequestStays(Step(s, e), CancelRun(s, clock)[1..]);
    }
  }

  lemma OverdueByThen(s: RunData, now: Time)
    requires Leased(s.nodes)
    requires forall n | n in s.nodes && s.nodes[n].heartbeat.Some? :: now - s.nodes[n].heartbeat.value > HEARTBEAT_TIMEOUT
    ensures forall n | n in s.nodes && s.nodes[n].state.Running? :: Overdue(s.nodes[n], now)
  {
  }

  /** Every run can be ended, whatever its workers do: by a cancellation request and,
      if nodes are still held, one sweep of the lease monitor. */
  lemma CanAlwaysEnd(y: Sys, clock: Clock) returns (cancelled: Sys, ended: Sys, sweep: Op)
    requires Reachable(y) && y.up
    ensures Operates(y, cancelled, OpCancel(clock)) && sweep.OpExpireLeases?
    ensures ended == cancelled || Operates(cancelled, ended, sweep)
    ensures Reachable(ended) && StateOf(ended.log).Terminal()
  {
    hide Reachable, StateOf, Inv, Replays, Replay, OpEvents, Leased, LegalLog, Sound, CancelRun;
    RequestedOrOver(StateOf(y.log), clock);
    assert OpEvents(StateOf(y.log), OpCancel(clock)) == CancelRun(StateOf(y.log), clock) by { OpIsCancel(StateOf(y.log), clock); }
    cancelled := AfterOp(y, OpCancel(clock));
    var s := StateOf(cancelled.log);
    ReachableSound(cancelled);
    InvReadiness(s);
    var now := LateEnough(s.nodes);
    OverdueByThen(s, now);
    SortedEnumerates(s.nodes.Keys);
    sweep := OpExpireLeases(now, Sorted(s.nodes.Keys), clock);
    if s.Terminal() {
      ended := cancelled;
    } else {
      CancelledRunDrains(cancelled, now, Sorted(s.nodes.Keys), clock);
      ended := AfterOp(cancelled, sweep);
    }
  }

  lemma OpIsCancel(s: RunData, clock: Clock)
    ensures OpEvents(s, OpCancel(clock)) == CancelRun(s, clock)
  {
    hide CancelRun;
  }
}
