/** The steps small concrete histories are made of: one worker, whole operations. */
module Scenarios {
  import opened Runtime
  import opened State
  import opened Strings
  import opened EngineSpec
  import opened Guards
  import opened Logs
  import opened Operations
  import opened Runs

  const WORKER: Registry := map["k" := ["act", "undo"]]

  function At(t: Time): Clock {
    _ => t
  }

  // A node as the worker finds it, holds it, and leaves it.
  function Idle(def: NodeDef): Node {
    NewNode(def).(state := Ready)
  }

  function Busy(def: NodeDef): Node {
    Node(def, Running, 1, "k", Some(0))
  }

  function Over(def: NodeDef, st: NodeState): Node {
    Node(def, st, 1, "k", None)
  }

  lemma Begun(e: Event) returns (y: Sys)
    requires StartsRun(e)
    ensures y == Sys([e], true) && Reachable(y)
  {
    y := Sys([e], true);
    ReachableStart(y);
  }

  // One whole operation, from a reachable log to a reachable log.
  lemma AfterOp(a: Sys, op: Op) returns (b: Sys)
    requires Reachable(a) && a.up && ValidOp(StateOf(a.log), op)
    ensures Reachable(b) && b.up && b.log == a.log + OpEvents(StateOf(a.log), op)
    ensures StateOf(b.log) == Replay(StateOf(a.log), OpEvents(StateOf(a.log), op))
  {
    hide StateOf, Replay, OpEvents, ValidOp, Reachable;
    b := Sys(a.log + OpEvents(StateOf(a.log), op), true);
    StateOfConcat(a.log, OpEvents(StateOf(a.log), op));
    assert Operates(a, b, op);
    ReachableNext(a, b);
  }

  lemma OpIsClaim(s: RunData, op: Op)
    requires op.OpClaim?
    ensures OpEvents(s, op) == Claim(s, op.reg, op.worker, op.clock) && ValidOp(s, op)
  {
  }

  lemma OpIsFail(s: RunData, op: Op)
    requires op.OpFail?
    ensures OpEvents(s, op) == FailTask(s, op.fail, op.retryNow, op.clock).events && ValidOp(s, op)
  {
  }

  lemma OpIsComplete(s: RunData, op: Op)
    requires op.OpComplete?
    ensures OpEvents(s, op) == CompleteTask(s, op.complete, op.clock).events && ValidOp(s, op)
  {
  }

  lemma OpIsFire(s: RunData, now: Time, order: seq<string>, clock: Clock)
    ensures OpEvents(s, OpFireTimers(now, order, clock)) == FireDueTimers(s, now, order, clock)
  {
    hide FireDueTimers;
  }

  lemma InsertedPair(f: NodeDef, g: NodeDef)
    ensures InsertDefs(map[], [f, g]) == map[f.id := NewNode(f)][g.id := NewNode(g)]
  {
    assert [f, g][1..] == [g] && [g][1..] == [];
    assert InsertDefs(map[f.id := NewNode(f)], [g]) == InsertDefs(map[f.id := NewNode(f)][g.id := NewNode(g)], []);
  }

  function Started(node: Node, t: Time): Node
    requires node.attempt + 1 < UINT32_LIMIT
  {
    node.(state := Running, attempt := node.attempt + 1, worker := "k", heartbeat := Some(t))
  }

  // The worker claims the only node it can take.
  lemma ClaimOnly(s: RunData, reg: Registry, n: string, t: Time)
    requires Forward(s) && Claimable(s, reg, "k", n) && s.nodes[n].attempt + 1 < UINT32_LIMIT
    requires forall m | Claimable(s, reg, "k", m) :: m == n
    requires s.nodes[n].def.executionDeadline == 0 && s.nodes[n].def.absoluteDeadline == 0
    ensures Replay(s, Claim(s, reg, "k", At(t))) == s.(nodes := s.nodes[n := Started(s.nodes[n], t)], lastSeq := s.lastSeq + 2)
  {
    OnlyChoice(s, reg, n);
    var started := Dispatch(s, At(t), n, "k");
    DispatchReplay(s, n, t);
    hide Dispatch, Step, ClaimableNodes;
    assert ClaimNode(s, At(t), n, "k") == started + [] + [];
    assert started + [] + [] == started;
  }

  lemma OnlyChoice(s: RunData, reg: Registry, n: string)
    requires Claimable(s, reg, "k", n) && forall m | Claimable(s, reg, "k", m) :: m == n
    ensures ClaimableNodes(s, reg, "k") == {n} && Least(ClaimableNodes(s, reg, "k")) == n
  {
    var ids := ClaimableNodes(s, reg, "k");
    assert ids == {n} && Least(ids) in ids;
  }

  lemma DispatchReplay(s: RunData, n: string, t: Time)
    requires n in s.nodes && s.nodes[n].attempt + 1 < UINT32_LIMIT
    ensures Replay(s, Dispatch(s, At(t), n, "k")) == s.(nodes := s.nodes[n := Started(s.nodes[n], t)], lastSeq := s.lastSeq + 2)
  {
    var a := s.nodes[n].attempt + 1;
    hide Step;
    assert NextAttempt(s.nodes[n].attempt) == a;
    var e := Emit(s, At(t), LeaseGranted(n, "k", a));
    GrantStep(s, e, n, a);
    var u := Step(s, e);
    var f := Emit(u, At(t), NodeStarted(n, "k", a));
    StartStep(u, f, n, a);
    TwoSteps(s, e, f);
  }

  lemma GrantStep(s: RunData, e: Event, n: string, a: uint32)
    requires n in s.nodes && e.payload == LeaseGranted(n, "k", a) && e.seqNo == s.lastSeq + 1
    ensures Step(s, e) == s.(nodes := s.nodes[n := s.nodes[n].(attempt := a, worker := "k", heartbeat := Some(e.timestamp))], lastSeq := s.lastSeq + 1)
  {
  }

  lemma StartStep(s: RunData, e: Event, n: string, a: uint32)
    requires n in s.nodes && e.payload == NodeStarted(n, "k", a) && e.seqNo == s.lastSeq + 1
    ensures Step(s, e) ==
      s.(nodes := s.nodes[n := s.nodes[n].(state := Running, attempt := a, worker := "k", heartbeat := Some(e.timestamp))], lastSeq := s.lastSeq + 1)
  {
  }
}
