/** Which task a poll hands out (internal/engine/engine.go, tryClaimTask and
    claimReadyTaskLocked). */
module Dispatching {
  import opened Runtime
  import opened State
  import opened Strings
  import opened EngineSpec
  import opened Guards

  datatype WorkerTask = WorkerTask(runId: string, node: string, activity: string, attempt: uint32, compensation: bool)

  function OfferedCompensation(s: RunData, reg: Registry, worker: string): Option<WorkerTask> {
    match NextEntry(s)
    case None => None
    case Some(i) =>
      if !CanHandle(reg, worker, s.stack[i].activity) then None
      else Some(WorkerTask(s.runId, s.stack[i].node, s.stack[i].activity, NextAttempt(s.stack[i].attempt), true))
  }

  ghost function Offered(s: RunData, reg: Registry, worker: string): Option<WorkerTask> {
    if s.Terminal() || s.cancelRequested then None
    else if s.runState.RunCompensating? then OfferedCompensation(s, reg, worker)
    else if ClaimableNodes(s, reg, worker) == {} then None
    else
      var n := Least(ClaimableNodes(s, reg, worker));
      Some(WorkerTask(s.runId, n, s.nodes[n].def.activity, NextAttempt(s.nodes[n].attempt), false))
  }

  lemma FirstClaimable(s: RunData, reg: Registry, worker: string, i: nat)
    requires i < |Sorted(s.nodes.Keys)| && Claimable(s, reg, worker, Sorted(s.nodes.Keys)[i])
    requires forall j | 0 <= j < i :: !Claimable(s, reg, worker, Sorted(s.nodes.Keys)[j])
    ensures ClaimableNodes(s, reg, worker) != {} && Sorted(s.nodes.Keys)[i] == Least(ClaimableNodes(s, reg, worker))
  {
    var chosen := ClaimableNodes(s, reg, worker);
    var n := Sorted(s.nodes.Keys)[i];
    assert n in chosen;
    SortedFirst(s.nodes.Keys, chosen, i);
    LeastUnique(n, chosen);
  }

  lemma NothingClaimable(s: RunData, reg: Registry, worker: string)
    requires forall j | 0 <= j < |Sorted(s.nodes.Keys)| :: !Claimable(s, reg, worker, Sorted(s.nodes.Keys)[j])
    ensures ClaimableNodes(s, reg, worker) == {}
  {
    SortedEnumerates(s.nodes.Keys);
    forall n | n in s.nodes ensures !Claimable(s, reg, worker, n) {
      assert n in Sorted(s.nodes.Keys);
      var j: nat :| j < |Sorted(s.nodes.Keys)| && Sorted(s.nodes.Keys)[j] == n;
    }
  }

  /** The run holds a task this worker can take. */
  ghost predicate Offers(s: RunData, reg: Registry, worker: string) {
    && !s.Terminal() && !s.cancelRequested
    && if s.runState.RunCompensating? then NextEntry(s).Some? && CanHandle(reg, worker, s.stack[NextEntry(s).value].activity)
       else exists n :: Claimable(s, reg, worker, n)
  }

  /** A claim hands out a task exactly when the run holds one for this worker; a
      forward run hands out its least READY node of a handled activity, with the
      next attempt number. */
  lemma OffersIff(s: RunData, reg: Registry, worker: string, clock: Clock)
    ensures Offers(s, reg, worker) <==> Offered(s, reg, worker).Some?
    ensures Offers(s, reg, worker) <==> Claim(s, reg, worker, clock) != []
    ensures Offers(s, reg, worker) ==> Offered(s, reg, worker).value.runId == s.runId
    ensures Offers(s, reg, worker) && Forward(s) ==>
      var task := Offered(s, reg, worker).value;
      && IsLeast(task.node, ClaimableNodes(s, reg, worker)) && !task.compensation
      && task.attempt == NextAttempt(s.nodes[task.node].attempt)
  {
    hide Step, ExecTimer, AbsTimer;
    if n :| Claimable(s, reg, worker, n) { assert n in ClaimableNodes(s, reg, worker); }
  }

  // ---- The task itself ----

  // The last entry that has not been undone.
  ghost predicate OnTop(stack: seq<CompensationEntry>, i: nat) {
    i < |stack| && !stack[i].completed && forall j | i < j < |stack| :: stack[j].completed
  }

  /** What a worker may be handed by a run that is not closed to work. While the run
      goes forward: the least READY node whose activity it is registered for, to run
      that activity. While it unwinds, with no other task open: the last completed node
      not yet undone, to run the compensation its definition names. */
  ghost predicate Handed(s: RunData, reg: Registry, worker: string, task: WorkerTask) {
    && task.runId == s.runId && !s.cancelRequested
    && worker in reg && task.activity in reg[worker]
    && task.node in s.nodes
    && if task.compensation then
         && s.runState.RunCompensating? && s.active.None?
         && task.activity == s.nodes[task.node].def.compensation
         && exists i: nat :: OnTop(s.stack, i) && s.stack[i].node == task.node && task.attempt == (s.stack[i].attempt + 1) % UINT32_LIMIT
       else
         && s.runState.RunRunning?
         && s.nodes[task.node].state.Ready? && task.activity == s.nodes[task.node].def.activity
         && task.attempt == (s.nodes[task.node].attempt + 1) % UINT32_LIMIT
         && forall m | m in s.nodes && s.nodes[m].state.Ready? && s.nodes[m].def.activity in reg[worker] :: Leq(task.node, m)
  }

  lemma OnlyOneOnTop(stack: seq<CompensationEntry>, i: nat, j: nat)
    requires OnTop(stack, i) && OnTop(stack, j)
    ensures i == j
  {
  }

  lemma TopIsNext(s: RunData, i: nat)
    requires s.active.None?
    ensures OnTop(s.stack, i) <==> NextEntry(s) == Some(i)
  {
    if NextEntry(s).Some? && OnTop(s.stack, i) { OnlyOneOnTop(s.stack, i, NextEntry(s).value); }
  }

  lemma CompensationHanded(s: RunData, reg: Registry, worker: string)
    requires StackInv(s) && s.runState.RunCompensating? && !s.cancelRequested
    ensures OfferedCompensation(s, reg, worker).Some? ==> Handed(s, reg, worker, OfferedCompensation(s, reg, worker).value)
    ensures OfferedCompensation(s, reg, worker).None? ==> forall task :: !Handed(s, reg, worker, task)
  {
    if OfferedCompensation(s, reg, worker).Some? {
      var i := NextEntry(s).value;
      TopIsNext(s, i);
      TopActivity(s, i);
    } else {
      forall task ensures !Handed(s, reg, worker, task) { NothingHanded(s, reg, worker, task); }
    }
  }

  lemma NothingHanded(s: RunData, reg: Registry, worker: string, task: WorkerTask)
    requires StackInv(s) && s.runState.RunCompensating? && OfferedCompensation(s, reg, worker).None?
    ensures !Handed(s, reg, worker, task)
  {
    if Handed(s, reg, worker, task) {
      var i: nat :| OnTop(s.stack, i) && s.stack[i].node == task.node;
      TopIsNext(s, i);
      TopActivity(s, i);
    }
  }

  lemma TopActivity(s: RunData, i: nat)
    requires StackInv(s) && i < |s.stack|
    ensures s.stack[i].node in s.nodes && s.nodes[s.stack[i].node].def.compensation == s.stack[i].activity
  {
    assert EntryOk(s.nodes, s.stack[i]);
  }

  /** A task is offered exactly when one may be handed out, and it is that one. */
  lemma OfferedIsHanded(s: RunData, reg: Registry, worker: string)
    requires StackInv(s)
    ensures Offered(s, reg, worker).Some? ==> Handed(s, reg, worker, Offered(s, reg, worker).value)
    ensures Offered(s, reg, worker).None? ==> forall task :: !Handed(s, reg, worker, task)
  {
    if s.runState.RunCompensating? && !s.cancelRequested {
      hide StackInv, OfferedCompensation;
      CompensationHanded(s, reg, worker);
    } else if Offered(s, reg, worker).Some? {
      hide StackInv;
      var n := Least(ClaimableNodes(s, reg, worker));
      assert Claimable(s, reg, worker, n);
      forall m | m in s.nodes && s.nodes[m].state.Ready? && s.nodes[m].def.activity in reg[worker] ensures Leq(n, m) {
        assert m in ClaimableNodes(s, reg, worker);
      }
    } else if !s.Terminal() && !s.cancelRequested {
      hide StackInv;
      assert forall n | Claimable(s, reg, worker, n) :: n in ClaimableNodes(s, reg, worker);
      forall task ensures !Handed(s, reg, worker, task) { assert !Claimable(s, reg, worker, task.node); }
    }
  }

  lemma HandedTop(s: RunData, reg: Registry, worker: string, task: WorkerTask) returns (i: nat)
    requires Handed(s, reg, worker, task) && task.compensation
    ensures OnTop(s.stack, i) && s.runState.RunCompensating?
    ensures task == WorkerTask(s.runId, s.stack[i].node, task.activity, (s.stack[i].attempt + 1) % UINT32_LIMIT, true)
    ensures task.node in s.nodes && task.activity == s.nodes[task.node].def.compensation
  {
    i :| OnTop(s.stack, i) && s.stack[i].node == task.node && task.attempt == (s.stack[i].attempt + 1) % UINT32_LIMIT;
  }

  lemma HandedNode(s: RunData, reg: Registry, worker: string, task: WorkerTask)
    requires Handed(s, reg, worker, task) && !task.compensation
    ensures worker in reg && task.node in s.nodes && s.runState.RunRunning? && s.nodes[task.node].state.Ready? && s.nodes[task.node].def.activity in reg[worker]
    ensures task == WorkerTask(s.runId, task.node, s.nodes[task.node].def.activity, (s.nodes[task.node].attempt + 1) % UINT32_LIMIT, false)
    ensures forall m | m in s.nodes && s.nodes[m].state.Ready? && s.nodes[m].def.activity in reg[worker] :: Leq(task.node, m)
  {
  }

  // One task at most: what may be handed out is determined.
  lemma HandedOne(s: RunData, reg: Registry, worker: string, a: WorkerTask, b: WorkerTask)
    requires Handed(s, reg, worker, a) && Handed(s, reg, worker, b)
    ensures a == b
  {
    hide Handed, Leq, OnTop;
    if a.compensation {
      var i := HandedTop(s, reg, worker, a);
      if !b.compensation { HandedNode(s, reg, worker, b); }
      else {
        var j := HandedTop(s, reg, worker, b);
        OnlyOneOnTop(s.stack, i, j);
      }
    } else {
      HandedNode(s, reg, worker, a);
      if b.compensation { var j := HandedTop(s, reg, worker, b); }
      else {
        HandedNode(s, reg, worker, b);
        LeqAntisymmetric(a.node, b.node);
      }
    }
  }

  lemma SortedIndex(keys: set<string>, x: string) returns (j: nat)
    requires x in keys
    ensures j < |Sorted(keys)| && Sorted(keys)[j] == x
  {
    SortedEnumerates(keys);
    assert x in Sorted(keys);
    j :| j < |Sorted(keys)| && Sorted(keys)[j] == x;
  }

  lemma FirstOffering(keys: set<string>, i: nat, q: string)
    requires i < |Sorted(keys)| && q in keys && forall j | 0 <= j < i :: Sorted(keys)[j] != q
    ensures Leq(Sorted(keys)[i], q)
  {
    var j := SortedIndex(keys, q);
    SortedAscends(keys, i, j);
  }
}
