/** Fencing from the other side: a lease that has ended stays ended. */
module ExpiredLeases {
  import opened Runtime
  import opened State
  import opened EngineSpec
  import opened Guards
  import opened Invariant
  import opened Logs
  import opened Fencing
  import opened Timers

  // Leases up to and including attempt `a` can no longer be started or run.
  predicate Dead(node: Node, a: uint32) {
    a <= node.attempt && (a == node.attempt ==> !node.state.Running? && !(node.state.Ready? && node.worker != ""))
  }

  lemma DeadKept(x: Node, y: Node, a: uint32)
    requires Fences(x, y) && FencedNode(x) && Dead(x, a)
    ensures Dead(y, a)
  {
  }

  // Events that give a lease up, and events that need one.
  predicate EndsLease(p: Payload) {
    p.LeaseExpired? || p.CheckpointReached? || p.NodeCompleted? || p.NodeFailed? || p.NodeCancelled?
  }

  predicate NeedsLease(p: Payload) {
    p.LeaseExpired? || p.CheckpointReached? || p.NodeCompleted? || (p.NodeFailed? && !p.timedOut)
  }

  lemma EndingKills(last: Payload, s: RunData, e: Event)
    requires Legal(last, s, e) && EndsLease(e.payload)
    ensures e.payload.node in s.nodes && e.payload.node in Step(s, e).nodes
    ensures Dead(Step(s, e).nodes[e.payload.node], s.nodes[e.payload.node].attempt)
  {
    if e.payload.NodeCompleted? {
      CompletionEffect(last, s, e);
    } else {
      TouchMoves(last, s, e);
    }
  }

  lemma NeedsKnown(last: Payload, s: RunData, e: Event)
    requires Legal(last, s, e)
    ensures NeedsLease(e.payload) ==> Holds(s, e.payload.node, e.payload.worker, e.payload.attempt)
    ensures e.payload.LeaseGranted? || e.payload.NodeStarted? ==> e.payload.node in s.nodes
  {
  }

  lemma {:induction false} DeadForever(log: seq<Event>, i: nat, n: string, a: uint32)
    requires LegalLog(log) && 0 < i <= |log| && GrantCount(log, n) < UINT32_LIMIT
    requires n in StateOf(log[..i]).nodes && Dead(StateOf(log[..i]).nodes[n], a)
    ensures n in StateOf(log).nodes && Dead(StateOf(log).nodes[n], a)
    decreases |log|
  {
    hide Legal, Step, Inv, Fences, Dead, FencedTimer, FencedNode;
    if i == |log| {
      assert log[..i] == log;
    } else {
      var s, e, last := StateOf(Front(log)), Last(log), Last(Front(log)).payload;
      assert Front(log)[..i] == log[..i];
      DeadForever(Front(log), i, n, a);
      LogInv(Front(log));
      KeysGrow(last, s, e);
      HistoryFenced(Front(log), n);
      AttemptCountsLeases(Front(log), n);
      NodeFences(last, s, e, n);
      DeadKept(s.nodes[n], StateOf(log).nodes[n], a);
    }
  }

  /** Once a lease has expired, or was given up by a report, no later report of that
      node carries its attempt number or an older one: late results of the old
      worker never reach the log. */
  lemma ExpiredLeaseIsDead(log: seq<Event>, i: nat, j: nat)
    requires LegalLog(log) && 0 < i < j < |log|
    requires NeedsLease(log[i].payload) && NeedsLease(log[j].payload) && log[i].payload.node == log[j].payload.node
    requires GrantCount(log, log[i].payload.node) < UINT32_LIMIT
    ensures log[i].payload.attempt < log[j].payload.attempt
  {
    hide Legal, Step, StateOf, Inv, GrantCount;
    var n, a := log[i].payload.node, log[i].payload.attempt;
    LegalAt(log, i);
    NeedsKnown(log[i - 1].payload, StateOf(log[..i]), log[i]);
    EndingKills(log[i - 1].payload, StateOf(log[..i]), log[i]);
    LegalAt(log, j);
    NeedsKnown(log[j - 1].payload, StateOf(log[..j]), log[j]);
    GrantCountGrows(log, j, n);
    assert log[..j][..i + 1] == log[..i + 1];
    DeadForever(log[..j], i + 1, n, a);
  }

  /** The start of a lease that has ended is never written again either. */
  lemma NeverStartedAgain(log: seq<Event>, i: nat, j: nat)
    requires LegalLog(log) && 0 < i < j < |log|
    requires EndsLease(log[i].payload) && log[j].payload.NodeStarted? && log[i].payload.node == log[j].payload.node
    requires GrantCount(log, log[i].payload.node) < UINT32_LIMIT
    ensures log[i].payload.node in StateOf(log[..i]).nodes
    ensures StateOf(log[..i]).nodes[log[i].payload.node].attempt < log[j].payload.attempt
  {
    hide Legal, Step, StateOf, Inv, GrantCount;
    var n := log[i].payload.node;
    LegalAt(log, i);
    EndingKills(log[i - 1].payload, StateOf(log[..i]), log[i]);
    LegalAt(log, j);
    StartFresh(log[j - 1].payload, StateOf(log[..j]), log[j]);
    GrantCountGrows(log, j, n);
    assert log[..j][..i + 1] == log[..i + 1];
    DeadForever(log[..j], i + 1, n, StateOf(log[..i]).nodes[n].attempt);
  }

  lemma StartFresh(last: Payload, s: RunData, e: Event)
    requires Legal(last, s, e) && e.payload.NodeStarted?
    ensures var n := e.payload.node;
      n in s.nodes && s.nodes[n].state.Ready? && s.nodes[n].worker != "" && s.nodes[n].attempt == e.payload.attempt
  {
  }
}
