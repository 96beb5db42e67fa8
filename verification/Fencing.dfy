/** Attempt fencing over whole histories: lease numbers, completions under a live
    lease, justified expiries. */
module Fencing {
  import opened Runtime
  import opened State
  import opened EngineSpec
  import opened Guards
  import opened Invariant
  import opened Logs
  import opened Runs

  // ---- Lease numbers ----

  function GrantCount(log: seq<Event>, n: string): nat {
    if log == [] then 0
    else GrantCount(Front(log), n) + if Last(log).payload.LeaseGranted? && Last(log).payload.node == n then 1 else 0
  }

  lemma {:induction false} GrantsBounded(log: seq<Event>, n: string)
    ensures GrantCount(log, n) <= |log|
    decreases |log|
  {
    if log != [] { GrantsBounded(Front(log), n); }
  }

  predicate GrantsTo(p: Payload, n: string) {
    p.LeaseGranted? && p.node == n
  }

  // Only a lease moves a node's attempt; spawned nodes start at zero.
  lemma AttemptEffect(last: Payload, s: RunData, e: Event, n: string)
    requires Legal(last, s, e) && n in Step(s, e).nodes
    ensures n in s.nodes ==>
      Step(s, e).nodes[n].attempt == if GrantsTo(e.payload, n) then NextAttempt(s.nodes[n].attempt) else s.nodes[n].attempt
    ensures n !in s.nodes ==> Step(s, e).nodes[n].attempt == 0 && !GrantsTo(e.payload, n)
  {
    hide Legal, Step, NodesMove;
    if e.payload.NodeCompleted? { CompletionAttempt(last, s, e, n); }
    else if TouchesNode(e.payload) { TouchAttempt(last, s, e); }
    else if e.payload.HeartbeatRecorded? { BeatEffect(s, e); }
    else if e.payload.TimerFired? { FiredKnown(last, s, e); FireEffect(s, e); }
    else { NodesUntouched(last, s, e); }
  }

  lemma FiredKnown(last: Payload, s: RunData, e: Event)
    requires Legal(last, s, e) && e.payload.TimerFired?
    ensures Due(s, e.payload.timer, e.timestamp)
    ensures var t := s.timers[e.payload.timer]; t.node == e.payload.node && t.attempt == e.payload.attempt && t.purpose == e.payload.purpose
  {
  }

  lemma TouchAttempt(last: Payload, s: RunData, e: Event)
    requires Legal(last, s, e) && TouchesNode(e.payload)
    ensures var n := e.payload.node;
      && n in s.nodes && n in Step(s, e).nodes
      && Step(s, e).nodes == s.nodes[n := Step(s, e).nodes[n]]
      && Step(s, e).nodes[n].attempt == if e.payload.LeaseGranted? then NextAttempt(s.nodes[n].attempt) else s.nodes[n].attempt
  {
  }

  lemma CompletionAttempt(last: Payload, s: RunData, e: Event, n: string)
    requires Legal(last, s, e) && e.payload.NodeCompleted? && n in Step(s, e).nodes
    ensures n in s.nodes ==> Step(s, e).nodes[n].attempt == s.nodes[n].attempt
    ensures n !in s.nodes ==> Step(s, e).nodes[n].attempt == 0
  {
    CompletionEffect(last, s, e);
    var p := e.payload;
    hide Legal, Step;
    if n !in s.nodes {
      var i :| 0 <= i < |p.spawned| && p.spawned[i].id == n;
    }
  }

  /** A node's attempt counts its leases, modulo the width of the counter. */
  lemma {:induction false} AttemptCountsLeases(log: seq<Event>, n: string)
    requires LegalLog(log)
    ensures n in StateOf(log).nodes ==> StateOf(log).nodes[n].attempt == GrantCount(log, n) % UINT32_LIMIT
    ensures n !in StateOf(log).nodes ==> GrantCount(log, n) == 0
    decreases |log|
  {
    hide Legal, Step, Inv;
    if |log| == 1 {
      StartAttempts(log, n);
    } else {
      var s, e, last := StateOf(Front(log)), Last(log), Last(Front(log)).payload;
      AttemptCountsLeases(Front(log), n);
      LogInv(Front(log));
      KeysGrow(last, s, e);
      GrantKnown(last, s, e);
      if n in StateOf(log).nodes {
        AttemptEffect(last, s, e, n);
        NextCount(GrantCount(Front(log), n));
      }
    }
  }

  lemma NextCount(c: nat)
    ensures (c % UINT32_LIMIT + 1) % UINT32_LIMIT == (c + 1) % UINT32_LIMIT
  {
  }

  lemma GrantKnown(last: Payload, s: RunData, e: Event)
    requires Legal(last, s, e)
    ensures e.payload.LeaseGranted? ==> e.payload.node in s.nodes && e.payload.attempt == NextAttempt(s.nodes[e.payload.node].attempt)
  {
  }

  // A fresh run: every node unleased, nothing scheduled, nothing to compensate.
  lemma StartAttempts(log: seq<Event>, n: string)
    requires |log| == 1 && StartsRun(log[0])
    ensures GrantCount(log, n) == 0
    ensures n in StateOf(log).nodes ==>
      var node := StateOf(log).nodes[n]; node.attempt == 0 && (node.state.Pending? || node.state.Ready?) && node.worker == ""
    ensures StateOf(log).timers == map[] && StateOf(log).stack == [] && StateOf(log).active.None?
    ensures StateOf(log).runState.RunRunning? && !StateOf(log).cancelRequested
  {
    assert Front(log) == [];
    StateOfAppend([], log[0]);
    StartInv(log[0]);
    StartLeased(log[0].payload.def.nodes);
    assert StateOf(log) == Step(EMPTY_RUN, log[0]);
    hide Step, InsertDefs, MarkReady, StateOf;
  }

  /** Leases of a node are numbered 1, 2, 3, ... without repeats, as long as
      there are fewer than 2^32 of them; in general modulo 2^32. */
  lemma LeaseNumbers(log: seq<Event>, i: nat)
    requires LegalLog(log) && 0 < i < |log| && log[i].payload.LeaseGranted?
    ensures var n := log[i].payload.node;
      && log[i].payload.attempt == (GrantCount(log[..i], n) + 1) % UINT32_LIMIT
      && (log[i].payload.attempt == GrantCount(log[..i], n) + 1 <==> GrantCount(log[..i], n) + 1 < UINT32_LIMIT)
  {
    hide Legal, Step, StateOf, LegalLog, GrantCount;
    var n := log[i].payload.node;
    LegalAt(log, i);
    GrantKnown(log[i - 1].payload, StateOf(log[..i]), log[i]);
    AttemptCountsLeases(log[..i], n);
    NextCount(GrantCount(log[..i], n));
  }

  lemma {:induction false} GrantCountGrows(log: seq<Event>, i: nat, n: string)
    requires i <= |log|
    ensures GrantCount(log[..i], n) <= GrantCount(log, n)
    ensures i < |log| && GrantsTo(log[i].payload, n) ==> GrantCount(log[..i], n) < GrantCount(log, n)
    decreases |log|
  {
    if i == |log| {
      assert log[..i] == log;
    } else {
      GrantCountGrows(Front(log), i, n);
      assert Front(log)[..i] == log[..i];
    }
  }

  lemma LeasesDistinct(log: seq<Event>, i: nat, j: nat)
    requires LegalLog(log) && 0 < i < j < |log|
    requires log[i].payload.LeaseGranted? && log[j].payload.LeaseGranted? && log[i].payload.node == log[j].payload.node
    requires GrantCount(log, log[i].payload.node) < UINT32_LIMIT
    ensures log[i].payload.attempt < log[j].payload.attempt
  {
    hide LegalLog;
    var n := log[i].payload.node;
    LeaseNumbers(log, i);
    LeaseNumbers(log, j);
    GrantCountGrows(log, i, n);
    GrantCountGrows(log, j, n);
    GrantCountGrows(log[..j], i, n);
    assert log[..j][..i] == log[..i];
  }

  // ---- The lease a history says a node is under ----

  datatype Hold = Hold(worker: string, attempt: uint32)

  // Events of a node that end whatever lease it was under.
  predicate Interrupts(p: Payload, n: string) {
    (p.LeaseGranted? || p.LeaseExpired? || p.CheckpointReached? || p.NodeCancelled? || p.NodeCompleted? || p.NodeFailed?) && p.node == n
  }

  function LeaseOf(log: seq<Event>, n: string): Option<Hold> {
    if log == [] then None
    else
      var p := Last(log).payload;
      if p.NodeStarted? && p.node == n then Some(Hold(p.worker, p.attempt))
      else if Interrupts(p, n) then None
      else LeaseOf(Front(log), n)
  }

  // RUNNING is entered by NodeStarted and left by an interruption, nothing else.
  ghost predicate RunningAfter(a: Nodes, p: Payload, n: string, b: Node) {
    if p.NodeStarted? && p.node == n then b.state.Running? && b.worker == p.worker && b.attempt == p.attempt
    else if Interrupts(p, n) then !b.state.Running?
    else
      && (b.state.Running? <==> n in a && a[n].state.Running?)
      && (b.state.Running? ==> b.worker == a[n].worker && b.attempt == a[n].attempt)
  }

  lemma RunningEffect(last: Payload, s: RunData, e: Event, n: string)
    requires Legal(last, s, e) && n in Step(s, e).nodes
    ensures RunningAfter(s.nodes, e.payload, n, Step(s, e).nodes[n])
  {
    hide Legal, Step, NodesMove;
    if e.payload.NodeCompleted? { CompletionRunning(last, s, e, n); }
    else if TouchesNode(e.payload) { TouchRunning(last, s, e, n); }
    else if e.payload.HeartbeatRecorded? { BeatEffect(s, e); }
    else if e.payload.TimerFired? { FiredKnown(last, s, e); FireEffect(s, e); }
    else { NodesUntouched(last, s, e); }
  }

  lemma TouchRunning(last: Payload, s: RunData, e: Event, n: string)
    requires Legal(last, s, e) && TouchesNode(e.payload) && n in Step(s, e).nodes
    ensures RunningAfter(s.nodes, e.payload, n, Step(s, e).nodes[n])
  {
    TouchMoves(last, s, e);
  }

  lemma CompletionRunning(last: Payload, s: RunData, e: Event, n: string)
    requires Legal(last, s, e) && e.payload.NodeCompleted? && n in Step(s, e).nodes
    ensures RunningAfter(s.nodes, e.payload, n, Step(s, e).nodes[n])
  {
    CompletionEffect(last, s, e);
    var p := e.payload;
    hide Legal, Step;
    if n !in s.nodes {
      var i :| 0 <= i < |p.spawned| && p.spawned[i].id == n;
    }
  }

  /** A node is RUNNING exactly while the history says it is under a lease, and
      then it stores that lease's worker and attempt. */
  lemma {:induction false} LeaseTracksState(log: seq<Event>, n: string)
    requires LegalLog(log)
    ensures n in StateOf(log).nodes ==>
      var node := StateOf(log).nodes[n];
      && (node.state.Running? <==> LeaseOf(log, n).Some?)
      && (node.state.Running? ==> LeaseOf(log, n) == Some(Hold(node.worker, node.attempt)))
    ensures n !in StateOf(log).nodes ==> LeaseOf(log, n).None?
    decreases |log|
  {
    hide Legal, Step, Inv;
    if |log| == 1 {
      StartAttempts(log, n);
    } else {
      var s, e, last := StateOf(Front(log)), Last(log), Last(Front(log)).payload;
      LeaseTracksState(Front(log), n);
      LogInv(Front(log));
      KeysGrow(last, s, e);
      StartKnown(last, s, e);
      if n in StateOf(log).nodes { RunningEffect(last, s, e, n); }
    }
  }

  lemma StartKnown(last: Payload, s: RunData, e: Event)
    requires Legal(last, s, e)
    ensures e.payload.NodeStarted? ==> e.payload.node in s.nodes
    ensures e.payload.NodeCompleted? || e.payload.LeaseExpired? || e.payload.CheckpointReached? ==>
      Holds(s, e.payload.node, e.payload.worker, e.payload.attempt)
  {
  }

  // The start event behind a live lease, uninterrupted since.
  lemma {:induction false} LeaseOrigin(log: seq<Event>, n: string) returns (j: nat)
    requires LeaseOf(log, n).Some?
    ensures j < |log| && log[j].payload == NodeStarted(n, LeaseOf(log, n).value.worker, LeaseOf(log, n).value.attempt)
    ensures forall k | j < k < |log| :: !Interrupts(log[k].payload, n)
    decreases |log|
  {
    var p := Last(log).payload;
    if p.NodeStarted? && p.node == n {
      j := |log| - 1;
    } else {
      j := LeaseOrigin(Front(log), n);
      assert forall k | j < k < |log| - 1 :: log[k] == Front(log)[k];
    }
  }

  ghost predicate UnderLeaseSince(log: seq<Event>, i: nat, j: nat, n: string, w: string, a: uint32)
    requires i <= |log|
  {
    j < i && log[j].payload == NodeStarted(n, w, a) && forall k | j < k < i :: !Interrupts(log[k].payload, n)
  }

  /** Every completion (and checkpoint, and expiry) reports the lease its node was
      started under, with no expiry, failure, cancellation, checkpoint or new lease
      of that node in between. */
  lemma ReportsUnderLease(log: seq<Event>, i: nat)
    requires LegalLog(log) && 0 < i < |log|
    requires log[i].payload.NodeCompleted? || log[i].payload.CheckpointReached? || log[i].payload.LeaseExpired?
    ensures exists j :: UnderLeaseSince(log, i, j, log[i].payload.node, log[i].payload.worker, log[i].payload.attempt)
  {
    hide Legal, Step, StateOf;
    var p := log[i].payload;
    LegalAt(log, i);
    StartKnown(log[i - 1].payload, StateOf(log[..i]), log[i]);
    LeaseTracksState(log[..i], p.node);
    var j := LeaseOrigin(log[..i], p.node);
    assert log[..i][j] == log[j];
    assert forall k | j < k < i :: log[..i][k] == log[k];
    assert UnderLeaseSince(log, i, j, p.node, p.worker, p.attempt);
  }

  // ---- COMPLETED and CANCELLED are final ----

  predicate Final(st: NodeState) {
    st.Completed? || st.Cancelled?
  }

  lemma FinalKept(last: Payload, s: RunData, e: Event, n: string)
    requires Legal(last, s, e) && Inv(s) && n in s.nodes && Final(s.nodes[n].state)
    ensures n in Step(s, e).nodes && Step(s, e).nodes[n].state == s.nodes[n].state
  {
    hide StackInv, ActiveInv, TimerInv, WellFormed, Readiness, Leased, PhaseInv;
    if e.payload.NodeCompleted? {
      CompletionEffect(last, s, e);
      LegalBasics(last, s, e);
    } else {
      LegalMoves(last, s, e);
      assert NodeMove(s.nodes[n], Step(s, e).nodes[n]);
    }
  }

  lemma {:induction false} FinalStates(log: seq<Event>, i: nat, n: string)
    requires LegalLog(log) && 0 < i <= |log| && n in StateOf(log[..i]).nodes && Final(StateOf(log[..i]).nodes[n].state)
    ensures n in StateOf(log).nodes && StateOf(log).nodes[n].state == StateOf(log[..i]).nodes[n].state
    decreases |log|
  {
    hide Legal, Step, Inv;
    if i == |log| {
      assert log[..i] == log;
    } else {
      assert Front(log)[..i] == log[..i];
      FinalStates(Front(log), i, n);
      LogInv(Front(log));
      FinalKept(Last(Front(log)).payload, StateOf(Front(log)), Last(log), n);
    }
  }

  lemma CompletionCompletes(last: Payload, s: RunData, e: Event)
    requires Legal(last, s, e) && e.payload.NodeCompleted?
    ensures e.payload.node in s.nodes && s.nodes[e.payload.node].state.Running?
    ensures e.payload.node in Step(s, e).nodes && Step(s, e).nodes[e.payload.node].state.Completed?
  {
    CompletionEffect(last, s, e);
    LegalBasics(last, s, e);
  }

  /** A node completes at most once. */
  lemma CompletesOnce(log: seq<Event>, i: nat, j: nat)
    requires LegalLog(log) && 0 < i < j < |log|
    requires log[i].payload.NodeCompleted? && log[j].payload.NodeCompleted?
    ensures log[i].payload.node != log[j].payload.node
  {
    hide Legal, Step, StateOf;
    LegalAt(log, i);
    LegalAt(log, j);
    CompletionCompletes(log[i - 1].payload, StateOf(log[..i]), log[i]);
    CompletionCompletes(log[j - 1].payload, StateOf(log[..j]), log[j]);
    assert log[..j][..i + 1] == log[..i + 1];
    if log[i].payload.node == log[j].payload.node {
      FinalStates(log[..j], i + 1, log[i].payload.node);
    }
  }

  // ---- Expiries are justified ----

  // Event k is the last sign of life of the lease (n, w, a), uninterrupted since.
  predicate SignOfLife(p: Payload, n: string, w: string, a: uint32) {
    p == NodeStarted(n, w, a) || p == HeartbeatRecorded(n, w, a)
  }

  ghost predicate LastSign(log: seq<Event>, k: nat, n: string, w: string, a: uint32) {
    k < |log| && SignOfLife(log[k].payload, n, w, a) &&
    forall m | k < m < |log| :: !SignOfLife(log[m].payload, n, w, a) && !Interrupts(log[m].payload, n)
  }

  ghost predicate SignAfter(a: Nodes, e: Event, n: string, b: Node) {
    if SignOfLife(e.payload, n, b.worker, b.attempt) then b.heartbeat == Some(e.timestamp)
    else n in a && b == a[n] && !Interrupts(e.payload, n)
  }

  lemma SignEffect(last: Payload, s: RunData, e: Event, n: string)
    requires Legal(last, s, e) && n in Step(s, e).nodes && Step(s, e).nodes[n].state.Running?
    ensures SignAfter(s.nodes, e, n, Step(s, e).nodes[n])
  {
    hide Legal, Step, NodesMove;
    if e.payload.NodeCompleted? { CompletionSign(last, s, e, n); }
    else if TouchesNode(e.payload) { TouchSign(last, s, e, n); }
    else if e.payload.HeartbeatRecorded? { BeatSign(s, e, n); }
    else if e.payload.TimerFired? { FiredKnown(last, s, e); FireEffect(s, e); }
    else { NodesUntouched(last, s, e); }
  }

  lemma TouchSign(last: Payload, s: RunData, e: Event, n: string)
    requires Legal(last, s, e) && TouchesNode(e.payload) && n in Step(s, e).nodes && Step(s, e).nodes[n].state.Running?
    ensures SignAfter(s.nodes, e, n, Step(s, e).nodes[n])
  {
    TouchMoves(last, s, e);
  }

  lemma BeatSign(s: RunData, e: Event, n: string)
    requires e.payload.HeartbeatRecorded? && n in Step(s, e).nodes
    ensures SignAfter(s.nodes, e, n, Step(s, e).nodes[n])
  {
  }

  lemma CompletionSign(last: Payload, s: RunData, e: Event, n: string)
    requires Legal(last, s, e) && e.payload.NodeCompleted? && n in Step(s, e).nodes && Step(s, e).nodes[n].state.Running?
    ensures n in s.nodes && Step(s, e).nodes[n] == s.nodes[n] && n != e.payload.node
  {
    CompletionRunning(last, s, e, n);
    CompletionEffect(last, s, e);
  }

  lemma {:induction false} HeartbeatIsLastSign(log: seq<Event>, n: string) returns (k: nat)
    requires LegalLog(log) && n in StateOf(log).nodes && StateOf(log).nodes[n].state.Running?
    ensures var node := StateOf(log).nodes[n];
      LastSign(log, k, n, node.worker, node.attempt) && node.heartbeat == Some(log[k].timestamp)
    decreases |log|
  {
    hide Legal, Step, Inv;
    k := 0;
    if |log| == 1 {
      StartAttempts(log, n);
    } else {
      var s, e, last := StateOf(Front(log)), Last(log), Last(Front(log)).payload;
      var node := StateOf(log).nodes[n];
      LogInv(Front(log));
      SignEffect(last, s, e, n);
      if SignOfLife(e.payload, n, node.worker, node.attempt) {
        k := |log| - 1;
      } else {
        k := HeartbeatIsLastSign(Front(log), n);
        assert forall m | 0 <= m < |log| - 1 :: log[m] == Front(log)[m];
      }
    }
  }

  /** A lease expires only when the last start or heartbeat of that very lease lies
      more than the heartbeat timeout back, although compensation heartbeats use
      the same event type. */
  lemma ExpiryJustified(log: seq<Event>, i: nat) returns (k: nat)
    requires LegalLog(log) && 0 < i < |log| && log[i].payload.LeaseExpired?
    ensures var p := log[i].payload;
      LastSign(log[..i], k, p.node, p.worker, p.attempt) && log[i].timestamp - log[k].timestamp > HEARTBEAT_TIMEOUT
  {
    hide Legal, Step, StateOf;
    LegalAt(log, i);
    ExpiryOverdue(log[i - 1].payload, StateOf(log[..i]), log[i]);
    k := HeartbeatIsLastSign(log[..i], log[i].payload.node);
    assert log[..i][k] == log[k];
  }

  lemma ExpiryOverdue(last: Payload, s: RunData, e: Event)
    requires Legal(last, s, e) && e.payload.LeaseExpired?
    ensures Holds(s, e.payload.node, e.payload.worker, e.payload.attempt)
    ensures Overdue(s.nodes[e.payload.node], e.timestamp)
  {
  }
}
