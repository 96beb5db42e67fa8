/** Timer discipline over whole histories, and the bound on retries. */
module Timers {
  import opened Runtime
  import opened State
  import opened TimerIds
  import opened EngineSpec
  import opened Guards
  import opened Invariant
  import opened Logs
  import opened Fencing
  import Growth
  import Sets

  // ---- What the log says about one timer ----

  predicate Concerns(p: Payload, id: string) {
    (p.TimerScheduled? || p.TimerFired?) && p.timer == id
  }

  // The position of the schedule that is still waiting to fire.
  function PendingSince(log: seq<Event>, id: string): (r: Option<nat>)
    ensures r.Some? ==> r.value < |log| && log[r.value].payload.TimerScheduled? && log[r.value].payload.timer == id
    ensures r.Some? ==> forall k | r.value < k < |log| :: !Concerns(log[k].payload, id)
  {
    if log == [] then None
    else
      var p := Last(log).payload;
      if p.TimerScheduled? && p.timer == id then Some(|log| - 1)
      else if p.TimerFired? && p.timer == id then None
      else PendingSince(Front(log), id)
  }

  ghost predicate Scheduled(log: seq<Event>, id: string) {
    exists k :: 0 <= k < |log| && log[k].payload.TimerScheduled? && log[k].payload.timer == id
  }

  predicate TimerOf(t: Timer, p: Payload) {
    p.TimerScheduled? && t.id == p.timer && t.node == p.node && t.attempt == p.attempt && t.purpose == p.purpose && t.fireAt == p.fireAt
  }

  // The state keeps a timer exactly as its last schedule described it.
  ghost predicate Tracks(timers: map<string, Timer>, log: seq<Event>, id: string) {
    && (id in timers <==> Scheduled(log, id))
    && (id in timers && !timers[id].fired <==> PendingSince(log, id).Some?)
    && (PendingSince(log, id).Some? ==> TimerOf(timers[id], log[PendingSince(log, id).value].payload))
  }

  lemma ScheduledAppend(log: seq<Event>, id: string)
    requires log != []
    ensures Scheduled(log, id) <==>
      Scheduled(Front(log), id) || (Last(log).payload.TimerScheduled? && Last(log).payload.timer == id)
  {
    if Scheduled(Front(log), id) {
      var k: nat :| k < |Front(log)| && Front(log)[k].payload.TimerScheduled? && Front(log)[k].payload.timer == id;
      assert log[k] == Front(log)[k];
    }
    if Scheduled(log, id) {
      var k: nat :| k < |log| && log[k].payload.TimerScheduled? && log[k].payload.timer == id;
      if k < |log| - 1 { assert Front(log)[k] == log[k]; }
    }
  }

  lemma {:induction false} TimersTrack(log: seq<Event>, id: string)
    requires LegalLog(log)
    ensures Tracks(StateOf(log).timers, log, id)
    decreases |log|
  {
    hide Legal, Step, WellFormed, Readiness, Leased, StackInv, ActiveInv, PhaseInv, TimerInv, Scheduled;
    ScheduledAppend(log, id);
    if |log| == 1 {
      StartAttempts(log, "");
      assert !Scheduled([], id) by { NothingScheduled(id); }
      assert Front(log) == [];
    } else {
      var s, e, last := StateOf(Front(log)), Last(log), Last(Front(log)).payload;
      TimersTrack(Front(log), id);
      LogInv(Front(log));
      TimerEffect(last, s, e);
      if e.payload.TimerFired? { FiredKnown(last, s, e); }
      var r := PendingSince(Front(log), id);
      if r.Some? { assert Front(log)[r.value] == log[r.value]; }
    }
  }

  lemma NothingScheduled(id: string)
    ensures !Scheduled([], id)
  {
  }

  /** Every firing answers the latest schedule of that timer, which nothing answered
      before, and never comes before the scheduled time. */
  lemma FiringJustified(log: seq<Event>, i: nat) returns (j: nat)
    requires LegalLog(log) && 0 < i < |log| && log[i].payload.TimerFired?
    ensures var p := log[i].payload;
      && j < i && log[j].payload.TimerScheduled? && log[j].payload.timer == p.timer
      && log[j].payload.node == p.node && log[j].payload.attempt == p.attempt && log[j].payload.purpose == p.purpose
      && (forall k | j < k < i :: !Concerns(log[k].payload, p.timer))
      && log[j].payload.fireAt <= log[i].timestamp
  {
    hide Legal, Step, StateOf, Scheduled;
    var id := log[i].payload.timer;
    LegalAt(log, i);
    TimersTrack(log[..i], id);
    FiredKnown(log[i - 1].payload, StateOf(log[..i]), log[i]);
    j := PendingSince(log[..i], id).value;
    assert log[..i][j] == log[j];
    forall k | j < k < i ensures !Concerns(log[k].payload, id) { assert log[..i][k] == log[k]; }
  }

  // ---- Timer ids are not reused ----

  predicate FencedTimer(node: Node, t: Timer) {
    && t.attempt <= node.attempt
    && (t.attempt == node.attempt ==>
          && !(node.state.Ready? && node.worker != "")
          && (t.purpose.ExecDeadline? || !node.state.Running?))
  }

  predicate FencedNode(node: Node) {
    && (node.state.Pending? ==> node.worker == "")
    && (node.attempt == 0 ==> !node.state.Running? && node.worker == "")
  }

  /** Timers of earlier leases lie behind the attempt counter; a timer of the
      current lease rules out that the same lease is about to start or, unless it
      is the execution deadline, still runs. */
  ghost predicate Fenced(s: RunData, n: string) {
    n in s.nodes ==>
      && FencedNode(s.nodes[n])
      && forall id | id in s.timers && s.timers[id].node == n && !s.timers[id].purpose.AbsDeadline? ::
           FencedTimer(s.nodes[n], s.timers[id])
  }

  // How one event may move a node's attempt, state and worker, below the wrap.
  predicate Fences(a: Node, b: Node) {
    || (b.attempt == a.attempt + 1 && b.state.Ready?)
    || (b.attempt == a.attempt && b.state.Running? && a.state.Ready? && a.worker != "")
    || (b.attempt == a.attempt && !b.state.Pending? && b.worker == "" && !b.state.Running?)
    || (b.attempt == a.attempt && !b.state.Pending? && !b.state.Ready? && !b.state.Running? && b.worker == a.worker)
    || (b.attempt == a.attempt && a.state.Pending? && b.worker == a.worker && b.state.Ready?)
    || (b.attempt == a.attempt && b.state == a.state && b.worker == a.worker)
  }

  lemma FencesKeep(a: Node, b: Node, t: Timer)
    requires Fences(a, b) && FencedNode(a)
    ensures FencedNode(b)
    ensures FencedTimer(a, t) ==> FencedTimer(b, t)
  {
  }

  lemma TouchFences(last: Payload, s: RunData, e: Event)
    requires Legal(last, s, e) && TouchesNode(e.payload)
    requires e.payload.LeaseGranted? ==> s.nodes[e.payload.node].attempt + 1 < UINT32_LIMIT
    ensures e.payload.node in s.nodes && e.payload.node in Step(s, e).nodes
    ensures Fences(s.nodes[e.payload.node], Step(s, e).nodes[e.payload.node])
    ensures Step(s, e).nodes == s.nodes[e.payload.node := Step(s, e).nodes[e.payload.node]]
  {
    TouchMoves(last, s, e);
  }

  lemma CompletionFences(last: Payload, s: RunData, e: Event, n: string)
    requires Legal(last, s, e) && e.payload.NodeCompleted? && n in Step(s, e).nodes
    ensures n in s.nodes ==> Fences(s.nodes[n], Step(s, e).nodes[n])
    ensures n !in s.nodes ==> FencedNode(Step(s, e).nodes[n])
  {
    CompletionEffect(last, s, e);
    var p := e.payload;
    hide Legal, Step;
    if n !in s.nodes {
      var i :| 0 <= i < |p.spawned| && p.spawned[i].id == n;
    }
  }

  lemma NodeFences(last: Payload, s: RunData, e: Event, n: string)
    requires Legal(last, s, e) && n in Step(s, e).nodes
    requires GrantsTo(e.payload, n) ==> n in s.nodes && s.nodes[n].attempt + 1 < UINT32_LIMIT
    ensures n in s.nodes ==> Fences(s.nodes[n], Step(s, e).nodes[n])
    ensures n !in s.nodes ==> FencedNode(Step(s, e).nodes[n])
  {
    hide Legal, Step, NodesMove;
    if e.payload.NodeCompleted? { CompletionFences(last, s, e, n); }
    else if TouchesNode(e.payload) {
      if e.payload.node == n { TouchFences(last, s, e); } else { TouchAttempt(last, s, e); }
    }
    else if e.payload.HeartbeatRecorded? { BeatEffect(s, e); }
    else if e.payload.TimerFired? { FiredKnown(last, s, e); FireEffect(s, e); }
    else { NodesUntouched(last, s, e); }
  }

  lemma ScheduleFenced(last: Payload, s: RunData, e: Event)
    requires Legal(last, s, e) && e.payload.TimerScheduled? && !e.payload.purpose.AbsDeadline?
    ensures var p := e.payload;
      && p.node in s.nodes && Step(s, e).nodes == s.nodes
      && FencedTimer(s.nodes[p.node], Timer(p.timer, p.node, p.attempt, p.purpose, p.fireAt, false))
  {
  }

  lemma FencedStep(last: Payload, s: RunData, e: Event, n: string)
    requires Legal(last, s, e) && Inv(s) && Fenced(s, n)
    requires GrantsTo(e.payload, n) ==> n in s.nodes && s.nodes[n].attempt + 1 < UINT32_LIMIT
    ensures Fenced(Step(s, e), n)
  {
    hide Legal, Step, WellFormed, Readiness, Leased, StackInv, ActiveInv, PhaseInv, TimerInv, Fences, FencedTimer, FencedNode;
    TimerEffect(last, s, e);
    var t := Step(s, e);
    if n in t.nodes {
      NodeFences(last, s, e, n);
      if e.payload.TimerScheduled? && !e.payload.purpose.AbsDeadline? { ScheduleFenced(last, s, e); }
      if e.payload.TimerFired? { FiredKnown(last, s, e); }
      forall id | id in t.timers && t.timers[id].node == n && !t.timers[id].purpose.AbsDeadline?
        ensures FencedTimer(t.nodes[n], t.timers[id])
      {
        FencedTimerStep(last, s, e, n, id);
      }
      if n in s.nodes { FencesKeep(s.nodes[n], t.nodes[n], Timer("", "", 0, AbsDeadline, 0, false)); }
    }
  }

  lemma FencedTimerStep(last: Payload, s: RunData, e: Event, n: string, id: string)
    requires Legal(last, s, e) && Inv(s) && Fenced(s, n) && n in Step(s, e).nodes
    requires n in s.nodes ==> Fences(s.nodes[n], Step(s, e).nodes[n])
    requires id in Step(s, e).timers && Step(s, e).timers[id].node == n && !Step(s, e).timers[id].purpose.AbsDeadline?
    ensures FencedTimer(Step(s, e).nodes[n], Step(s, e).timers[id])
  {
    TimerEffect(last, s, e);
    if e.payload.TimerScheduled? && !e.payload.purpose.AbsDeadline? { ScheduleFenced(last, s, e); }
    if e.payload.TimerFired? { FiredKnown(last, s, e); }
    if id in s.timers { assert TimerOk(s, id, s.timers[id]); }
    hide Legal, Step, WellFormed, Readiness, Leased, StackInv, ActiveInv, PhaseInv, TimerInv, Fences, FencedNode;
    if id in s.timers && !(e.payload.TimerScheduled? && e.payload.timer == id) {
      FencesKeep(s.nodes[n], Step(s, e).nodes[n], s.timers[id]);
    }
  }

  lemma {:induction false} HistoryFenced(log: seq<Event>, n: string)
    requires LegalLog(log) && GrantCount(log, n) < UINT32_LIMIT
    ensures Fenced(StateOf(log), n)
    decreases |log|
  {
    hide Legal, Step, Inv;
    if |log| == 1 {
      StartAttempts(log, n);
    } else {
      var s, e, last := StateOf(Front(log)), Last(log), Last(Front(log)).payload;
      HistoryFenced(Front(log), n);
      LogInv(Front(log));
      AttemptCountsLeases(Front(log), n);
      GrantKnown(last, s, e);
      FencedStep(last, s, e, n);
    }
  }

  // The two events before the timer: the one that opened this stage of the lease.
  lemma ScheduleTwoBack(before: Payload, s: RunData, d: Event, e: Event)
    requires Legal(before, s, d) && Legal(d.payload, Step(s, d), e)
    requires e.payload.TimerScheduled? && !e.payload.purpose.AbsDeadline?
    ensures var p := e.payload;
      && p.node in s.nodes && p.attempt == s.nodes[p.node].attempt && Step(s, d).timers == s.timers
      && p.timer == TimerId(s.runId, p.node, p.attempt, p.purpose)
      && (p.purpose.ExecDeadline? ==> s.nodes[p.node].state.Ready? && s.nodes[p.node].worker != "")
      && (!p.purpose.ExecDeadline? ==> s.nodes[p.node].state.Running?)
      && (p.purpose.RetryBackoff? ==> s.nodes[p.node].def.retry.Some? && p.attempt < s.nodes[p.node].def.retry.value.maxAttempts)
  {
    assert d.payload.NodeStarted? || d.payload.CheckpointReached? || d.payload.NodeFailed?;
    TouchMoves(before, s, d);
  }

  lemma FirstHasNoTimer(s: RunData, e: Event, d: Payload)
    requires d.WorkflowStarted? && Legal(d, s, e) && e.payload.TimerScheduled?
    ensures e.payload.purpose.AbsDeadline?
  {
  }

  // What the log says where a lease-bound timer is scheduled.
  lemma ScheduleKnown(log: seq<Event>, i: nat)
    requires LegalLog(log) && 0 < i < |log| && log[i].payload.TimerScheduled? && !log[i].payload.purpose.AbsDeadline?
    ensures i >= 2
    ensures var p := log[i].payload; var s := StateOf(log[..i - 1]);
      && p.node in s.nodes && p.attempt == s.nodes[p.node].attempt && StateOf(log[..i]).timers == s.timers
      && p.timer == TimerId(s.runId, p.node, p.attempt, p.purpose)
      && (p.purpose.ExecDeadline? ==> s.nodes[p.node].state.Ready? && s.nodes[p.node].worker != "")
      && (!p.purpose.ExecDeadline? ==> s.nodes[p.node].state.Running?)
      && (p.purpose.RetryBackoff? ==> s.nodes[p.node].def.retry.Some? && p.attempt < s.nodes[p.node].def.retry.value.maxAttempts)
  {
    hide Legal, Step, StateOf;
    LegalAt(log, i);
    if i == 1 {
      StartsFirst(log);
      FirstHasNoTimer(StateOf(log[..1]), log[1], log[0].payload);
    } else {
      LegalAt(log, i - 1);
      ScheduleTwoBack(log[i - 2].payload, StateOf(log[..i - 1]), log[i - 1], log[i]);
    }
  }

  /** A lease-bound timer gets an id that no timer of the run has had before. */
  lemma ScheduledFresh(log: seq<Event>, i: nat)
    requires LegalLog(log) && 0 < i < |log| && log[i].payload.TimerScheduled? && !log[i].payload.purpose.AbsDeadline?
    requires GrantCount(log, log[i].payload.node) < UINT32_LIMIT
    ensures log[i].payload.timer !in StateOf(log[..i]).timers
  {
    hide Legal, Step, StateOf, WellFormed, Readiness, Leased, StackInv, ActiveInv, PhaseInv, GrantCount;
    var p := log[i].payload;
    ScheduleKnown(log, i);
    var s := StateOf(log[..i - 1]);
    LegalPrefix(log, i - 1);
    LogInv(log[..i - 1]);
    GrantCountGrows(log, i - 1, p.node);
    HistoryFenced(log[..i - 1], p.node);
    if p.timer in s.timers {
      var t := s.timers[p.timer];
      assert TimerOk(s, p.timer, t);
      TimerIdInjective(s.runId, p.node, p.attempt, p.purpose, t.node, t.attempt, t.purpose);
    }
  }

  lemma {:induction false} TimersKept(log: seq<Event>, i: nat, id: string)
    requires LegalLog(log) && 0 < i <= |log| && id in StateOf(log[..i]).timers
    ensures id in StateOf(log).timers
    decreases |log|
  {
    hide Legal, Step, WellFormed, Readiness, Leased, StackInv, ActiveInv, PhaseInv, TimerInv;
    if i == |log| {
      assert log[..i] == log;
    } else {
      assert Front(log)[..i] == log[..i];
      TimersKept(Front(log), i, id);
      LogInv(Front(log));
      TimerEffect(Last(Front(log)).payload, StateOf(Front(log)), Last(log));
      if Last(log).payload.TimerFired? { FiredKnown(Last(Front(log)).payload, StateOf(Front(log)), Last(log)); }
    }
  }

  lemma ScheduleLands(log: seq<Event>, i: nat)
    requires LegalLog(log) && 0 < i < |log| && log[i].payload.TimerScheduled?
    ensures log[i].payload.timer in StateOf(log[..i + 1]).timers
  {
    hide Legal, Step, StateOf, WellFormed, Readiness, Leased, StackInv, ActiveInv, PhaseInv, TimerInv;
    LegalAt(log, i);
    LogInv(log[..i]);
    TimerEffect(log[i - 1].payload, StateOf(log[..i]), log[i]);
  }

  /** No lease-bound timer id is scheduled twice in a history with fewer than 2^32
      leases of the node, so no schedule ever overwrites another timer. */
  lemma ScheduledOnce(log: seq<Event>, i: nat, j: nat)
    requires LegalLog(log) && 0 < i < j < |log|
    requires log[i].payload.TimerScheduled? && log[j].payload.TimerScheduled? && !log[j].payload.purpose.AbsDeadline?
    requires GrantCount(log, log[j].payload.node) < UINT32_LIMIT
    ensures log[i].payload.timer != log[j].payload.timer
  {
    hide Legal, Step, StateOf, GrantCount;
    ScheduledFresh(log, j);
    ScheduleLands(log, i);
    LegalPrefix(log, j);
    assert log[..j][..i + 1] == log[..i + 1];
    if log[i].payload.timer == log[j].payload.timer {
      TimersKept(log[..j], i + 1, log[j].payload.timer);
    }
  }

  lemma NoPendingAbsolute(last: Payload, s: RunData, e: Event)
    requires Legal(last, s, e) && TimerInv(s) && e.payload.TimerScheduled? && e.payload.purpose.AbsDeadline?
    ensures e.payload.timer in s.timers ==> s.timers[e.payload.timer].fired
  {
    var p := e.payload;
    if p.timer in s.timers {
      var t := s.timers[p.timer];
      assert TimerOk(s, p.timer, t);
      TimerIdInjective(s.runId, p.node, p.attempt, p.purpose, t.node, t.attempt, t.purpose);
      assert !IsPendingTimer(t, p.node, AbsDeadline);
    }
  }

  /** Schedules and firings of one timer id alternate, starting with a schedule: a
      schedule finds none pending, a firing finds exactly one. */
  lemma Alternates(log: seq<Event>, i: nat)
    requires LegalLog(log) && 0 < i < |log| && (log[i].payload.TimerScheduled? || log[i].payload.TimerFired?)
    requires log[i].payload.TimerScheduled? && !log[i].payload.purpose.AbsDeadline? ==> GrantCount(log, log[i].payload.node) < UINT32_LIMIT
    ensures PendingSince(log[..i], log[i].payload.timer).Some? <==> log[i].payload.TimerFired?
  {
    hide Legal, Step, StateOf, WellFormed, Readiness, Leased, StackInv, ActiveInv, PhaseInv, TimerInv, GrantCount, Scheduled, PendingSince;
    LegalAt(log, i);
    LogInv(log[..i]);
    TimersTrack(log[..i], log[i].payload.timer);
    if log[i].payload.TimerFired? { FiredKnown(log[i - 1].payload, StateOf(log[..i]), log[i]); }
    else if log[i].payload.purpose.AbsDeadline? { NoPendingAbsolute(log[i - 1].payload, StateOf(log[..i]), log[i]); }
    else { ScheduledFresh(log, i); }
  }

  // ---- The retry bound ----

  predicate SchedulesRetry(p: Payload, n: string) {
    p.TimerScheduled? && p.purpose.RetryBackoff? && p.node == n
  }

  function RetryCount(log: seq<Event>, n: string): nat {
    if log == [] then 0 else RetryCount(Front(log), n) + if SchedulesRetry(Last(log).payload, n) then 1 else 0
  }

  ghost function RetryAttempts(log: seq<Event>, n: string): set<int> {
    set k | 0 <= k < |log| && SchedulesRetry(log[k].payload, n) :: log[k].payload.attempt
  }

  function RetryLimit(def: NodeDef): nat {
    if def.retry.Some? && def.retry.value.maxAttempts > 1 then def.retry.value.maxAttempts - 1 else 0
  }

  lemma RetryAttemptsAppend(log: seq<Event>, n: string)
    requires log != []
    ensures RetryAttempts(log, n) == RetryAttempts(Front(log), n) + if SchedulesRetry(Last(log).payload, n) then {Last(log).payload.attempt} else {}
  {
    forall a | a in RetryAttempts(Front(log), n) ensures a in RetryAttempts(log, n) {
      var k :| 0 <= k < |Front(log)| && SchedulesRetry(Front(log)[k].payload, n) && Front(log)[k].payload.attempt == a;
      assert log[k] == Front(log)[k];
    }
    forall a | a in RetryAttempts(log, n)
      ensures a in RetryAttempts(Front(log), n) || (SchedulesRetry(Last(log).payload, n) && a == Last(log).payload.attempt)
    {
      var k :| 0 <= k < |log| && SchedulesRetry(log[k].payload, n) && log[k].payload.attempt == a;
      if k < |log| - 1 { assert Front(log)[k] == log[k]; }
    }
    if SchedulesRetry(Last(log).payload, n) { assert log[|log| - 1].payload.attempt in RetryAttempts(log, n); }
  }

  lemma SameTimerId(log: seq<Event>, k: nat, i: nat)
    requires LegalLog(log) && 0 < k < |log| && 0 < i < |log|
    requires log[i].payload.TimerScheduled? && log[i].payload.purpose.RetryBackoff?
    requires SchedulesRetry(log[k].payload, log[i].payload.node)
    requires log[k].payload.attempt == log[i].payload.attempt
    ensures log[k].payload.timer == log[i].payload.timer
  {
    hide Legal, Step, StateOf, Inv;
    ScheduleKnown(log, k);
    ScheduleKnown(log, i);
    LegalPrefix(log, k - 1);
    LegalPrefix(log, i - 1);
    LogInv(log[..k - 1]);
    LogInv(log[..i - 1]);
  }

  lemma {:induction false} RetriesCounted(log: seq<Event>, n: string)
    requires LegalLog(log) && GrantCount(log, n) < UINT32_LIMIT
    ensures RetryCount(log, n) == |RetryAttempts(log, n)|
    decreases |log|
  {
    hide Legal, Step, StateOf;
    RetryAttemptsAppend(log, n);
    if |log| == 1 {
      assert Front(log) == [];
    } else {
      var front, i := Front(log), |log| - 1;
      RetriesCounted(front, n);
      if SchedulesRetry(Last(log).payload, n) && Last(log).payload.attempt in RetryAttempts(front, n) {
        var k :| 0 <= k < |front| && SchedulesRetry(front[k].payload, n) && front[k].payload.attempt == log[i].payload.attempt;
        assert log[k] == front[k];
        StartsFirst(log);
        SameTimerId(log, k, i);
        ScheduledOnce(log, k, i);
      }
    }
  }

  lemma RetryAttemptInRange(log: seq<Event>, k: nat, n: string)
    requires LegalLog(log) && k < |log| && SchedulesRetry(log[k].payload, n) && GrantCount(log, n) < UINT32_LIMIT
    ensures n in StateOf(log).nodes && 1 <= log[k].payload.attempt <= RetryLimit(StateOf(log).nodes[n].def)
  {
    hide Legal, Step, StateOf, GrantCount;
    StartsFirst(log);
    ScheduleKnown(log, k);
    LegalPrefix(log, k - 1);
    GrantCountGrows(log, k - 1, n);
    HistoryFenced(log[..k - 1], n);
    Growth.DefinitionsStable(log, k - 1, n);
  }

  // The numbers 1, ..., m.
  function Upto(m: nat): (r: set<int>)
    ensures |r| == m && forall a :: a in r <==> 1 <= a <= m
  {
    if m == 0 then {} else Upto(m - 1) + {m}
  }

  /** Whatever leases expire, checkpoints intervene or processes restart, a node's
      whole history holds at most max(0, maxAttempts - 1) retry timers. */
  lemma RetryBound(log: seq<Event>, n: string)
    requires LegalLog(log) && n in StateOf(log).nodes && GrantCount(log, n) < UINT32_LIMIT
    ensures RetryCount(log, n) <= RetryLimit(StateOf(log).nodes[n].def)
  {
    hide Legal, Step, StateOf, LegalLog, GrantCount, RetryCount;
    var limit := RetryLimit(StateOf(log).nodes[n].def);
    var attempts := RetryAttempts(log, n);
    RetriesCounted(log, n);
    forall a | a in attempts ensures 1 <= a <= limit {
      var k :| 0 <= k < |log| && SchedulesRetry(log[k].payload, n) && log[k].payload.attempt == a;
      RetryAttemptInRange(log, k, n);
    }
    Sets.SubsetSize(attempts, Upto(limit));
  }
}
