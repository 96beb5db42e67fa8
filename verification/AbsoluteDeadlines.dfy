/** The absolute deadline, which the specification says cannot be paused or extended:
    the code re-arms it after a firing that missed, and only then. */
module AbsoluteDeadlines {
  import opened Runtime
  import opened State
  import opened Strings
  import opened TimerIds
  import opened Workflowdef
  import opened EngineSpec
  import opened Guards
  import opened Invariant
  import opened Logs
  import opened Operations
  import opened Quiescence
  import opened Runs
  import opened Fencing
  import opened Timers
  import opened Scenarios

  // ---- A node that timed out is never retried ----

  predicate PendingRetry(t: Timer, n: string, a: uint32) {
    t.node == n && t.purpose.RetryBackoff? && !t.fired && t.attempt == a
  }

  /** A backoff pending for a node's current attempt means the node stands FAILED. */
  ghost predicate BackoffMeansFailed(s: RunData, n: string) {
    n in s.nodes && !s.nodes[n].state.Failed? ==>
      forall id | id in s.timers :: !PendingRetry(s.timers[id], n, s.nodes[n].attempt)
  }

  // FAILED, with no backoff that could still revive it.
  ghost predicate GivenUp(s: RunData, n: string) {
    n in s.nodes && s.nodes[n].state.Failed? &&
    forall id | id in s.timers :: !PendingRetry(s.timers[id], n, s.nodes[n].attempt)
  }

  // Leaving FAILED takes the backoff timer of the current attempt.
  ghost predicate LeavesFailed(s: RunData, e: Event, n: string, b: Node)
    requires n in s.nodes
  {
    s.nodes[n].state.Failed? ==>
      || (b.state.Failed? && b.attempt == s.nodes[n].attempt)
      || (e.payload.TimerFired? && e.payload.purpose.RetryBackoff? && e.payload.node == n && e.payload.attempt == s.nodes[n].attempt
          && b.state.Ready? && b.attempt == s.nodes[n].attempt)
  }

  lemma FailedMoves(last: Payload, s: RunData, e: Event, n: string)
    requires Legal(last, s, e) && n in s.nodes && n in Step(s, e).nodes
    ensures LeavesFailed(s, e, n, Step(s, e).nodes[n])
    ensures s.nodes[n].state.Failed? ==> !(e.payload.NodeFailed? && e.payload.node == n)
  {
    hide Legal, Step, NodesMove, LeavesFailed;
    if e.payload.NodeCompleted? { CompletionFailed(last, s, e, n); }
    else if TouchesNode(e.payload) { TouchFailed(last, s, e, n); }
    else if e.payload.HeartbeatRecorded? { BeatEffect(s, e); SameFailed(s, e, n); }
    else if e.payload.TimerFired? { FiringFailed(last, s, e, n); }
    else { NodesUntouched(last, s, e); SameFailed(s, e, n); }
  }

  lemma SameFailed(s: RunData, e: Event, n: string)
    requires n in s.nodes && n in Step(s, e).nodes
    requires Step(s, e).nodes[n].state == s.nodes[n].state && Step(s, e).nodes[n].attempt == s.nodes[n].attempt
    ensures LeavesFailed(s, e, n, Step(s, e).nodes[n])
  {
    hide Step;
  }

  lemma TouchFailed(last: Payload, s: RunData, e: Event, n: string)
    requires Legal(last, s, e) && TouchesNode(e.payload) && n in s.nodes && n in Step(s, e).nodes
    ensures LeavesFailed(s, e, n, Step(s, e).nodes[n])
    ensures s.nodes[n].state.Failed? ==> !(e.payload.NodeFailed? && e.payload.node == n)
  {
    TouchMoves(last, s, e);
  }

  lemma FiringFailed(last: Payload, s: RunData, e: Event, n: string)
    requires Legal(last, s, e) && e.payload.TimerFired? && n in s.nodes && n in Step(s, e).nodes
    ensures LeavesFailed(s, e, n, Step(s, e).nodes[n])
  {
  }

  lemma CompletionFailed(last: Payload, s: RunData, e: Event, n: string)
    requires Legal(last, s, e) && e.payload.NodeCompleted? && n in s.nodes && n in Step(s, e).nodes
    ensures LeavesFailed(s, e, n, Step(s, e).nodes[n])
  {
    CompletionEffect(last, s, e);
    LegalBasics(last, s, e);
  }

  lemma RetryScheduled(last: Payload, s: RunData, e: Event)
    requires Legal(last, s, e) && e.payload.TimerScheduled? && e.payload.purpose.RetryBackoff?
    ensures var n := e.payload.node;
      n in s.nodes && s.nodes[n].state.Failed? && Step(s, e).nodes == s.nodes && last.NodeFailed? && last.node == n && last.retryable
  {
  }

  // Timers of one node and purpose that agree on the attempt are one timer.
  lemma OneRetryTimer(s: RunData, id: string, other: string, n: string, a: uint32)
    requires TimerInv(s) && id in s.timers && other in s.timers
    requires PendingRetry(s.timers[id], n, a)
    requires var t := s.timers[other]; t.node == n && t.purpose.RetryBackoff? && t.attempt == a
    ensures id == other
  {
    assert TimerOk(s, id, s.timers[id]) && TimerOk(s, other, s.timers[other]);
  }

  lemma BackoffStep(last: Payload, s: RunData, e: Event, n: string)
    requires Legal(last, s, e) && Inv(s) && Fenced(s, n) && BackoffMeansFailed(s, n)
    requires GrantsTo(e.payload, n) ==> n in s.nodes && s.nodes[n].attempt + 1 < UINT32_LIMIT
    ensures BackoffMeansFailed(Step(s, e), n)
  {
    hide Legal, Step, WellFormed, Readiness, Leased, StackInv, ActiveInv, PhaseInv, TimerInv, Fences, FencedNode, LeavesFailed;
    var t := Step(s, e);
    TimerEffect(last, s, e);
    if n in t.nodes && !t.nodes[n].state.Failed? {
      NodeFences(last, s, e, n);
      forall id | id in t.timers ensures !PendingRetry(t.timers[id], n, t.nodes[n].attempt) {
        if n in s.nodes { BackoffTimerStep(last, s, e, n, id); }
        else { NewNodeHasNoTimer(last, s, e, n, id); }
      }
    }
  }

  lemma NewNodeHasNoTimer(last: Payload, s: RunData, e: Event, n: string, id: string)
    requires Legal(last, s, e) && TimerInv(s) && n !in s.nodes && id in Step(s, e).timers
    ensures Step(s, e).timers[id].node != n
  {
    TimerEffect(last, s, e);
    ScheduledOk(last, s, e);
    hide Legal, Step;
    if e.payload.TimerFired? { FiredKnown(last, s, e); }
    if id in s.timers { assert TimerOk(s, id, s.timers[id]); }
  }

  lemma BackoffTimerStep(last: Payload, s: RunData, e: Event, n: string, id: string)
    requires Legal(last, s, e) && Inv(s) && Fenced(s, n) && BackoffMeansFailed(s, n) && n in s.nodes && n in Step(s, e).nodes
    requires Fences(s.nodes[n], Step(s, e).nodes[n]) && !Step(s, e).nodes[n].state.Failed? && id in Step(s, e).timers
    ensures !PendingRetry(Step(s, e).timers[id], n, Step(s, e).nodes[n].attempt)
  {
    hide Legal, Step, WellFormed, Readiness, Leased, StackInv, ActiveInv, PhaseInv, TimerInv, FencedNode, LeavesFailed;
    var t := Step(s, e);
    TimerEffect(last, s, e);
    FailedMoves(last, s, e, n);
    Unfold(s, e, n);
    if e.payload.TimerScheduled? && e.payload.purpose.RetryBackoff? { RetryScheduled(last, s, e); }
    if e.payload.TimerFired? { FiredKnown(last, s, e); }
    if PendingRetry(t.timers[id], n, t.nodes[n].attempt) {
      assert id in s.timers && PendingRetry(s.timers[id], n, t.nodes[n].attempt);
      assert FencedTimer(s.nodes[n], s.timers[id]);
      if s.nodes[n].state.Failed? { OneRetryTimer(s, id, e.payload.timer, n, t.nodes[n].attempt); }
    }
  }

  lemma Unfold(s: RunData, e: Event, n: string)
    requires n in s.nodes && n in Step(s, e).nodes && LeavesFailed(s, e, n, Step(s, e).nodes[n])
    ensures s.nodes[n].state.Failed? && !Step(s, e).nodes[n].state.Failed? ==>
      e.payload.TimerFired? && e.payload.purpose.RetryBackoff? && e.payload.node == n && e.payload.attempt == s.nodes[n].attempt
      && Step(s, e).nodes[n].attempt == s.nodes[n].attempt
    ensures s.nodes[n].state.Failed? ==> Step(s, e).nodes[n].attempt == s.nodes[n].attempt
  {
    hide Step;
  }

  lemma {:induction false} BackoffHistory(log: seq<Event>, n: string)
    requires LegalLog(log) && GrantCount(log, n) < UINT32_LIMIT
    ensures BackoffMeansFailed(StateOf(log), n)
    decreases |log|
  {
    hide Legal, Step, Inv;
    if |log| == 1 {
      StartAttempts(log, n);
    } else {
      var s, e, last := StateOf(Front(log)), Last(log), Last(Front(log)).payload;
      BackoffHistory(Front(log), n);
      HistoryFenced(Front(log), n);
      LogInv(Front(log));
      AttemptCountsLeases(Front(log), n);
      GrantKnown(last, s, e);
      BackoffStep(last, s, e, n);
    }
  }

  lemma GivenUpStep(last: Payload, s: RunData, e: Event, n: string)
    requires Legal(last, s, e) && Inv(s) && GivenUp(s, n) && !(last.NodeFailed? && last.node == n && last.retryable)
    ensures GivenUp(Step(s, e), n) && !(e.payload.NodeFailed? && e.payload.node == n)
  {
    hide Legal, Step, WellFormed, Readiness, Leased, StackInv, ActiveInv, PhaseInv, TimerInv, LeavesFailed;
    var t := Step(s, e);
    KeysGrow(last, s, e);
    TimerEffect(last, s, e);
    FailedMoves(last, s, e, n);
    Unfold(s, e, n);
    if e.payload.TimerScheduled? && e.payload.purpose.RetryBackoff? { RetryScheduled(last, s, e); }
    if e.payload.TimerFired? { FiredKnown(last, s, e); FiredWasPending(last, s, e); }
  }

  lemma FiredWasPending(last: Payload, s: RunData, e: Event)
    requires Legal(last, s, e) && e.payload.TimerFired?
    ensures !s.timers[e.payload.timer].fired
  {
  }

  lemma TimeoutGivesUp(last: Payload, s: RunData, e: Event)
    requires Legal(last, s, e) && TimerInv(s) && e.payload.NodeFailed? && e.payload.timedOut && BackoffMeansFailed(s, e.payload.node)
    ensures GivenUp(Step(s, e), e.payload.node) && !e.payload.retryable
  {
    TimerEffect(last, s, e);
    TouchMoves(last, s, e);
  }

  /** A node failed by a deadline stays FAILED: it is neither retried nor leased again. */
  lemma {:induction false} TimedOutForever(log: seq<Event>, i: nat)
    requires LegalLog(log) && 0 < i < |log| && log[i].payload.NodeFailed? && log[i].payload.timedOut
    requires GrantCount(log, log[i].payload.node) < UINT32_LIMIT
    ensures GivenUp(StateOf(log), log[i].payload.node)
    ensures !(Last(log).payload.NodeFailed? && Last(log).payload.node == log[i].payload.node && Last(log).payload.retryable)
    decreases |log|
  {
    hide Legal, Step, WellFormed, Readiness, Leased, StackInv, ActiveInv, PhaseInv, TimerInv, GivenUp, BackoffMeansFailed;
    var s, e, last := StateOf(Front(log)), Last(log), Last(Front(log)).payload;
    LogInv(Front(log));
    if i == |log| - 1 {
      BackoffHistory(Front(log), log[i].payload.node);
      TimeoutGivesUp(last, s, e);
    } else {
      assert Front(log)[i] == log[i];
      TimedOutForever(Front(log), i);
      GivenUpStep(last, s, e, log[i].payload.node);
    }
  }

  // ---- When the absolute deadline is armed again ----

  predicate ArmsAbsolute(p: Payload, n: string) {
    p.TimerScheduled? && p.purpose.AbsDeadline? && p.node == n
  }

  predicate TimesOut(log: seq<Event>, k: nat, n: string) {
    k < |log| && log[k].payload.NodeFailed? && log[k].payload.node == n && log[k].payload.timedOut
  }

  /** Firing k of the absolute deadline missed: the node stood FAILED, or the process
      died before the node's failure was recorded. */
  ghost predicate Missed(log: seq<Event>, k: nat, n: string)
    requires k < |log|
  {
    && log[k].payload.TimerFired? && log[k].payload.purpose.AbsDeadline? && log[k].payload.node == n
    && n in StateOf(log[..k]).nodes
    && var st := StateOf(log[..k]).nodes[n].state;
       || st.Failed?
       || ((st.Ready? || st.Running? || st.AwaitingApproval?) && !TimesOut(log, k + 1, n))
  }

  // The event that answered the latest schedule of a timer.
  lemma {:induction false} LastFiring(log: seq<Event>, id: string) returns (k: nat)
    requires Scheduled(log, id) && PendingSince(log, id).None?
    ensures k < |log| && log[k].payload.TimerFired? && log[k].payload.timer == id
    ensures forall m | k < m < |log| :: !Concerns(log[m].payload, id)
    decreases |log|
  {
    var j: nat :| j < |log| && log[j].payload.TimerScheduled? && log[j].payload.timer == id;
    var p := Last(log).payload;
    if p.TimerFired? && p.timer == id {
      k := |log| - 1;
    } else {
      assert Front(log)[j] == log[j];
      k := LastFiring(Front(log), id);
      assert forall m | 0 <= m < |log| - 1 :: log[m] == Front(log)[m];
    }
  }

  lemma AbsoluteScheduled(last: Payload, s: RunData, e: Event, n: string)
    requires Legal(last, s, e) && TimerInv(s) && ArmsAbsolute(e.payload, n)
    ensures n in s.nodes && s.nodes[n].state.Running? && e.payload.timer == TimerId(s.runId, n, 0, AbsDeadline)
    ensures e.payload.timer in s.timers ==> s.timers[e.payload.timer].fired
  {
    NoPendingAbsolute(last, s, e);
  }

  // No event takes a node back to PENDING.
  lemma {:induction false} NeverPendingAgain(log: seq<Event>, i: nat, n: string)
    requires LegalLog(log) && 0 < i <= |log| && n in StateOf(log[..i]).nodes && !StateOf(log[..i]).nodes[n].state.Pending?
    ensures n in StateOf(log).nodes && !StateOf(log).nodes[n].state.Pending?
    decreases |log|
  {
    hide Legal, Step, Inv;
    if i == |log| {
      assert log[..i] == log;
    } else {
      assert Front(log)[..i] == log[..i];
      NeverPendingAgain(Front(log), i, n);
      LogInv(Front(log));
      NotPendingStep(Last(Front(log)).payload, StateOf(Front(log)), Last(log), n);
    }
  }

  lemma NotPendingStep(last: Payload, s: RunData, e: Event, n: string)
    requires Legal(last, s, e) && Inv(s) && n in s.nodes && !s.nodes[n].state.Pending?
    ensures n in Step(s, e).nodes && !Step(s, e).nodes[n].state.Pending?
  {
    hide StackInv, ActiveInv, TimerInv, WellFormed, Readiness, Leased, PhaseInv;
    if e.payload.NodeCompleted? {
      CompletionEffect(last, s, e);
    } else {
      LegalMoves(last, s, e);
      assert NodeMove(s.nodes[n], Step(s, e).nodes[n]);
    }
  }

  // What the log says where the deadline is armed.
  lemma ArmedAt(log: seq<Event>, i: nat, n: string)
    requires LegalLog(log) && 0 < i < |log| && ArmsAbsolute(log[i].payload, n)
    ensures log[i].payload.timer == TimerId(log[0].runId, n, 0, AbsDeadline)
    ensures n in StateOf(log[..i]).nodes && StateOf(log[..i]).nodes[n].state.Running?
    ensures var timers := StateOf(log[..i]).timers; log[i].payload.timer in timers ==> timers[log[i].payload.timer].fired
  {
    hide Legal, Step, StateOf, WellFormed, Readiness, Leased, StackInv, ActiveInv, PhaseInv, TimerInv, LegalLog, TimerId;
    LegalAt(log, i);
    LogInv(log[..i]);
    AbsoluteScheduled(log[i - 1].payload, StateOf(log[..i]), log[i], n);
  }

  predicate Live(st: NodeState) {
    st.Running? || st.Ready?
  }

  // A firing before a live state found the node neither final nor waiting.
  lemma FoundLive(log: seq<Event>, i: nat, k: nat, n: string)
    requires LegalLog(log) && 0 < i < k < |log|
    requires n in StateOf(log[..i]).nodes && StateOf(log[..i]).nodes[n].state.Running?
    requires n in StateOf(log).nodes && Live(StateOf(log).nodes[n].state)
    ensures n in StateOf(log[..k]).nodes && var st := StateOf(log[..k]).nodes[n].state; !Final(st) && !st.Pending?
  {
    hide StateOf, LegalLog;
    LegalPrefix(log, k);
    assert log[..k][..i] == log[..i];
    NeverPendingAgain(log[..k], i, n);
    if Final(StateOf(log[..k]).nodes[n].state) { FinalStates(log, k, n); }
  }

  // Had the failure been recorded, the node could not be live again.
  lemma TimeoutEnds(log: seq<Event>, k: nat, n: string)
    requires LegalLog(log) && GrantCount(log, n) < UINT32_LIMIT
    requires n in StateOf(log).nodes && Live(StateOf(log).nodes[n].state)
    ensures !TimesOut(log, k + 1, n)
  {
    hide StateOf, LegalLog, GrantCount, GivenUp;
    if TimesOut(log, k + 1, n) {
      TimedOutForever(log, k + 1);
      GivenUpFailed(StateOf(log), n);
    }
  }

  lemma FiredAt(log: seq<Event>, k: nat, n: string)
    requires LegalLog(log) && 0 < k < |log| && log[k].payload.TimerFired? && log[k].payload.timer == TimerId(log[0].runId, n, 0, AbsDeadline)
    ensures log[k].payload.node == n && log[k].payload.purpose.AbsDeadline?
  {
    hide Legal, Step, StateOf, WellFormed, Readiness, Leased, StackInv, ActiveInv, PhaseInv, TimerInv, TimerId, LegalLog;
    LegalAt(log, k);
    LogInv(log[..k]);
    FiredAbsolute(log[k - 1].payload, StateOf(log[..k]), log[k], n);
  }

  // The deadline was armed at i, its timer is spent, and the node is live: it missed.
  lemma SpentMissed(log: seq<Event>, i: nat, n: string) returns (k: nat)
    requires LegalLog(log) && 0 < i < |log| && ArmsAbsolute(log[i].payload, n) && GrantCount(log, n) < UINT32_LIMIT
    requires n in StateOf(log).nodes && Live(StateOf(log).nodes[n].state)
    requires PendingSince(log, log[i].payload.timer).None?
    ensures i < k < |log| && Missed(log, k, n)
  {
    hide StateOf, LegalLog, GrantCount, PendingSince, TimerId, TimesOut, Live;
    ArmedAt(log, i, n);
    var id := log[i].payload.timer;
    assert Scheduled(log, id);
    k := LastFiring(log, id);
    assert Concerns(log[i].payload, id);
    FiredAt(log, k, n);
    FoundLive(log, i, k, n);
    TimeoutEnds(log, k, n);
  }

  lemma MissedPrefix(log: seq<Event>, j: nat, k: nat, n: string)
    requires k < j < |log| && Missed(log[..j], k, n) && !log[j].payload.NodeFailed?
    ensures Missed(log, k, n)
  {
    hide StateOf;
    assert log[..j][..k] == log[..k] && log[..j][k] == log[k];
    if k + 1 < j { assert log[..j][k + 1] == log[k + 1]; }
  }

  /** The absolute deadline of a node is armed a second time only after a firing of
      it that missed. */
  lemma RearmedOnlyAfterMiss(log: seq<Event>, i: nat, j: nat, n: string) returns (k: nat)
    requires LegalLog(log) && 0 < i < j < |log| && ArmsAbsolute(log[i].payload, n) && ArmsAbsolute(log[j].payload, n)
    requires GrantCount(log, n) < UINT32_LIMIT
    ensures i < k < j && Missed(log, k, n)
  {
    hide StateOf, LegalLog, GrantCount, Scheduled, PendingSince, Missed, TimerId;
    ArmedAt(log, i, n);
    ArmedAt(log, j, n);
    LegalPrefix(log, j);
    GrantCountGrows(log, j, n);
    var id := log[i].payload.timer;
    assert log[..j][i] == log[i];
    ScheduledAt(log[..j], i, id);
    TimersTrack(log[..j], id);
    k := SpentMissed(log[..j], i, n);
    MissedPrefix(log, j, k, n);
  }

  lemma ScheduledAt(log: seq<Event>, i: nat, id: string)
    requires i < |log| && log[i].payload.TimerScheduled? && log[i].payload.timer == id
    ensures Scheduled(log, id)
  {
  }

  // All pending absolute timers of a node are the one timer of that id.
  lemma PendingIsTracked(log: seq<Event>, n: string)
    requires LegalLog(log)
    ensures HasPendingAbsoluteTimer(StateOf(log), n) <==> PendingSince(log, TimerId(log[0].runId, n, 0, AbsDeadline)).Some?
  {
    hide Legal, Step, StateOf, WellFormed, Readiness, Leased, StackInv, ActiveInv, PhaseInv, LegalLog, PendingSince, Scheduled, TimerId;
    LegalNotEmpty(log);
    var s, id := StateOf(log), TimerId(log[0].runId, n, 0, AbsDeadline);
    LogInv(log);
    TimersTrack(log, id);
    if other :| other in s.timers && IsPendingTimer(s.timers[other], n, AbsDeadline) {
      assert TimerOk(s, other, s.timers[other]);
    }
    if id in s.timers && !s.timers[id].fired {
      var t := s.timers[id];
      assert TimerOk(s, id, t);
      TimerIdInjective(s.runId, n, 0, AbsDeadline, t.node, t.attempt, t.purpose);
      assert IsPendingTimer(t, n, AbsDeadline);
    }
  }

  lemma MissedConcerns(log: seq<Event>, k: nat, n: string)
    requires LegalLog(log) && 0 < k < |log| && Missed(log, k, n)
    ensures Concerns(log[k].payload, TimerId(log[0].runId, n, 0, AbsDeadline))
  {
    hide Legal, Step, StateOf, WellFormed, Readiness, Leased, StackInv, ActiveInv, PhaseInv, LegalLog, TimerId;
    LegalAt(log, k);
    LogInv(log[..k]);
    FiredKnown(log[k - 1].payload, StateOf(log[..k]), log[k]);
    assert TimerOk(StateOf(log[..k]), log[k].payload.timer, StateOf(log[..k]).timers[log[k].payload.timer]);
  }

  /** Exactly when the next lease arms the deadline again: the READY node's deadline,
      last armed at i, is no longer pending if and only if a firing since then missed. */
  lemma RearmsIff(log: seq<Event>, i: nat, n: string)
    requires LegalLog(log) && 0 < i < |log| && ArmsAbsolute(log[i].payload, n) && GrantCount(log, n) < UINT32_LIMIT
    requires forall m | i < m < |log| :: !(log[m].payload.TimerScheduled? && log[m].payload.timer == log[i].payload.timer)
    requires n in StateOf(log).nodes && StateOf(log).nodes[n].state.Ready?
    ensures !HasPendingAbsoluteTimer(StateOf(log), n) <==> exists k :: i < k < |log| && Missed(log, k, n)
  {
    hide StateOf, LegalLog, GrantCount, Scheduled, Missed, TimerId, HasPendingAbsoluteTimer;
    ArmedAt(log, i, n);
    var id := log[i].payload.timer;
    PendingIsTracked(log, n);
    if PendingSince(log, id).None? {
      var k := SpentMissed(log, i, n);
    }
    if k: nat :| i < k < |log| && Missed(log, k, n) {
      MissedConcerns(log, k, n);
      MissedFires(log, k, n);
    }
  }

  lemma MissedFires(log: seq<Event>, k: nat, n: string)
    requires k < |log| && Missed(log, k, n)
    ensures log[k].payload.TimerFired?
  {
    hide StateOf;
  }

  lemma GivenUpFailed(s: RunData, n: string)
    requires GivenUp(s, n)
    ensures n in s.nodes && s.nodes[n].state.Failed?
  {
  }

  lemma FiredAbsolute(last: Payload, s: RunData, e: Event, n: string)
    requires Legal(last, s, e) && TimerInv(s) && e.payload.TimerFired? && e.payload.timer == TimerId(s.runId, n, 0, AbsDeadline)
    ensures e.payload.node == n && e.payload.purpose.AbsDeadline? && n in s.nodes
  {
    FiredKnown(last, s, e);
    var t := s.timers[e.payload.timer];
    assert TimerOk(s, e.payload.timer, t);
    TimerIdInjective(s.runId, n, 0, AbsDeadline, t.node, t.attempt, t.purpose);
  }

  // ---- A run whose absolute deadline is extended ----

  const RETRIED := NodeDef("a", "act", [], Some(RetryPolicy(2, 10)), "", 0, 0, 1)
  const RETRIED_START := Event(1, "r", 0, WorkflowStarted(WorkflowDef("w", [RETRIED])))
  const DEADLINE := TimerId("r", "a", 0, AbsDeadline)
  const BACKOFF := TimerId("r", "a", 1, RetryBackoff)

  function Only(node: Node): Nodes {
    map["a" := node]
  }

  function AbsoluteTimer(fireAt: Time, fired: bool): Timer {
    Timer(DEADLINE, "a", 0, AbsDeadline, fireAt, fired)
  }

  function BackoffTimer(fired: bool): Timer {
    Timer(BACKOFF, "a", 1, RetryBackoff, 10, fired)
  }

  lemma TwoTimers()
    ensures DEADLINE != BACKOFF
  {
    hide TimerId;
    if DEADLINE == BACKOFF { TimerIdInjective("r", "a", 0, AbsDeadline, "a", 1, RetryBackoff); }
  }

  lemma RetriedStart()
    ensures StartsRun(RETRIED_START)
    ensures StateOf([RETRIED_START]) == EMPTY_RUN.(runId := "r", lastSeq := 1, nodes := Only(NewNode(RETRIED).(state := Ready)))
  {
    hide TimerId;
    StateOfAppend([], RETRIED_START);
    assert [] + [RETRIED_START] == [RETRIED_START];
    StartInv(RETRIED_START);
    assert InsertDefs(map[], [RETRIED]) == Only(NewNode(RETRIED));
    assert MarkReady(Only(NewNode(RETRIED))) == Only(NewNode(RETRIED).(state := Ready));
    hide Step, InsertDefs, MarkReady, StateOf;
  }

  // Claiming the READY node at time t arms its deadline for t + 1.
  lemma ClaimAt(s: RunData, t: Time)
    requires Forward(s) && s.runId == "r" && s.nodes.Keys == {"a"} && s.nodes["a"].def == RETRIED && s.nodes["a"].state.Ready?
    requires DEADLINE in s.timers ==> s.timers[DEADLINE].fired
    requires TimerInv(s) && s.nodes["a"].attempt <= 1
    ensures var events := Claim(s, WORKER, "k", At(t)); var u := Replay(s, events);
      && |events| == 3 && events[2].payload == TimerScheduled(DEADLINE, "a", 0, AbsDeadline, t + 1)
      && u == s.(nodes := u.nodes, timers := s.timers[DEADLINE := AbsoluteTimer(t + 1, false)], lastSeq := s.lastSeq + 3)
      && u.nodes.Keys == {"a"}
      && u.nodes["a"] == s.nodes["a"].(state := Running, attempt := s.nodes["a"].attempt + 1, worker := "k", heartbeat := u.nodes["a"].heartbeat)
  {
    hide TimerId, Legal, Step, Chain, Dispatch, Claim, ClaimNode, AbsTimer, TimerInv, HasPendingAbsoluteTimer, Replay;
    OnlyClaim(s, At(t));
    var started := Dispatch(s, At(t), "a", "k");
    DispatchTwo(s, At(t));
    DispatchLegal(WorkflowCompleted, s, At(t), "a", "k");
    var s2 := Replay(s, started);
    NoneArmed(s, s2);
    AbsoluteArmed(s2, t);
    ClaimParts(s, At(t), s2);
    ReplayConcat(s, started, AbsTimer(s2, At(t), "a", RETRIED));
  }

  lemma OnlyClaim(s: RunData, clock: Clock)
    requires Forward(s) && s.nodes.Keys == {"a"} && s.nodes["a"].def == RETRIED && s.nodes["a"].state.Ready?
    ensures Claim(s, WORKER, "k", clock) == ClaimNode(s, clock, "a", "k")
  {
    hide ClaimNode;
    assert Claimable(s, WORKER, "k", "a");
    var ids := ClaimableNodes(s, WORKER, "k");
    assert ids == {"a"} && Least(ids) in ids;
  }

  lemma ClaimParts(s: RunData, clock: Clock, s2: RunData)
    requires "a" in s.nodes && s.nodes["a"].def == RETRIED && s2 == Replay(s, Dispatch(s, clock, "a", "k"))
    ensures ClaimNode(s, clock, "a", "k") == Dispatch(s, clock, "a", "k") + AbsTimer(s2, clock, "a", RETRIED)
  {
    hide TimerId, Step, Dispatch, AbsTimer;
    var started := Dispatch(s, clock, "a", "k");
    assert Replay(s2, []) == s2;
    assert started + [] == started;
  }

  lemma DispatchTwo(s: RunData, clock: Clock)
    requires "a" in s.nodes
    ensures |Dispatch(s, clock, "a", "k")| == 2
  {
  }

  lemma NoneArmed(s: RunData, t: RunData)
    requires TimerInv(s) && s.runId == "r" && t.timers == s.timers && (DEADLINE in s.timers ==> s.timers[DEADLINE].fired)
    ensures !HasPendingAbsoluteTimer(t, "a")
  {
    hide TimerId;
    forall id | id in s.timers ensures !IsPendingTimer(s.timers[id], "a", AbsDeadline) { assert TimerOk(s, id, s.timers[id]); }
  }

  lemma AbsoluteArmed(s: RunData, t: Time)
    requires s.runId == "r" && !HasPendingAbsoluteTimer(s, "a")
    ensures var abs := AbsTimer(s, At(t), "a", RETRIED);
      && |abs| == 1 && abs[0].payload == TimerScheduled(DEADLINE, "a", 0, AbsDeadline, t + 1)
      && Replay(s, abs) == s.(timers := s.timers[DEADLINE := AbsoluteTimer(t + 1, false)], lastSeq := s.lastSeq + 1)
  {
    hide TimerId, HasPendingAbsoluteTimer;
    var abs := AbsTimer(s, At(t), "a", RETRIED);
    assert abs[1..] == [];
  }

  const FAIL_A := FailRequest("k", "a", 1, false, false, true)

  lemma FailRetryable(s: RunData)
    requires s.runId == "r" && s.nodes.Keys == {"a"} && s.nodes["a"].def == RETRIED && Holds(s, "a", "k", 1) && !s.cancelRequested
    ensures var u := Replay(s, FailTask(s, FAIL_A, 0, At(0)).events);
      u == s.(nodes := Only(s.nodes["a"].(state := Failed, heartbeat := None)), timers := s.timers[BACKOFF := BackoffTimer(false)], lastSeq := s.lastSeq + 2)
  {
    hide TimerId;
    var e := Emit(s, At(0), NodeFailed("a", "k", 1, true, false));
    var u := Step(s, e);
    assert u == s.(nodes := Only(s.nodes["a"].(state := Failed, heartbeat := None)), lastSeq := s.lastSeq + 1);
    var timer := RetryTimer(u, At(0), "a", RETRIED, 1, 0);
    var f := Emit(u, At(0), TimerScheduled(BACKOFF, "a", 1, RetryBackoff, 10));
    assert timer == [f];
    var v := Step(u, f);
    assert v == u.(timers := u.timers[BACKOFF := BackoffTimer(false)], lastSeq := u.lastSeq + 1);
    assert IsPendingTimer(v.timers[BACKOFF], "a", RetryBackoff);
    hide Step;
    assert ([e] + [f])[1..] == [f] && [f][1..] == [];
    assert Replay(u, [f]) == v;
    assert HasPendingRetryTimer(v, "a", 1);
    assert FailTask(s, FAIL_A, 0, At(0)).events == [e] + [f];
  }

  // Reconciling a run that is going forward with nothing due appends nothing.
  lemma NothingDue(s: RunData, clock: Clock)
    requires Forward(s) && s.nodes.Keys == {"a"}
    requires s.nodes["a"].state.Ready? || (s.nodes["a"].state.Failed? && HasPendingRetryTimer(s, "a", s.nodes["a"].attempt))
    ensures Reconcile(s, clock) == []
  {
    hide HasPendingRetryTimer;
    assert "a" in s.nodes;
    assert !AllNodesCompleted(s) && !HasUnrecoveredFailure(s);
    assert Replay(s, []) == s;
  }

  function Both(deadline: Timer, backoff: Timer): map<string, Timer> {
    map[DEADLINE := deadline, BACKOFF := backoff]
  }

  // At time 5 the deadline fires and finds the node FAILED: nothing happens to it.
  lemma DeadlineMisses(s: RunData)
    requires Forward(s) && s.runId == "r" && s.timers == Both(AbsoluteTimer(1, false), BackoffTimer(false))
    requires s.nodes.Keys == {"a"} && s.nodes["a"].state.Failed? && s.nodes["a"].attempt == 1
    ensures Replay(s, FireDueTimers(s, 5, [DEADLINE, BACKOFF], At(5))) ==
      s.(timers := Both(AbsoluteTimer(1, true), BackoffTimer(false)), lastSeq := s.lastSeq + 1)
  {
    TwoTimers();
    hide TimerId;
    var order := [DEADLINE, BACKOFF];
    var e := EmitAt(s, 5, TimerFired(DEADLINE, "a", 0, AbsDeadline));
    var t := Step(s, e);
    assert t == s.(timers := Both(AbsoluteTimer(1, true), BackoffTimer(false)), lastSeq := s.lastSeq + 1);
    assert FireTimer(s, DEADLINE, 5, At(5)) == [e];
    assert IsPendingTimer(t.timers[BACKOFF], "a", RetryBackoff);
    NothingDue(t, At(5));
    hide Step, FireTimer, Reconcile;
    assert order[1..] == [BACKOFF] && [BACKOFF][1..] == [] && [e][1..] == [];
    assert Replay(s, [e]) == t;
    assert FireAll(t, 5, [BACKOFF], At(5)) == FireAll(t, 5, [], At(5)) == [];
    assert FireAll(s, 5, order, At(5)) == [e] + [];
    assert [e] + [] == [e];
  }

  // At time 10 the backoff fires and the node is READY again.
  lemma BackoffFires(s: RunData)
    requires Forward(s) && s.runId == "r" && s.timers == Both(AbsoluteTimer(1, true), BackoffTimer(false))
    requires s.nodes.Keys == {"a"} && s.nodes["a"].state.Failed? && s.nodes["a"].attempt == 1
    ensures Replay(s, FireDueTimers(s, 10, [DEADLINE, BACKOFF], At(10))) ==
      s.(timers := Both(AbsoluteTimer(1, true), BackoffTimer(true)), nodes := Only(s.nodes["a"].(state := Ready, worker := "", heartbeat := None)), lastSeq := s.lastSeq + 1)
  {
    TwoTimers();
    hide TimerId;
    var order := [DEADLINE, BACKOFF];
    var e := EmitAt(s, 10, TimerFired(BACKOFF, "a", 1, RetryBackoff));
    var t := Step(s, e);
    assert t == s.(timers := Both(AbsoluteTimer(1, true), BackoffTimer(true)), nodes := Only(s.nodes["a"].(state := Ready, worker := "", heartbeat := None)), lastSeq := s.lastSeq + 1);
    assert FireTimer(s, BACKOFF, 10, At(10)) == [e];
    NothingDue(t, At(10));
    hide Step, FireTimer, Reconcile;
    assert order[1..] == [BACKOFF] && [BACKOFF][1..] == [] && [e][1..] == [];
    assert Replay(s, [e]) == t;
    assert FireAll(s, 10, [BACKOFF], At(10)) == [e] + FireAll(t, 10, [], At(10));
    assert [e] + [] == [e];
    assert FireAll(s, 10, order, At(10)) == [e];
  }

  lemma BothEnumerated(s: RunData, now: Time, clock: Clock)
    requires s.timers.Keys == {DEADLINE, BACKOFF}
    ensures ValidOp(s, OpFireTimers(now, [DEADLINE, BACKOFF], clock))
  {
    TwoTimers();
    hide TimerId;
  }

  lemma SoundTimers(y: Sys)
    requires Reachable(y)
    ensures TimerInv(StateOf(y.log)) && y.log != []
  {
    hide StateOf, Reachable, WellFormed, Readiness, Leased, StackInv, ActiveInv, PhaseInv, TimerInv, Replays, Replay, LegalLog;
    ReachableSound(y);
    SoundIsLegal(y);
    LegalNotEmpty(y.log);
  }

  // Claimed at time 0.
  lemma ClaimedRetried() returns (y: Sys)
    ensures Reachable(y) && y.up && |y.log| == 4 && y.log[3].payload == TimerScheduled(DEADLINE, "a", 0, AbsDeadline, 1)
    ensures var s := StateOf(y.log);
      && Forward(s) && s.runId == "r" && s.nodes.Keys == {"a"} && s.nodes["a"].def == RETRIED && Holds(s, "a", "k", 1)
      && s.stack == [] && s.timers == map[DEADLINE := AbsoluteTimer(1, false)]
  {
    hide TimerId, StateOf, Step, Replay, Legal, Inv, Claim, Reachable, LegalLog, OpEvents, ValidOp, TimerInv, StartsRun;
    RetriedStart();
    var start := Begun(RETRIED_START);
    SoundTimers(start);
    var s := StateOf(start.log);
    var claim := OpClaim(WORKER, "k", At(0));
    OpIsClaim(s, claim);
    ClaimAt(s, 0);
    y := AfterOp(start, claim);
    assert y.log[3] == OpEvents(s, claim)[2];
  }

  // Up to the retry: failed, the deadline missed, the backoff fired.
  lemma MissedAndRevived() returns (y: Sys)
    ensures Reachable(y) && y.up && |y.log| > 3 && y.log[3].payload == TimerScheduled(DEADLINE, "a", 0, AbsDeadline, 1)
    ensures var s := StateOf(y.log);
      && Forward(s) && s.runId == "r" && s.nodes.Keys == {"a"} && s.nodes["a"].def == RETRIED && s.nodes["a"].state.Ready?
      && s.nodes["a"].attempt == 1 && s.timers == Both(AbsoluteTimer(1, true), BackoffTimer(true))
  {
    hide TimerId, StateOf, Step, Replay, Legal, Inv, Claim, FailTask, FireDueTimers, Reachable, LegalLog, OpEvents, ValidOp, TimerInv, StartsRun;
    var claimed := ClaimedRetried();
    var fail := OpFail(FAIL_A, 0, At(0));
    OpIsFail(StateOf(claimed.log), fail);
    FailRetryable(StateOf(claimed.log));
    var failed := AfterOp(claimed, fail);
    var t := StateOf(failed.log);
    assert t.timers == Both(AbsoluteTimer(1, false), BackoffTimer(false));
    BothEnumerated(t, 5, At(5));
    OpIsFire(t, 5, [DEADLINE, BACKOFF], At(5));
    DeadlineMisses(t);
    var missed := AfterOp(failed, OpFireTimers(5, [DEADLINE, BACKOFF], At(5)));
    var u := StateOf(missed.log);
    BothEnumerated(u, 10, At(10));
    OpIsFire(u, 10, [DEADLINE, BACKOFF], At(10));
    BackoffFires(u);
    y := AfterOp(missed, OpFireTimers(10, [DEADLINE, BACKOFF], At(10)));
  }

  /** The deadline is extended after all: a reachable history arms it for time 1,
      lets it fire while the node waits FAILED for its retry, and arms it again for
      time 11. */
  lemma DeadlineExtended() returns (y: Sys, i: nat, j: nat)
    ensures Reachable(y) && 0 < i < j < |y.log|
    ensures ArmsAbsolute(y.log[i].payload, "a") && ArmsAbsolute(y.log[j].payload, "a")
    ensures y.log[i].payload.fireAt == 1 && y.log[j].payload.fireAt == 11
  {
    hide TimerId, StateOf, Step, Replay, Legal, Inv, Claim, Reachable, LegalLog, OpEvents, ValidOp, TimerInv;
    var revived := MissedAndRevived();
    var s := StateOf(revived.log);
    SoundTimers(revived);
    var claim := OpClaim(WORKER, "k", At(10));
    OpIsClaim(s, claim);
    TwoTimers();
    ClaimAt(s, 10);
    y := AfterOp(revived, claim);
    i, j := 3, |revived.log| + 2;
    assert y.log[j] == OpEvents(s, claim)[2];
  }
}
