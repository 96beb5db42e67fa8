/** How runs end: what cancellation and terminal events rule out, and exactly when a
    terminal run state can still change. */
module Outcomes {
  import opened Runtime
  import opened State
  import opened Strings
  import opened Workflowdef
  import opened EngineSpec
  import opened Guards
  import opened Invariant
  import opened Logs
  import opened Operations
  import opened Quiescence
  import opened Runs
  import Fencing
  import Lifecycle
  import Liveness

  predicate EndsRun(p: Payload) {
    p.WorkflowFailed? || p.WorkflowCompleted? || p.CancellationCompleted? || p.CompensationCompleted?
  }

  predicate EndsForward(p: Payload) {
    p.CancellationRequested? || p.CompensationStarted? || EndsRun(p)
  }

  predicate StartsUnwinding(p: Payload) {
    p.CompensationStarted?
  }

  predicate Shuts(p: Payload) {
    p.CancellationRequested? || EndsRun(p)
  }

  predicate Shut(s: RunData) {
    s.cancelRequested || s.Terminal()
  }

  // ---- The run-level fields under one event ----

  lemma PhaseEffect(last: Payload, s: RunData, e: Event)
    requires Legal(last, s, e)
    ensures var t := Step(s, e); var p := e.payload;
      && t.cancelRequested == (s.cancelRequested || p.CancellationRequested?)
      && t.runState == (if p.CancellationCompleted? then RunCancelled
                        else if p.CompensationStarted? then RunCompensating
                        else if p.CompensationCompleted? then RunCompensated
                        else if p.WorkflowFailed? then RunFailed
                        else if p.WorkflowCompleted? then RunCompleted
                        else s.runState)
  {
    hide Legal, Step;
    LegalBasics(last, s, e);
    Liveness.CancelFlagKept(s, e);
    if TouchesNode(e.payload) { TouchMoves(last, s, e); }
    else { RunStateEffect(s, e); }
  }

  lemma RunStateEffect(s: RunData, e: Event)
    requires !TouchesNode(e.payload) && !e.payload.WorkflowStarted? && !e.payload.NodeReady?
    ensures var p := e.payload;
      Step(s, e).runState == (if p.CancellationCompleted? then RunCancelled
                              else if p.CompensationStarted? then RunCompensating
                              else if p.CompensationCompleted? then RunCompensated
                              else if p.WorkflowFailed? then RunFailed
                              else if p.WorkflowCompleted? then RunCompleted
                              else s.runState)
  {
    hide Step, ApplyEvent;
    Lifecycle.RefusedIff(s, e);
    if !Lifecycle.Refused(s, e.payload) { Lifecycle.RunFollows(s, e); }
  }

  // What run-level events demand of the state before them.
  lemma PhaseGuards(last: Payload, s: RunData, e: Event)
    requires Legal(last, s, e)
    ensures e.payload.LeaseGranted? || e.payload.NodeStarted? || e.payload.CompensationStarted? || e.payload.WorkflowCompleted? ==> Forward(s)
    ensures e.payload.CompensationTaskStarted? ==> s.runState.RunCompensating? && !s.cancelRequested
    ensures e.payload.CancellationRequested? || e.payload.CancellationCompleted? || e.payload.CompensationCompleted? ==> !s.Terminal()
    ensures e.payload.WorkflowFailed? && s.Terminal() ==> last.CompensationTaskFailed? && s.runState.RunCancelled?
    ensures e.payload.CompensationTaskFailed? ==> s.active.Some?
  {
  }

  ghost predicate Occurs(log: seq<Event>, test: Payload -> bool) {
    exists i :: 0 <= i < |log| && test(log[i].payload)
  }

  lemma OccursAppend(log: seq<Event>, test: Payload -> bool)
    requires log != []
    ensures Occurs(log, test) <==> Occurs(Front(log), test) || test(Last(log).payload)
  {
    if Occurs(Front(log), test) {
      var i :| 0 <= i < |Front(log)| && test(Front(log)[i].payload);
      assert log[i] == Front(log)[i];
    }
    if Occurs(log, test) {
      var i :| 0 <= i < |log| && test(log[i].payload);
      if i < |log| - 1 { assert Front(log)[i] == log[i]; }
    }
  }

  lemma FreshPhase(log: seq<Event>)
    requires |log| == 1 && StartsRun(log[0])
    ensures Forward(StateOf(log)) && !StateOf(log).Terminal() && StateOf(log).active.None?
  {
    Fencing.StartAttempts(log, "");
  }

  /** A run goes forward exactly while nobody asked for cancellation, no
      compensation started and no terminal event was written. */
  lemma {:induction false} ForwardIff(log: seq<Event>)
    requires LegalLog(log)
    ensures Forward(StateOf(log)) <==> !Occurs(log, EndsForward)
    decreases |log|
  {
    hide Legal, Step, Inv, Occurs;
    OccursAppend(log, EndsForward);
    if |log| == 1 {
      FreshPhase(log);
      NothingOccurs(EndsForward);
      assert Front(log) == [];
      StartEndsNothing(log[0]);
    } else {
      var s, e, last := StateOf(Front(log)), Last(log), Last(Front(log)).payload;
      ForwardIff(Front(log));
      PhaseEffect(last, s, e);
    }
  }

  lemma NothingOccurs(test: Payload -> bool)
    ensures !Occurs([], test)
  {
  }

  lemma StartEndsNothing(e: Event)
    requires StartsRun(e)
    ensures !EndsForward(e.payload)
  {
  }

  /** A run is shut exactly once somebody asked for cancellation or a terminal event was written. */
  lemma {:induction false} ShutIff(log: seq<Event>)
    requires LegalLog(log)
    ensures Shut(StateOf(log)) <==> Occurs(log, Shuts)
    decreases |log|
  {
    hide Legal, Step, Inv, Occurs;
    OccursAppend(log, Shuts);
    if |log| == 1 {
      FreshPhase(log);
      NothingOccurs(Shuts);
      assert Front(log) == [];
      StartEndsNothing(log[0]);
    } else {
      var s, e, last := StateOf(Front(log)), Last(log), Last(Front(log)).payload;
      ShutIff(Front(log));
      PhaseEffect(last, s, e);
      PhaseGuards(last, s, e);
    }
  }

  /** No lease follows a cancellation request, the start of compensation or a
      terminal event; no compensation task starts after a cancellation request or
      a terminal event. */
  lemma NoWorkAfterTheEnd(log: seq<Event>, i: nat, j: nat)
    requires LegalLog(log) && i < j < |log|
    ensures EndsForward(log[i].payload) ==> !log[j].payload.LeaseGranted? && !log[j].payload.NodeStarted?
    ensures Shuts(log[i].payload) ==> !log[j].payload.CompensationTaskStarted? && !log[j].payload.CancellationRequested?
  {
    hide Legal, Step, StateOf, EndsForward, Shuts;
    var cut := log[..j];
    LegalAt(log, j);
    ForwardIff(cut);
    ShutIff(cut);
    assert cut[i] == log[i];
    assert EndsForward(log[i].payload) ==> Occurs(cut, EndsForward);
    assert Shuts(log[i].payload) ==> Occurs(cut, Shuts);
    PhaseGuards(log[j - 1].payload, StateOf(cut), log[j]);
    if log[j].payload.CancellationRequested? { RequestedOnce(log[j - 1].payload, StateOf(cut), log[j]); }
  }

  lemma RequestedOnce(last: Payload, s: RunData, e: Event)
    requires Legal(last, s, e) && e.payload.CancellationRequested?
    ensures !Shut(s)
  {
  }

  // ---- Cancellation ----

  /** At an operation boundary a cancelled run that has not ended waits for RUNNING
      nodes only. */
  lemma CancelledAtBoundary(y: Sys)
    requires Reachable(y) && y.up && StateOf(y.log).cancelRequested && !StateOf(y.log).Terminal()
    ensures var s := StateOf(y.log);
      && (forall n | n in s.nodes :: !s.nodes[n].state.Pending? && !s.nodes[n].state.Ready? && !s.nodes[n].state.AwaitingApproval?)
      && exists n :: n in s.nodes && s.nodes[n].state.Running?
  {
    hide Reachable, LegalLog, StateOf, Inv, Legal, Step, Replays, Replay;
    ReachableSound(y);
    Liveness.CancellingHasRunning(StateOf(y.log));
  }

  ghost predicate Frozen(s: RunData) {
    s.Terminal() && forall n | n in s.nodes :: IsTerminalNode(s.nodes[n].state)
  }

  lemma FrozenStep(last: Payload, s: RunData, e: Event)
    requires Legal(last, s, e) && Inv(s) && Frozen(s)
    ensures Step(s, e).nodes == s.nodes && Frozen(Step(s, e))
  {
    TerminalFreezes(last, s, e);
    TerminalPhase(last, s, e);
  }

  lemma {:induction false} FrozenForever(log: seq<Event>, i: nat)
    requires LegalLog(log) && 0 < i <= |log| && Frozen(StateOf(log[..i]))
    ensures StateOf(log).nodes == StateOf(log[..i]).nodes && Frozen(StateOf(log))
    decreases |log|
  {
    hide Legal, Step, Inv, Frozen;
    if i == |log| {
      assert log[..i] == log;
    } else {
      assert Front(log)[..i] == log[..i];
      FrozenForever(Front(log), i);
      LogInv(Front(log));
      FrozenStep(Last(Front(log)).payload, StateOf(Front(log)), Last(log));
    }
  }

  lemma CancelCompletes(last: Payload, s: RunData, e: Event)
    requires Legal(last, s, e) && Inv(s) && e.payload.CancellationCompleted?
    ensures Frozen(Step(s, e)) && Step(s, e).nodes == s.nodes && AllNodesTerminal(s)
  {
  }

  /** When cancellation completes every node is COMPLETED, FAILED or CANCELLED, and
      no later event changes any node. */
  lemma CancelledForever(log: seq<Event>, i: nat)
    requires LegalLog(log) && 0 < i < |log| && log[i].payload.CancellationCompleted?
    ensures AllNodesTerminal(StateOf(log[..i])) && StateOf(log).nodes == StateOf(log[..i]).nodes
  {
    hide Legal, Step, StateOf, Inv;
    LegalAt(log, i);
    LogInv(log[..i]);
    CancelCompletes(log[i - 1].payload, StateOf(log[..i]), log[i]);
    FrozenForever(log, i + 1);
  }

  // ---- Terminal states ----

  // A cancellation asked for after compensation had started.
  ghost predicate LateCancel(log: seq<Event>) {
    exists c, r :: 0 <= c < r < |log| && log[c].payload.CompensationStarted? && log[r].payload.CancellationRequested?
  }

  predicate Unwinding(s: RunData) {
    s.runState.RunCompensating? || s.active.Some?
  }

  lemma UnwindingEffect(last: Payload, s: RunData, e: Event)
    requires Legal(last, s, e) && StackInv(s) && ActiveInv(s)
    ensures Unwinding(Step(s, e)) ==> Unwinding(s) || e.payload.CompensationStarted?
  {
    PhaseEffect(last, s, e);
    PhaseGuards(last, s, e);
    if TouchesEntry(e.payload) { EntryEffect(last, s, e); } else { ActiveUntouched(last, s, e); }
    hide Legal, Step;
  }

  lemma LateCancelFront(log: seq<Event>)
    requires log != [] && LateCancel(Front(log))
    ensures LateCancel(log)
  {
    var c, r :| 0 <= c < r < |Front(log)| && Front(log)[c].payload.CompensationStarted? && Front(log)[r].payload.CancellationRequested?;
    assert log[c] == Front(log)[c] && log[r] == Front(log)[r];
  }

  lemma LateCancelNow(log: seq<Event>)
    requires log != [] && Last(log).payload.CancellationRequested? && Occurs(Front(log), StartsUnwinding)
    ensures LateCancel(log)
  {
    var c :| 0 <= c < |Front(log)| && Front(log)[c].payload.CompensationStarted?;
    assert log[c] == Front(log)[c];
  }

  lemma {:induction false} UnwindingHistory(log: seq<Event>)
    requires LegalLog(log)
    ensures Unwinding(StateOf(log)) ==> Occurs(log, StartsUnwinding)
    ensures Unwinding(StateOf(log)) && StateOf(log).cancelRequested ==> LateCancel(log)
    decreases |log|
  {
    hide Legal, Step, Occurs, LateCancel, WellFormed, Readiness, Leased, PhaseInv, TimerInv, StackInv, ActiveInv;
    if |log| == 1 {
      FreshPhase(log);
    } else {
      var s, e, last := StateOf(Front(log)), Last(log), Last(Front(log)).payload;
      UnwindingHistory(Front(log));
      LogInv(Front(log));
      UnwindingEffect(last, s, e);
      PhaseEffect(last, s, e);
      PhaseGuards(last, s, e);
      OccursAppend(log, StartsUnwinding);
      if LateCancel(Front(log)) { LateCancelFront(log); }
      if e.payload.CancellationRequested? && Unwinding(s) { LateCancelNow(log); }
    }
  }

  /** A second terminal event can only be the failure report of the compensation
      task that was active when the run was cancelled. */
  lemma SecondEnding(log: seq<Event>, i: nat)
    requires LegalLog(log) && 0 < i < |log| && EndsRun(log[i].payload) && StateOf(log[..i]).Terminal()
    ensures log[i].payload.WorkflowFailed? && log[i - 1].payload.CompensationTaskFailed?
    ensures StateOf(log[..i]).runState.RunCancelled? && LateCancel(log)
  {
    hide Legal, Step, StateOf, Inv, LateCancel;
    LegalAt(log, i);
    PhaseGuards(log[i - 1].payload, StateOf(log[..i]), log[i]);
    StartsFirst(log);
    LegalAt(log, i - 1);
    PhaseGuards(log[i - 2].payload, StateOf(log[..i - 1]), log[i - 1]);
    PhaseEffect(log[i - 2].payload, StateOf(log[..i - 1]), log[i - 1]);
    LogInv(log[..i]);
    CancelledWasRequested(StateOf(log[..i]));
    UnwindingHistory(log[..i - 1]);
    LateCancelPrefix(log, i - 1);
  }

  lemma CancelledWasRequested(s: RunData)
    requires Inv(s) && s.runState.RunCancelled?
    ensures s.cancelRequested
  {
  }

  lemma LateCancelPrefix(log: seq<Event>, k: nat)
    requires k <= |log| && LateCancel(log[..k])
    ensures LateCancel(log)
  {
    var c, r :| 0 <= c < r < |log[..k]| && log[..k][c].payload.CompensationStarted? && log[..k][r].payload.CancellationRequested?;
    assert log[c] == log[..k][c] && log[r] == log[..k][r];
  }

  lemma {:induction false} TerminalKept(log: seq<Event>, i: nat)
    requires LegalLog(log) && 0 < i <= |log| && StateOf(log[..i]).Terminal()
    ensures StateOf(log).Terminal()
    ensures StateOf(log).runState == StateOf(log[..i]).runState || (StateOf(log[..i]).runState.RunCancelled? && StateOf(log).runState.RunFailed? && LateCancel(log))
    decreases |log|
  {
    hide Legal, Step, Inv, LateCancel;
    if i == |log| {
      assert log[..i] == log;
    } else {
      var front := Front(log);
      assert front[..i] == log[..i] && log[..|log| - 1] == front;
      TerminalKept(front, i);
      PhaseEffect(Last(front).payload, StateOf(front), Last(log));
      PhaseGuards(Last(front).payload, StateOf(front), Last(log));
      if LateCancel(front) { LateCancelFront(log); }
      if EndsRun(Last(log).payload) { SecondEnding(log, |log| - 1); }
    }
  }

  /** Without a cancellation request after the start of compensation, a log has at
      most one terminal event and the run state never changes after it. */
  lemma EndsOnce(log: seq<Event>, i: nat)
    requires LegalLog(log) && !LateCancel(log) && 0 < i < |log| && EndsRun(log[i].payload)
    ensures forall j | i < j < |log| :: !EndsRun(log[j].payload)
    ensures StateOf(log).runState == StateOf(log[..i + 1]).runState && StateOf(log).Terminal()
  {
    hide Legal, Step, StateOf, LateCancel, EndsRun;
    LegalAt(log, i);
    EndingEnds(log[i - 1].payload, StateOf(log[..i]), log[i]);
    TerminalKept(log, i + 1);
    forall j | i < j < |log| ensures !EndsRun(log[j].payload) {
      LegalPrefix(log, j);
      assert log[..j][..i + 1] == log[..i + 1];
      TerminalKept(log[..j], i + 1);
      if EndsRun(log[j].payload) { SecondEnding(log, j); }
    }
  }

  lemma EndingEnds(last: Payload, s: RunData, e: Event)
    requires Legal(last, s, e) && EndsRun(e.payload)
    ensures Step(s, e).Terminal()
  {
    PhaseEffect(last, s, e);
  }

  /** A terminal run with an active compensation task is CANCELLED. */
  lemma TerminalActiveIsCancelled(log: seq<Event>)
    requires LegalLog(log) && StateOf(log).Terminal() && StateOf(log).active.Some?
    ensures StateOf(log).runState.RunCancelled? && LateCancel(log)
  {
    hide Legal, Step, StateOf, LateCancel;
    LogInv(log);
    UnwindingHistory(log);
  }
}
