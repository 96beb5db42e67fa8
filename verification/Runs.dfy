/** Whole executions of one run: operations in any order and with any arguments,
    interrupted by crashes between any two appends and resumed by recovery. */
module Runs {
  import opened Runtime
  import opened State
  import opened EngineSpec
  import opened Guards
  import opened Invariant
  import opened Logs
  import opened Operations
  import opened Quiescence

  // The durable log, and whether an engine currently serves it.
  datatype Sys = Sys(log: seq<Event>, up: bool)

  ghost predicate Starts(y: Sys) {
    |y.log| == 1 && StartsRun(y.log[0])
  }

  ghost predicate Operates(a: Sys, b: Sys, op: Op) {
    a.up && b.up && ValidOp(StateOf(a.log), op) && b.log == a.log + OpEvents(StateOf(a.log), op)
  }

  // The process dies after the first k appends of an operation.
  ghost predicate Dies(a: Sys, b: Sys, op: Op, k: nat) {
    && a.up && !b.up && ValidOp(StateOf(a.log), op)
    && k <= |OpEvents(StateOf(a.log), op)|
    && b.log == a.log + OpEvents(StateOf(a.log), op)[..k]
  }

  // A new process rehydrates the log and reconciles; it may die on the way too.
  ghost predicate Recovers(a: Sys, b: Sys, clock: Clock, k: nat) {
    var events := Reconcile(StateOf(a.log), clock);
    && !a.up && k <= |events| && (b.up ==> k == |events|)
    && b.log == a.log + events[..k]
  }

  ghost predicate Next(a: Sys, b: Sys) {
    || (exists op :: Operates(a, b, op))
    || (exists op, k: nat :: Dies(a, b, op, k))
    || (exists clock, k: nat :: Recovers(a, b, clock, k))
  }

  ghost predicate Execution(h: seq<Sys>) {
    h != [] && Starts(h[0]) && forall i | 0 <= i < |h| - 1 :: Next(h[i], h[i + 1])
  }

  ghost predicate Reachable(y: Sys) {
    exists h :: ExecutionTo(h, y)
  }

  ghost predicate ExecutionTo(h: seq<Sys>, y: Sys) {
    Execution(h) && h[|h| - 1] == y
  }

  /** What every reachable log satisfies: each event was legal where it was
      appended, and while an engine serves the run no transition is left undone. */
  ghost predicate Sound(y: Sys) {
    LegalLog(y.log) && (y.up ==> Quiet(StateOf(y.log)))
  }

  lemma {:induction false} ChainPrefix(last: Payload, s: RunData, events: seq<Event>, k: nat)
    requires Chain(last, s, events) && k <= |events|
    ensures Chain(last, s, events[..k])
  {
    hide Chain, Legal, Step;
    assert events == events[..k] + events[k..];
    ChainConcat(last, s, events[..k], events[k..]);
  }

  lemma StartSound(y: Sys)
    requires Starts(y)
    ensures Sound(y)
  {
    var e := y.log[0];
    StartInv(e);
    StateOfAppend([], e);
    assert [] + [e] == y.log;
    var s := StateOf(y.log);
    StartLeased(e.payload.def.nodes);
    assert forall n | n in s.nodes :: s.nodes[n].state.Pending? || s.nodes[n].state.Ready?;
    hide StateOf, Step, Inv, Legal;
    assert !AllNodesCompleted(s) && !HasUnrecoveredFailure(s);
  }

  lemma NextSound(a: Sys, b: Sys)
    requires Sound(a) && Next(a, b)
    ensures Sound(b) && a.log <= b.log
  {
    hide Legal, Inv, Step, LegalLog, StateOf, Quiet, Chain, OpEvents, ValidOp, Reconcile;
    var s := StateOf(a.log);
    LogInv(a.log);
    LegalNotEmpty(a.log);
    var last := Last(a.log).payload;
    if op :| Operates(a, b, op) {
      OpLegal(last, s, op);
      ExtendLegal(a.log, OpEvents(s, op));
      StateOfConcat(a.log, OpEvents(s, op));
      OpQuiet(last, s, op);
    } else if op, k: nat :| Dies(a, b, op, k) {
      OpLegal(last, s, op);
      ChainPrefix(last, s, OpEvents(s, op), k);
      ExtendLegal(a.log, OpEvents(s, op)[..k]);
    } else {
      var clock: Clock, k: nat :| Recovers(a, b, clock, k);
      var events := Reconcile(s, clock);
      ReconcileLegal(last, s, clock);
      ChainPrefix(last, s, events, k);
      ExtendLegal(a.log, events[..k]);
      if b.up {
        assert events[..k] == events;
        ReconcileQuiets(last, s, clock);
        StateOfConcat(a.log, events);
      }
    }
  }

  lemma LegalNotEmpty(log: seq<Event>)
    requires LegalLog(log)
    ensures log != []
  {
  }

  lemma {:induction false} ExecutionSound(h: seq<Sys>, i: nat)
    requires Execution(h) && i < |h|
    ensures Sound(h[i]) && h[0].log <= h[i].log
  {
    hide Sound, Next, Starts;
    if i == 0 {
      StartSound(h[0]);
    } else {
      ExecutionSound(h, i - 1);
      assert Next(h[i - 1], h[i - 1 + 1]);
      NextSound(h[i - 1], h[i]);
    }
  }

  /** Every reachable log is legal event by event, replays without error to a state
      that satisfies every invariant, and is numbered 1, 2, 3, ... */
  lemma ReachableSound(y: Sys)
    requires Reachable(y)
    ensures Sound(y)
    ensures Inv(StateOf(y.log)) && Replays(EMPTY_RUN, y.log) && Replay(EMPTY_RUN, y.log) == StateOf(y.log)
    ensures forall i | 0 <= i < |y.log| :: y.log[i].seqNo == i + 1
  {
    hide ExecutionTo, Sound, Inv, Legal, Step, LegalLog, StateOf, Replay, Replays;
    var h :| ExecutionTo(h, y);
    ExecutionSoundLast(h, y);
    SoundIsLegal(y);
    LogInv(y.log);
    ApplyNeverErrors(y.log);
  }

  lemma SoundIsLegal(y: Sys)
    requires Sound(y)
    ensures LegalLog(y.log)
  {
  }

  lemma ExecutionSoundLast(h: seq<Sys>, y: Sys)
    requires ExecutionTo(h, y)
    ensures Sound(y)
  {
    hide Sound, Next, Starts;
    ExecutionSound(h, |h| - 1);
  }

  lemma ReachableStart(y: Sys)
    requires Starts(y)
    ensures Reachable(y)
  {
    assert ExecutionTo([y], y);
  }

  lemma ReachableNext(a: Sys, b: Sys)
    requires Reachable(a) && Next(a, b)
    ensures Reachable(b)
  {
    hide Next, Starts;
    var h :| ExecutionTo(h, a);
    var g := h + [b];
    forall i | 0 <= i < |g| - 1 ensures Next(g[i], g[i + 1]) {
      if i < |h| - 1 { assert Next(h[i], h[i + 1]); }
    }
    assert ExecutionTo(g, b);
  }

  /** Crash recovery: cut a reachable log anywhere. The rest replays without error,
      and reconciling it ends in a state where reconciling again appends nothing. */
  lemma CrashRecovery(y: Sys, k: nat, clock: Clock, again: Clock)
    requires Reachable(y) && 0 < k <= |y.log|
    ensures var cut := y.log[..k]; var s := StateOf(cut);
      && Replays(EMPTY_RUN, cut) && Inv(s)
      && LegalLog(cut + Reconcile(s, clock))
      && Quiet(StateOf(cut + Reconcile(s, clock)))
      && Reconcile(StateOf(cut + Reconcile(s, clock)), again) == []
  {
    hide Reachable, Sound, Inv, Legal, Step, LegalLog, StateOf, Quiet, Replay, Replays, Reconcile;
    ReachableSound(y);
    SoundIsLegal(y);
    LegalPrefix(y.log, k);
    var cut := y.log[..k];
    var s := StateOf(cut);
    LogInv(cut);
    ApplyNeverErrors(cut);
    var last := Last(cut).payload;
    ReconcileLegal(last, s, clock);
    ExtendLegal(cut, Reconcile(s, clock));
    ReconcileQuiets(last, s, clock);
    StateOfConcat(cut, Reconcile(s, clock));
    QuietIffReconcileEmpty(Replay(s, Reconcile(s, clock)), again);
  }

  /** At an operation boundary recovery appends nothing, so a restart there
      changes neither the log nor the state. */
  lemma RestartAtBoundary(y: Sys, clock: Clock)
    requires Reachable(y) && y.up
    ensures Reconcile(StateOf(y.log), clock) == []
  {
    hide Inv, Legal, Step, LegalLog, StateOf, Quiet, Reconcile;
    ReachableSound(y);
    QuietIffReconcileEmpty(StateOf(y.log), clock);
  }
}
