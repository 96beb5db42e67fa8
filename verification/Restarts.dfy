/** Stopping an engine at any moment, and starting the next one over what it left
    (internal/engine/engine.go, loadPersistedRuns; internal/snapshot/store.go). */
module Restarts {
  import opened Runtime
  import opened State
  import opened Workflowdef
  import opened EngineSpec
  import opened Guards
  import opened Logs
  import opened Runs
  import opened Serving = Engine
  import Liveness
  import Wal

  // ---- Stopping ----

  function Readables(events: seq<Event>): seq<Wal.Record> {
    seq(|events|, i requires 0 <= i < |events| => Wal.Readable(events[i]))
  }

  lemma {:induction false} ReadablesAppended(file: seq<Wal.Record>, events: seq<Event>)
    requires Wal.Clean(file)
    ensures Wal.Clean(file + Readables(events)) && Wal.ValidPrefix(file + Readables(events)) == Wal.ValidPrefix(file) + events
    decreases |events|
  {
    if events == [] {
      assert file + Readables(events) == file;
    } else {
      Wal.AppendVisible(file, events[0]);
      ReadablesAppended(file + [Wal.Readable(events[0])], events[1..]);
      assert file + Readables(events) == (file + [Wal.Readable(events[0])]) + Readables(events[1..]);
      assert Wal.ValidPrefix(file) + events == (Wal.ValidPrefix(file) + [events[0]]) + events[1..];
    }
  }

  // What the interrupted operation had appended to one run's file: a prefix of what it
  // appends to a served run, or the start of a new one.
  ghost predicate CutShort(engine: Engine, r: string, events: seq<Event>)
    reads engine`runs, engine.wal`files
  {
    || events == []
    || (r in engine.runs && exists op, k: nat :: CutAfter(StateOf(engine.Log(r)), op, k, events))
    || (engine.wal.File(r) == [] && |events| == 1 && StartsRun(events[0]) && events[0].runId == r)
  }

  predicate Torn(tail: seq<Wal.Record>) {
    tail == [] || tail == [Wal.Corrupt]
  }

  lemma {:induction false} TornUnseen(file: seq<Wal.Record>, tail: seq<Wal.Record>)
    requires Torn(tail)
    ensures Wal.ValidPrefix(file + tail) == Wal.ValidPrefix(file)
    decreases |file|
  {
    if file == [] {
      assert [] + tail == tail;
    } else {
      assert (file + tail)[1..] == file[1..] + tail;
      TornUnseen(file[1..], tail);
    }
  }

  ghost predicate CutAfter(s: RunData, op: Op, k: nat, events: seq<Event>) {
    ValidOp(s, op) && k <= |OpEvents(s, op)| && events == OpEvents(s, op)[..k]
  }

  /** The process stopped at any moment: each file holds the old log, a prefix of what an
      operation was appending, and perhaps a record cut off in the middle; each snapshot
      is the old one, a copy of a state on the way, or unusable. */
  ghost predicate StoppedWith(engine: Engine, files: map<string, seq<Wal.Record>>, snapshots: map<string, Snapshot>)
    reads engine`runs, engine`snapshots, engine.wal`files
  {
    forall r :: RunStopped(engine, r, FileIn(files, r), snapshots)
  }

  ghost predicate RunStopped(engine: Engine, r: string, file: seq<Wal.Record>, snapshots: map<string, Snapshot>)
    reads engine`runs, engine`snapshots, engine.wal`files
  {
    && (exists events, torn :: CutShort(engine, r, events) && Torn(torn) && file == engine.wal.File(r) + Readables(events) + torn)
    && (r in snapshots && snapshots[r].Copy? ==>
          || (r in engine.snapshots && snapshots[r] == engine.snapshots[r])
          || exists k: nat :: TakenAt(snapshots[r].state, Wal.ValidPrefix(file), k))
  }

  lemma LogCutShort(engine: Engine, r: string, events: seq<Event>)
    requires engine.Valid() && CutShort(engine, r, events)
    ensures Wrote(engine.Log(r) + events, r)
  {
    hide Reachable, StateOf, LegalLog, Replay, Replays, Inv, OpEvents, ValidOp, CopiesPrefix, Wal.FeedInv, Wal.ValidPrefix, StartsRun;
    assert engine.Kept(r);
    var before := engine.Log(r);
    Present(engine, r);
    NoFile(engine, r);
    if r in engine.runs {
      var op: Op, k: nat := OpCancel(_ => 0), 0;
      if events != [] { op, k :| CutAfter(StateOf(before), op, k, events); }
      OrderFree(StateOf(before), OpCancel(_ => 0));
      assert OpEvents(StateOf(before), op)[..0] == [];
      DyingIsReachable(before, op, k);
      SameRun(before, events);
    } else if events != [] {
      assert before + events == [events[0]];
      StartCut(events[0]);
    } else {
      assert before + events == before;
    }
  }

  lemma DyingIsReachable(log: seq<Event>, op: Op, k: nat)
    requires Reachable(Sys(log, true)) && ValidOp(StateOf(log), op) && k <= |OpEvents(StateOf(log), op)|
    ensures Reachable(Sys(log + OpEvents(StateOf(log), op)[..k], false))
  {
    hide Reachable, StateOf, OpEvents, ValidOp;
    assert Dies(Sys(log, true), Sys(log + OpEvents(StateOf(log), op)[..k], false), op, k);
    ReachableNext(Sys(log, true), Sys(log + OpEvents(StateOf(log), op)[..k], false));
  }

  lemma SameRun(before: seq<Event>, events: seq<Event>)
    requires Reachable(Sys(before, true)) && Reachable(Sys(before + events, false))
    ensures StateOf(before + events).runId == StateOf(before).runId
  {
    hide Reachable, StateOf, LegalLog, Inv, Replay, Replays;
    ReachableNotEmpty(Sys(before, true));
    ReachableSound(Sys(before, true));
    SoundIsLegal(Sys(before, true));
    ReachableSound(Sys(before + events, false));
    SoundIsLegal(Sys(before + events, false));
    LogInv(before);
    LogInv(before + events);
  }

  lemma StartCut(e: Event)
    requires StartsRun(e)
    ensures Reachable(Sys([e], false)) && StateOf([e]).runId == e.runId
  {
    ReachableStart(Sys([e], true));
    hide Reachable, StateOf, LegalLog, Inv, Replay, Replays, OpEvents;
    var op := OpCancel(_ => 0);
    OrderFree(StateOf([e]), op);
    DyingIsReachable([e], op, 0);
    assert [e] + OpEvents(StateOf([e]), op)[..0] == [e];
    ReachableSound(Sys([e], false));
    SoundIsLegal(Sys([e], false));
    LogInv([e]);
  }

  /** An engine stopped at any moment, between any two appends and also while writing a
      snapshot, leaves behind what the next one can start from. */
  lemma StoppedLeavesBehind(engine: Engine, files: map<string, seq<Wal.Record>>, snapshots: map<string, Snapshot>)
    requires engine.Valid() && StoppedWith(engine, files, snapshots)
    ensures forall r :: LeftBehind(FileIn(files, r), snapshots, r)
  {
    hide Engine.Valid, LeftBehind, RunStopped;
    forall r ensures LeftBehind(FileIn(files, r), snapshots, r) {
      assert RunStopped(engine, r, FileIn(files, r), snapshots);
      RunLeftBehind(engine, r, FileIn(files, r), snapshots);
    }
  }

  lemma CleanFile(engine: Engine, r: string, events: seq<Event>)
    requires engine.Valid() && CutShort(engine, r, events)
    ensures engine.Snapshotted(r) && (events != [] ==> Wal.Clean(engine.wal.File(r)))
  {
    hide Reachable, StateOf, CopiesPrefix, Wal.FeedInv, CutAfter;
    assert engine.Kept(r);
  }

  lemma RunLeftBehind(engine: Engine, r: string, file: seq<Wal.Record>, snapshots: map<string, Snapshot>)
    requires engine.Valid() && RunStopped(engine, r, file, snapshots)
    ensures LeftBehind(file, snapshots, r)
  {
    hide Engine.Valid, Reachable, StateOf, CutShort, TakenAt, Wal.Clean, Wal.ValidPrefix;
    var events, torn :| CutShort(engine, r, events) && Torn(torn) && file == engine.wal.File(r) + Readables(events) + torn;
    CleanFile(engine, r, events);
    if events == [] {
      assert engine.wal.File(r) + Readables(events) == engine.wal.File(r) && engine.Log(r) + events == engine.Log(r);
    } else {
      ReadablesAppended(engine.wal.File(r), events);
    }
    TornUnseen(engine.wal.File(r) + Readables(events), torn);
    LogCutShort(engine, r, events);
    CopyKept(engine.snapshots, r, engine.Log(r), events);
  }

  // Recovery itself may be cut short: its events are as good as any.
  lemma RecoveryLeavesBehind(file: seq<Wal.Record>, snapshots: map<string, Snapshot>, r: string, clock: Clock, k: nat, torn: seq<Wal.Record>)
    requires LeftBehind(file, snapshots, r) && Wal.Clean(file) && Wal.ValidPrefix(file) != [] && Torn(torn)
    requires k <= |Reconcile(StateOf(Wal.ValidPrefix(file)), clock)|
    ensures LeftBehind(file + Readables(Reconcile(StateOf(Wal.ValidPrefix(file)), clock)[..k]) + torn, snapshots, r)
  {
    hide Reachable, StateOf, LegalLog, Inv, Replay, Replays, Wal.ValidPrefix, Wal.Clean, TakenAt, Reconcile;
    var log := Wal.ValidPrefix(file);
    var events := Reconcile(StateOf(log), clock)[..k];
    ReadablesAppended(file, events);
    TornUnseen(file + Readables(events), torn);
    assert Recovers(Sys(log, false), Sys(log + events, false), clock, k);
    ReachableNext(Sys(log, false), Sys(log + events, false));
    ReachableSound(Sys(log, false));
    SoundIsLegal(Sys(log, false));
    ReachableSound(Sys(log + events, false));
    SoundIsLegal(Sys(log + events, false));
    LogInv(log);
    LogInv(log + events);
    assert (log + events)[0] == log[0];
    CopyKept(snapshots, r, log, events);
  }

  /** From crash to service: whatever a stopped engine left, a new one serves every run
      with a clean log and a snapshot that decodes, at its log extended by its
      reconciliation, and leaves the logs of all others as they were. */
  method Restart(engine: Engine, files: map<string, seq<Wal.Record>>, snapshots: map<string, Snapshot>, clocks: string -> Clock)
    returns (next: Engine)
    requires engine.Valid() && StoppedWith(engine, files, snapshots)
    ensures fresh(next) && next.Valid() && next.maxActiveRuns == engine.maxActiveRuns
    ensures forall r :: r in next.runs <==> Wal.ValidPrefix(FileIn(files, r)) != [] && !Skipped(FileIn(files, r), snapshots, r)
    ensures forall r :: next.Log(r) == Restored(Wal.ValidPrefix(FileIn(files, r)), Skipped(FileIn(files, r), snapshots, r), clocks(r))
    ensures next.snapshots == snapshots && forall r | Skipped(FileIn(files, r), snapshots, r) :: next.wal.File(r) == FileIn(files, r)
  {
    hide Engine.Valid, LeftBehind, Restored, StoppedWith, Wal.ValidPrefix, Skipped;
    StoppedLeavesBehind(engine, files, snapshots);
    next := new Engine(files, snapshots, engine.maxActiveRuns, clocks);
  }

  function DyingFiles(engine: Engine, r: string, torn: bool): map<string, seq<Wal.Record>>
    reads engine.wal`files
  {
    if torn then engine.wal.files[r := engine.wal.File(r) + [Wal.Corrupt]] else engine.wal.files
  }

  function DyingSnapshots(engine: Engine, r: string, torn: bool): map<string, Snapshot>
    reads engine`snapshots
  {
    if torn then engine.snapshots else engine.snapshots[r := Undecodable]
  }

  lemma DyingStops(engine: Engine, r: string, torn: bool)
    ensures StoppedWith(engine, DyingFiles(engine, r, torn), DyingSnapshots(engine, r, torn))
  {
    hide Wal.ValidPrefix, TakenAt;
    var files := DyingFiles(engine, r, torn);
    forall q ensures RunStopped(engine, q, FileIn(files, q), DyingSnapshots(engine, r, torn)) {
      var tail := if torn && q == r then [Wal.Corrupt] else [];
      assert CutShort(engine, q, []) && Torn(tail);
      assert FileIn(files, q) == engine.wal.File(q) + Readables([]) + tail;
    }
  }

  lemma DyingSkips(engine: Engine, r: string, torn: bool, q: string)
    requires engine.Valid() && r in engine.runs
    ensures var file := FileIn(DyingFiles(engine, r, torn), q);
      && Wal.ValidPrefix(file) == engine.Log(q)
      && (q == r ==> Skipped(file, DyingSnapshots(engine, r, torn), r) && (torn <==> !Wal.Clean(file)))
      && (q in engine.runs && q != r ==> engine.Log(q) != [] && !Skipped(file, DyingSnapshots(engine, r, torn), q))
  {
    hide Engine.Valid, Wal.ValidPrefix;
    Present(engine, q);
    Present(engine, r);
    TornUnseen(engine.wal.File(r), [Wal.Corrupt]);
    if torn && q == r { assert FileIn(DyingFiles(engine, r, torn), r)[|engine.wal.File(r)|].Corrupt?; }
  }

  /** A process that dies while it saves a run's snapshot, or while it writes a record
      of the run, loses the run: the next process serves all others, but answers every
      request for this one with an error, and never appends to its log. */
  method LoseRun(engine: Engine, r: string, torn: bool, clocks: string -> Clock) returns (next: Engine)
    requires engine.Valid() && r in engine.runs
    ensures StoppedWith(engine, DyingFiles(engine, r, torn), DyingSnapshots(engine, r, torn))
    ensures fresh(next) && next.Valid()
    ensures r !in next.runs && next.Log(r) == engine.Log(r) != []
    ensures next.LoadError(r) == if torn then CorruptLog else SnapshotUndecodable
    ensures forall q | q in engine.runs && q != r :: q in next.runs && next.Log(q) == Restored(engine.Log(q), false, clocks(q))
  {
    hide Engine.Valid, StoppedWith, Restored, Skipped, DyingFiles, DyingSnapshots, Wal.ValidPrefix, Wal.Clean;
    DyingStops(engine, r, torn);
    next := Restart(engine, DyingFiles(engine, r, torn), DyingSnapshots(engine, r, torn), clocks);
    forall q
      ensures var file := FileIn(DyingFiles(engine, r, torn), q);
        && Wal.ValidPrefix(file) == engine.Log(q)
        && (q == r ==> Skipped(file, DyingSnapshots(engine, r, torn), r) && (torn <==> !Wal.Clean(file)))
        && (q in engine.runs && q != r ==> engine.Log(q) != [] && !Skipped(file, DyingSnapshots(engine, r, torn), q))
    {
      DyingSkips(engine, r, torn, q);
    }
    Present(engine, r);
    RestoredSkipped(engine.Log(r), clocks(r));
    SkippedError(next, r);
    DyingUnreadable(engine, r, torn);
  }

  lemma SkippedError(engine: Engine, r: string)
    requires r !in engine.runs && engine.Log(r) != []
    ensures engine.LoadError(r) ==
      if !Wal.Clean(engine.wal.File(r)) then CorruptLog
      else if r in engine.snapshots && engine.snapshots[r].Undecodable? then SnapshotUndecodable else NoError
  {
  }

  lemma DyingUnreadable(engine: Engine, r: string, torn: bool)
    ensures !torn ==> r in DyingSnapshots(engine, r, torn) && DyingSnapshots(engine, r, torn)[r].Undecodable?
  {
  }

  lemma RestoredSkipped(log: seq<Event>, clock: Clock)
    ensures Restored(log, true, clock) == log
  {
  }

  lemma NothingYet(r: string)
    ensures LeftBehind(FileIn(map[], r), map[], r)
  {
  }

  lemma NoFileYet(engine: Engine, r: string)
    requires engine.Valid() && r !in engine.runs && !engine.Skips(r)
    ensures engine.wal.File(r) == []
  {
    hide StateOf, Reachable, CopiesPrefix, Wal.FeedInv;
    assert engine.Kept(r);
  }

  // A fresh engine, one run, and a process that dies while saving its first snapshot.
  method FirstRunLost() returns (next: Engine)
    ensures next.Valid() && "r" !in next.runs && next.Log("r") != [] && next.LoadError("r") == SnapshotUndecodable
  {
    hide Engine.Valid, StoppedWith, Restored, LeftBehind, ValidDef;
    forall r ensures LeftBehind(FileIn(map[], r), map[], r) { NothingYet(r); }
    var engine := new Engine(map[], map[], 0, _ => _ => 0);
    Liveness.LoneStart();
    NoFileYet(engine, "r");
    var error := engine.StartRun("r", Liveness.LONE_START.payload.def, 0);
    next := LoseRun(engine, "r", false, _ => _ => 0);
  }
}
