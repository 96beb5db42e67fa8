/** Run logs: the state a log replays to, and logs made of guarded events only. */
module Logs {
  import opened Runtime
  import opened State
  import opened Workflowdef
  import opened EngineSpec
  import opened Guards
  import opened Invariant
  import Wal

  function Front(log: seq<Event>): seq<Event>
    requires log != []
  {
    log[..|log| - 1]
  }

  function Last(log: seq<Event>): Event
    requires log != []
  {
    log[|log| - 1]
  }

  function StateOf(log: seq<Event>): RunData {
    if log == [] then EMPTY_RUN else Step(StateOf(Front(log)), Last(log))
  }

  ghost predicate StartsRun(e: Event) {
    e.payload.WorkflowStarted? && ValidDef(e.payload.def) && e.seqNo == 1
  }

  /** A start event followed by events that were each legal where they were appended. */
  ghost predicate LegalLog(log: seq<Event>) {
    log != [] &&
    if |log| == 1 then StartsRun(log[0])
    else LegalLog(Front(log)) && Legal(Last(Front(log)).payload, StateOf(Front(log)), Last(log))
  }

  // A sequence of events legal one after the other from a state.
  ghost predicate Chain(last: Payload, s: RunData, events: seq<Event>)
    decreases |events|
  {
    events != [] ==> Legal(last, s, events[0]) && Chain(events[0].payload, Step(s, events[0]), events[1..])
  }

  function LastOf(last: Payload, events: seq<Event>): Payload {
    if events == [] then last else Last(events).payload
  }

  lemma {:induction false} ChainConcat(last: Payload, s: RunData, a: seq<Event>, b: seq<Event>)
    ensures Chain(last, s, a + b) <==> Chain(last, s, a) && Chain(LastOf(last, a), Replay(s, a), b)
    decreases |a|
  {
    if a == [] {
      assert a + b == b;
    } else {
      assert (a + b)[1..] == a[1..] + b;
      ChainConcat(a[0].payload, Step(s, a[0]), a[1..], b);
    }
  }

  /** A guarded sequence replays without error and keeps the invariants throughout. */
  lemma {:induction false} ChainInv(last: Payload, s: RunData, events: seq<Event>)
    requires Inv(s) && Chain(last, s, events)
    ensures Inv(Replay(s, events)) && Replays(s, events)
    ensures Replay(s, events).lastSeq == s.lastSeq + |events| && Replay(s, events).runId == s.runId
    decreases |events|
  {
    if events != [] {
      InvKept(last, s, events[0]);
      ChainInv(events[0].payload, Step(s, events[0]), events[1..]);
    }
  }

  // ---- Logs and replay ----

  lemma StateOfAppend(log: seq<Event>, e: Event)
    ensures StateOf(log + [e]) == Step(StateOf(log), e)
  {
    assert Front(log + [e]) == log;
  }

  lemma {:induction false} StateOfConcat(log: seq<Event>, events: seq<Event>)
    ensures StateOf(log + events) == Replay(StateOf(log), events)
    decreases |events|
  {
    if events == [] {
      assert log + events == log;
    } else {
      StateOfAppend(log, events[0]);
      StateOfConcat(log + [events[0]], events[1..]);
      assert log + events == (log + [events[0]]) + events[1..];
    }
  }

  lemma {:induction false} ExtendLegal(log: seq<Event>, events: seq<Event>)
    requires LegalLog(log) && Chain(Last(log).payload, StateOf(log), events)
    ensures LegalLog(log + events)
    decreases |events|
  {
    hide Legal, Step, StartsRun;
    if events == [] {
      assert log + events == log;
    } else {
      var next := log + [events[0]];
      assert Front(next) == log;
      ExtendLegal(next, events[1..]);
      assert log + events == next + events[1..];
    }
  }

  lemma {:induction false} LegalPrefix(log: seq<Event>, k: nat)
    requires LegalLog(log) && 0 < k <= |log|
    ensures LegalLog(log[..k])
    decreases |log|
  {
    if k == |log| {
      assert log[..k] == log;
    } else {
      LegalPrefix(Front(log), k);
      assert Front(log)[..k] == log[..k];
    }
  }

  lemma LegalAt(log: seq<Event>, i: nat)
    requires LegalLog(log) && 0 < i < |log|
    ensures LegalLog(log[..i]) && Legal(log[i - 1].payload, StateOf(log[..i]), log[i])
    ensures StateOf(log[..i + 1]) == Step(StateOf(log[..i]), log[i])
  {
    LegalPrefix(log, i);
    LegalPrefix(log, i + 1);
    assert Front(log[..i + 1]) == log[..i];
  }

  lemma {:induction false} StartsFirst(log: seq<Event>)
    requires LegalLog(log)
    ensures log[0].payload.WorkflowStarted?
    decreases |log|
  {
    hide Legal, StateOf;
    if |log| > 1 { StartsFirst(Front(log)); }
  }

  // The nodes of a fresh run: one per definition, PENDING or already READY.
  lemma StartNodes(defs: seq<NodeDef>)
    requires UniqueIds(defs)
    ensures var nodes := MarkReady(InsertDefs(map[], defs));
      && nodes.Keys == Ids(defs)
      && (forall i | 0 <= i < |defs| ::
            defs[i].id in nodes && (nodes[defs[i].id] == NewNode(defs[i]) || nodes[defs[i].id] == NewNode(defs[i]).(state := Ready)))
      && Readiness(nodes)
  {
    var g := InsertDefs(map[], defs);
    InsertedDefs(map[], defs);
    var nodes := MarkReady(g);
    forall n | n in g ensures n in Ids(defs) && g[n].state.Pending? {
      assert HasId(defs, n);
      var i :| 0 <= i < |defs| && defs[i].id == n;
    }
    assert nodes.Keys == g.Keys == Ids(defs);
    assert forall n | n in g :: nodes[n] == MarkNode(g, g[n]);
    MarkingMakesReadiness(g);
  }

  lemma StartWellFormed(defs: seq<NodeDef>)
    requires UniqueIds(defs) && defs != [] && Closed(defs, Ids(defs))
    ensures WellFormed(MarkReady(InsertDefs(map[], defs)))
  {
    StartNodes(defs);
    var nodes := MarkReady(InsertDefs(map[], defs));
    assert defs[0].id in nodes;
    forall n | n in nodes ensures nodes[n].def.id == n && forall d | d in nodes[n].def.dependsOn :: d in nodes {
      var i :| 0 <= i < |defs| && defs[i].id == n;
      assert nodes[n].def == defs[i];
    }
  }

  lemma StartLeased(defs: seq<NodeDef>)
    requires UniqueIds(defs)
    ensures forall n | n in MarkReady(InsertDefs(map[], defs)) :: var node := MarkReady(InsertDefs(map[], defs))[n];
      (node.state.Pending? || node.state.Ready?) && node.attempt == 0 && node.worker == ""
  {
    StartNodes(defs);
    var nodes := MarkReady(InsertDefs(map[], defs));
    forall n | n in nodes ensures (nodes[n].state.Pending? || nodes[n].state.Ready?) && nodes[n].attempt == 0 && nodes[n].worker == "" {
      var i :| 0 <= i < |defs| && defs[i].id == n;
      assert nodes[n].def == defs[i];
    }
  }

  lemma StartInv(e: Event)
    requires StartsRun(e)
    ensures ApplyEvent(EMPTY_RUN, e).ok && Inv(Step(EMPTY_RUN, e))
    ensures Step(EMPTY_RUN, e) == EMPTY_RUN.(runId := e.runId, lastSeq := 1, nodes := MarkReady(InsertDefs(map[], e.payload.def.nodes)))
  {
    var defs := e.payload.def.nodes;
    StartNodes(defs);
    StartWellFormed(defs);
    StartLeased(defs);
    assert Step(EMPTY_RUN, e) == EMPTY_RUN.(runId := e.runId, lastSeq := 1, nodes := MarkReady(InsertDefs(map[], defs)));
    hide InsertDefs, MarkReady, ApplyEvent, ValidDef;
  }

  /** On a legal log the invariants hold, numbers run 1, 2, 3, ... and the run id is that of the start event. */
  lemma {:induction false} LogInv(log: seq<Event>)
    requires LegalLog(log)
    ensures Inv(StateOf(log))
    ensures StateOf(log).lastSeq == |log| && StateOf(log).runId == log[0].runId
    ensures Wal.Sequenced(log)
    decreases |log|
  {
    hide Legal, Inv, Step;
    if |log| == 1 {
      assert Front(log) == [];
      StateOfAppend([], log[0]);
      StartInv(log[0]);
    } else {
      LogInv(Front(log));
      InvKept(Last(Front(log)).payload, StateOf(Front(log)), Last(log));
      assert forall i | 0 <= i < |log| - 1 :: log[i] == Front(log)[i];
    }
  }

  /** Apply never refuses an event of a legal log, and rehydration rebuilds its state. */
  lemma {:induction false} ApplyNeverErrors(log: seq<Event>)
    requires LegalLog(log)
    ensures Replays(EMPTY_RUN, log) && Replay(EMPTY_RUN, log) == StateOf(log)
    decreases |log|
  {
    hide Legal, Inv, Step, ApplyEvent;
    StateOfConcat([], log);
    assert [] + log == log;
    if |log| == 1 {
      StartInv(log[0]);
    } else {
      ApplyNeverErrors(Front(log));
      LogInv(Front(log));
      InvKept(Last(Front(log)).payload, StateOf(Front(log)), Last(log));
      assert log == Front(log) + [Last(log)];
      ReplayConcat(EMPTY_RUN, Front(log), [Last(log)]);
    }
  }

  /** Readiness is exact after every event: a node waits only while some dependency
      is not COMPLETED, and has left that state, other than by being cancelled, only
      once all of them are. */
  lemma ReadinessExact(log: seq<Event>, k: nat, n: string)
    requires LegalLog(log) && 0 < k <= |log| && n in StateOf(log[..k]).nodes
    ensures var nodes := StateOf(log[..k]).nodes; var deps := nodes[n].def.dependsOn;
      && (nodes[n].state.Pending? ==> exists d :: d in deps && d in nodes && !nodes[d].state.Completed?)
      && (!nodes[n].state.Pending? && !nodes[n].state.Cancelled? ==> forall d | d in deps :: d in nodes && nodes[d].state.Completed?)
  {
    hide Legal, Step, StateOf, LegalLog, StackInv, ActiveInv, PhaseInv, TimerInv, Leased;
    LegalPrefix(log, k);
    LogInv(log[..k]);
    var nodes := StateOf(log[..k]).nodes;
    assert ReadinessOf(nodes, nodes[n]);
  }

  /** Snapshot plus delta: replaying the events numbered after a snapshot of any
      prefix onto that snapshot gives the state of the whole log. */
  lemma SnapshotPlusDelta(log: seq<Event>, k: nat)
    requires LegalLog(log) && 0 < k <= |log|
    ensures StateOf(log[..k]).lastSeq == k
    ensures Wal.After(log, k) == log[k..]
    ensures Replays(StateOf(log[..k]), log[k..]) && Replay(StateOf(log[..k]), log[k..]) == StateOf(log)
  {
    hide Legal, Inv, Step, ApplyEvent, StateOf, LegalLog, Replay, Replays;
    LegalPrefix(log, k);
    LogInv(log[..k]);
    LogInv(log);
    Wal.AfterIsSuffix(log, 0, k);
    assert log[0..] == log;
    assert log == log[..k] + log[k..];
    StateOfConcat(log[..k], log[k..]);
    ApplyNeverErrors(log);
    ApplyNeverErrors(log[..k]);
    ReplayConcat(EMPTY_RUN, log[..k], log[k..]);
  }
}
