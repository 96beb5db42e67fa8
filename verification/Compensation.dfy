/** Compensation over whole histories: what the stack holds, which task runs next,
    and the order in which work is undone. */
module Compensation {
  import opened Runtime
  import opened State
  import opened EngineSpec
  import opened Guards
  import opened Invariant
  import opened Logs
  import opened Fencing

  // ---- What the log says ----

  predicate Pushes(s: RunData, p: Payload) {
    p.NodeCompleted? && p.node in s.nodes && s.nodes[p.node].def.compensation != ""
  }

  // The compensable nodes that completed, in log order.
  function Pushed(log: seq<Event>): seq<string> {
    if log == [] then []
    else Pushed(Front(log)) + if Pushes(StateOf(Front(log)), Last(log).payload) then [Last(log).payload.node] else []
  }

  // The nodes whose work was undone, in log order.
  function Undone(log: seq<Event>): seq<string> {
    if log == [] then []
    else Undone(Front(log)) + if Last(log).payload.CompensationTaskCompleted? then [Last(log).payload.node] else []
  }

  ghost predicate Distinct(xs: seq<string>) {
    forall i, j | 0 <= i < j < |xs| :: xs[i] != xs[j]
  }

  ghost predicate Mirrors(stack: seq<CompensationEntry>, pushed: seq<string>, undone: seq<string>) {
    && |stack| == |pushed|
    && (forall i | 0 <= i < |stack| :: stack[i].node == pushed[i])
    && (forall i | 0 <= i < |stack| :: stack[i].completed <==> pushed[i] in undone)
    && (forall x | x in undone :: x in pushed)
    && Distinct(undone)
  }

  lemma MirrorsPush(stack: seq<CompensationEntry>, pushed: seq<string>, undone: seq<string>, entry: CompensationEntry)
    requires Mirrors(stack, pushed, undone) && !entry.completed && entry.node !in pushed
    ensures Mirrors(stack + [entry], pushed + [entry.node], undone)
  {
  }

  lemma MirrorsUndo(stack: seq<CompensationEntry>, pushed: seq<string>, undone: seq<string>, i: nat)
    requires Mirrors(stack, pushed, undone) && i < |stack| && !stack[i].completed && Distinct(pushed)
    ensures Mirrors(stack[i := stack[i].(completed := true)], pushed, undone + [pushed[i]])
  {
  }

  lemma MirrorsAttempt(stack: seq<CompensationEntry>, pushed: seq<string>, undone: seq<string>, i: nat, a: uint32)
    requires Mirrors(stack, pushed, undone) && i < |stack|
    ensures Mirrors(stack[i := stack[i].(attempt := a)], pushed, undone)
  {
  }

  lemma DistinctNodes(s: RunData, pushed: seq<string>)
    requires StackInv(s) && |s.stack| == |pushed| && forall i | 0 <= i < |pushed| :: s.stack[i].node == pushed[i]
    ensures Distinct(pushed)
  {
  }

  // The node that completes was RUNNING, so it has no entry yet.
  lemma NewEntry(last: Payload, s: RunData, e: Event, pushed: seq<string>)
    requires Legal(last, s, e) && e.payload.NodeCompleted? && StackInv(s)
    requires |s.stack| == |pushed| && forall i | 0 <= i < |pushed| :: s.stack[i].node == pushed[i]
    ensures e.payload.node !in pushed
  {
    forall i | 0 <= i < |pushed| ensures pushed[i] != e.payload.node {
      assert EntryOk(s.nodes, s.stack[i]);
    }
  }

  lemma MirrorsStep(last: Payload, s: RunData, e: Event, pushed: seq<string>, undone: seq<string>)
    requires Legal(last, s, e) && Inv(s) && Mirrors(s.stack, pushed, undone)
    ensures Mirrors(Step(s, e).stack,
      pushed + (if Pushes(s, e.payload) then [e.payload.node] else []),
      undone + (if e.payload.CompensationTaskCompleted? then [e.payload.node] else []))
  {
    hide Legal, Step, Mirrors, WellFormed, Readiness, Leased, PhaseInv, TimerInv;
    var p := e.payload;
    assert pushed + [] == pushed && undone + [] == undone;
    MirrorsShape(s.stack, pushed, undone);
    DistinctNodes(s, pushed);
    if p.NodeCompleted? {
      CompletionStackShape(last, s, e);
      LegalBasics(last, s, e);
      if Pushes(s, p) {
        NewEntry(last, s, e, pushed);
        MirrorsPush(s.stack, pushed, undone, CompensationEntry(p.node, s.nodes[p.node].def.compensation, false, 0));
      }
    } else if TouchesEntry(p) {
      EntryEffect(last, s, e);
      var i := FirstEntry(s.stack, p.node);
      if p.CompensationTaskStarted? { MirrorsAttempt(s.stack, pushed, undone, i, p.attempt); }
      else { MirrorsUndo(s.stack, pushed, undone, i); }
    } else {
      StackUntouched(last, s, e);
    }
  }

  lemma MirrorsShape(stack: seq<CompensationEntry>, pushed: seq<string>, undone: seq<string>)
    requires Mirrors(stack, pushed, undone)
    ensures |stack| == |pushed| && forall i | 0 <= i < |pushed| :: stack[i].node == pushed[i]
  {
  }

  /** Conservation: the stack lists the completed compensable nodes in log order,
      an entry is done exactly when the log undid it, and nothing is undone twice
      or without having completed. */
  lemma {:induction false} StackIsHistory(log: seq<Event>)
    requires LegalLog(log)
    ensures Mirrors(StateOf(log).stack, Pushed(log), Undone(log)) && Distinct(Pushed(log))
    decreases |log|
  {
    hide Legal, Step, Inv, Mirrors;
    LogInv(log);
    if |log| == 1 {
      FreshStack(log);
    } else {
      StackIsHistory(Front(log));
      LogInv(Front(log));
      MirrorsStep(Last(Front(log)).payload, StateOf(Front(log)), Last(log), Pushed(Front(log)), Undone(Front(log)));
      StackDistinct(StateOf(log), Pushed(log), Undone(log));
    }
  }

  lemma FreshStack(log: seq<Event>)
    requires |log| == 1 && StartsRun(log[0])
    ensures Pushed(log) == [] && Undone(log) == [] && Mirrors(StateOf(log).stack, [], [])
  {
    StartAttempts(log, "");
    assert Front(log) == [];
    hide Step, StateOf;
  }

  lemma StackDistinct(s: RunData, pushed: seq<string>, undone: seq<string>)
    requires Inv(s) && Mirrors(s.stack, pushed, undone)
    ensures Distinct(pushed)
  {
  }

  // ---- Which task runs ----

  datatype Task = Task(node: string, worker: string, attempt: uint32)

  // The compensation task the log leaves open.
  function OpenTask(log: seq<Event>): Option<Task> {
    if log == [] then None
    else
      var p := Last(log).payload;
      if p.CompensationTaskStarted? then Some(Task(p.node, p.worker, p.attempt))
      else if p.CompensationTaskCompleted? || p.CompensationTaskExpired? || p.CompensationTaskFailed? || p.CompensationCompleted? then None
      else OpenTask(Front(log))
  }

  predicate ActiveMatches(active: Option<ActiveCompensation>, task: Option<Task>) {
    && (active.Some? <==> task.Some?)
    && (active.Some? ==> task == Some(Task(active.value.node, active.value.worker, active.value.attempt)))
  }

  lemma ActiveStep(last: Payload, s: RunData, e: Event, task: Option<Task>)
    requires Legal(last, s, e) && StackInv(s) && ActiveInv(s) && ActiveMatches(s.active, task)
    ensures var p := e.payload; ActiveMatches(Step(s, e).active,
      if p.CompensationTaskStarted? then Some(Task(p.node, p.worker, p.attempt))
      else if p.CompensationTaskCompleted? || p.CompensationTaskExpired? || p.CompensationTaskFailed? || p.CompensationCompleted? then None
      else task)
  {
    if TouchesEntry(e.payload) { EntryEffect(last, s, e); }
    else if TouchesNode(e.payload) { TouchMoves(last, s, e); }
    else if e.payload.NodeCompleted? {}
    else if e.payload.TimerFired? {}
    else if e.payload.HeartbeatRecorded? {}
    else {}
  }

  lemma {:induction false} ActiveIsHistory(log: seq<Event>)
    requires LegalLog(log)
    ensures ActiveMatches(StateOf(log).active, OpenTask(log))
    decreases |log|
  {
    hide Legal, Step, WellFormed, Readiness, Leased, PhaseInv, TimerInv, StackInv, ActiveInv;
    if |log| == 1 {
      StartAttempts(log, "");
    } else {
      ActiveIsHistory(Front(log));
      LogInv(Front(log));
      ActiveStep(Last(Front(log)).payload, StateOf(Front(log)), Last(log), OpenTask(Front(log)));
    }
  }

  // Position k of the pushed nodes is the last one not undone.
  ghost predicate LatestOpen(pushed: seq<string>, undone: seq<string>, k: nat) {
    k < |pushed| && pushed[k] !in undone && forall j | k < j < |pushed| :: pushed[j] in undone
  }

  lemma StartsLatest(last: Payload, s: RunData, e: Event, pushed: seq<string>, undone: seq<string>) returns (k: nat)
    requires Legal(last, s, e) && e.payload.CompensationTaskStarted? && Mirrors(s.stack, pushed, undone)
    ensures LatestOpen(pushed, undone, k) && pushed[k] == e.payload.node && s.active.None?
  {
    k := NextEntry(s).value;
  }

  /** A compensation task starts only when none is open, and it is for the latest
      completed node that has not been undone. */
  lemma TaskIsLatest(log: seq<Event>, i: nat) returns (k: nat)
    requires LegalLog(log) && 0 < i < |log| && log[i].payload.CompensationTaskStarted?
    ensures LatestOpen(Pushed(log[..i]), Undone(log[..i]), k)
    ensures Pushed(log[..i])[k] == log[i].payload.node && OpenTask(log[..i]).None?
  {
    hide Legal, Step, StateOf, Mirrors;
    LegalAt(log, i);
    StackIsHistory(log[..i]);
    ActiveIsHistory(log[..i]);
    k := StartsLatest(log[i - 1].payload, StateOf(log[..i]), log[i], Pushed(log[..i]), Undone(log[..i]));
  }

  lemma ReportKnown(last: Payload, s: RunData, e: Event)
    requires Legal(last, s, e)
    requires e.payload.CompensationTaskCompleted? || e.payload.CompensationTaskFailed? || e.payload.CompensationTaskExpired?
    ensures ActiveIs(s, e.payload.node, e.payload.worker, e.payload.attempt)
  {
  }

  /** Every compensation report is for the task the log has open, and each node is
      undone at most once in a whole history. */
  lemma TaskReports(log: seq<Event>, i: nat)
    requires LegalLog(log) && 0 < i < |log|
    requires var p := log[i].payload; p.CompensationTaskCompleted? || p.CompensationTaskFailed? || p.CompensationTaskExpired?
    ensures var p := log[i].payload;
      OpenTask(log[..i]) == Some(Task(p.node, p.worker, p.attempt)) && p.node !in Undone(log[..i]) && p.node in Pushed(log[..i])
  {
    hide Legal, Step, StateOf, Mirrors, WellFormed, Readiness, Leased, PhaseInv, TimerInv, StackInv, ActiveInv;
    LegalAt(log, i);
    ActiveIsHistory(log[..i]);
    StackIsHistory(log[..i]);
    LogInv(log[..i]);
    ReportKnown(log[i - 1].payload, StateOf(log[..i]), log[i]);
    ActiveNotUndone(StateOf(log[..i]), Pushed(log[..i]), Undone(log[..i]));
  }

  lemma ActiveNotUndone(s: RunData, pushed: seq<string>, undone: seq<string>)
    requires ActiveInv(s) && s.active.Some? && Mirrors(s.stack, pushed, undone)
    ensures s.active.value.node in pushed && s.active.value.node !in undone
  {
    var i := FirstEntry(s.stack, s.active.value.node);
    assert pushed[i] == s.active.value.node;
  }

  // ---- The end of compensation, and its order ----

  lemma AllUndone(last: Payload, s: RunData, e: Event, pushed: seq<string>, undone: seq<string>)
    requires Legal(last, s, e) && e.payload.CompensationCompleted? && Mirrors(s.stack, pushed, undone)
    ensures forall x | x in pushed :: x in undone
  {
    forall x | x in pushed ensures x in undone {
      var i :| 0 <= i < |pushed| && pushed[i] == x;
      assert s.stack[i].completed;
    }
  }

  /** When compensation completes, everything that was to be undone has been,
      each node exactly once. */
  lemma CompletedMeansUndone(log: seq<Event>, i: nat)
    requires LegalLog(log) && 0 < i < |log| && log[i].payload.CompensationCompleted?
    ensures forall x :: x in Pushed(log[..i]) <==> x in Undone(log[..i])
    ensures Distinct(Pushed(log[..i])) && Distinct(Undone(log[..i]))
  {
    hide Legal, Step, StateOf;
    LegalAt(log, i);
    StackIsHistory(log[..i]);
    AllUndone(log[i - 1].payload, StateOf(log[..i]), log[i], Pushed(log[..i]), Undone(log[..i]));
  }

  function Reversed(xs: seq<string>): (r: seq<string>)
    ensures |r| == |xs| && forall i | 0 <= i < |xs| :: r[i] == xs[|xs| - 1 - i]
  {
    if xs == [] then [] else Reversed(xs[1..]) + [xs[0]]
  }

  lemma {:induction false} PushedGrows(log: seq<Event>, i: nat)
    requires i <= |log|
    ensures Pushed(log[..i]) <= Pushed(log)
    decreases |log|
  {
    hide StateOf, Pushes;
    if i == |log| {
      assert log[..i] == log;
    } else {
      PushedGrows(Front(log), i);
      assert Front(log)[..i] == log[..i];
    }
  }

  /** Every compensable node had completed when the first compensation task started. */
  ghost predicate StackFinal(log: seq<Event>) {
    forall i | 0 <= i < |log| && log[i].payload.CompensationTaskStarted? :: Pushed(log[..i]) == Pushed(log)
  }

  lemma StackFinalFront(log: seq<Event>)
    requires log != [] && StackFinal(log)
    ensures StackFinal(Front(log))
  {
    hide StateOf, Pushes, Pushed;
    var front := Front(log);
    PushedGrows(log, |log| - 1);
    forall i | 0 <= i < |front| && front[i].payload.CompensationTaskStarted? ensures Pushed(front[..i]) == Pushed(front) {
      assert front[..i] == log[..i] && log[i] == front[i];
      PushedGrows(front, i);
    }
  }

  // Undone so far from the top; an open task is for the next one down.
  ghost predicate Unwinds(pushed: seq<string>, undone: seq<string>, task: Option<Task>) {
    && undone <= Reversed(pushed)
    && (task.Some? ==> |undone| < |pushed| && task.value.node == Reversed(pushed)[|undone|])
  }

  ghost predicate TopDown(pushed: seq<string>, undone: seq<string>) {
    |undone| <= |pushed| && forall x | 0 <= x < |undone| :: undone[x] == pushed[|pushed| - 1 - x]
  }

  lemma ReversedTopDown(pushed: seq<string>, undone: seq<string>)
    requires undone <= Reversed(pushed)
    ensures TopDown(pushed, undone)
  {
    forall x | 0 <= x < |undone| ensures undone[x] == pushed[|pushed| - 1 - x] {
      assert undone[x] == Reversed(pushed)[x];
    }
  }

  // What has been undone from the top are the highest positions.
  lemma UndoneAt(pushed: seq<string>, undone: seq<string>, k: nat)
    requires TopDown(pushed, undone) && Distinct(pushed) && k < |pushed|
    ensures pushed[k] in undone <==> |pushed| - 1 - k < |undone|
  {
    var m := |pushed| - 1 - k;
    if m < |undone| { assert undone[m] == pushed[k]; }
  }

  lemma UnwindsStart(pushed: seq<string>, undone: seq<string>, k: nat)
    requires LatestOpen(pushed, undone, k) && undone <= Reversed(pushed) && Distinct(pushed)
    ensures |undone| < |pushed| && pushed[k] == Reversed(pushed)[|undone|]
  {
    hide Reversed;
    ReversedTopDown(pushed, undone);
    UndoneAt(pushed, undone, k);
    if k + 1 < |pushed| { UndoneAt(pushed, undone, k + 1); }
  }

  // As long as the log has opened no task, nothing has been undone.
  lemma {:induction false} NoTaskNothingUndone(log: seq<Event>)
    requires LegalLog(log) && forall i | 0 <= i < |log| :: !log[i].payload.CompensationTaskStarted?
    ensures Undone(log) == [] && OpenTask(log).None?
    decreases |log|
  {
    hide Legal, Step, StateOf;
    if |log| == 1 {
      FreshStack(log);
    } else {
      assert forall i | 0 <= i < |log| - 1 :: Front(log)[i] == log[i];
      NoTaskNothingUndone(Front(log));
      assert log[..|log| - 1] == Front(log);
      if Last(log).payload.CompensationTaskCompleted? { TaskReports(log, |log| - 1); }
    }
  }

  /** Last completed, first undone: if the stack was final when compensation tasks
      started, the work is undone in exactly the reverse order of completion. */
  lemma {:induction false} UndoneInReverse(log: seq<Event>)
    requires LegalLog(log) && StackFinal(log)
    ensures Unwinds(Pushed(log), Undone(log), OpenTask(log))
    decreases |log|
  {
    hide Legal, Step, StateOf, Pushes, Mirrors, Unwinds, LatestOpen;
    if forall i | 0 <= i < |log| :: !log[i].payload.CompensationTaskStarted? {
      NoTaskNothingUndone(log);
      NothingUnwinds(Pushed(log));
    } else {
      var i :| 0 <= i < |log| && log[i].payload.CompensationTaskStarted?;
      LegalSecond(log);
      assert log[..|log| - 1] == Front(log);
      StackFinalFront(log);
      UndoneInReverse(Front(log));
      PushedGrows(log, |log| - 1);
      PushedGrows(Front(log), i);
      assert Front(log)[..i] == log[..i];
      UnwindsStep(log);
    }
  }

  // An event that adds nothing to the stack keeps the order of undoing.
  lemma UnwindsStep(log: seq<Event>)
    requires LegalLog(log) && |log| > 1 && Pushed(Front(log)) == Pushed(log)
    requires Unwinds(Pushed(Front(log)), Undone(Front(log)), OpenTask(Front(log)))
    ensures Unwinds(Pushed(log), Undone(log), OpenTask(log))
  {
    hide Legal, Step, StateOf, Pushes, Mirrors, Unwinds, LatestOpen;
    var front, p := Front(log), Last(log).payload;
    assert log[..|log| - 1] == front;
    StackIsHistory(front);
    assert Undone(front) + [] == Undone(front);
    if p.CompensationTaskStarted? {
      var k := TaskIsLatest(log, |log| - 1);
      UnwindsOpens(Pushed(front), Undone(front), OpenTask(front), k, p.worker, p.attempt);
    } else if p.CompensationTaskCompleted? {
      TaskReports(log, |log| - 1);
      UnwindsDone(Pushed(front), Undone(front), OpenTask(front).value);
    } else {
      UnwindsDrops(Pushed(front), Undone(front), OpenTask(front));
    }
  }

  // ---- Exactly when the order is reversed ----

  /** Event c is the first completion of a compensation task, and event j started that task. */
  ghost predicate FirstUndo(log: seq<Event>, j: nat, c: nat) {
    && j < c < |log| && log[j].payload.CompensationTaskStarted? && log[c].payload.CompensationTaskCompleted?
    && Undone(log[..c]) == [] && forall m | j < m < c :: !log[m].payload.CompensationTaskStarted?
  }

  lemma {:induction false} UndoneGrows(log: seq<Event>, i: nat)
    requires i <= |log|
    ensures Undone(log[..i]) <= Undone(log)
    decreases |log|
  {
    if i == |log| {
      assert log[..i] == log;
    } else {
      UndoneGrows(Front(log), i);
      assert Front(log)[..i] == log[..i];
    }
  }

  // An open task was opened by the latest start.
  lemma {:induction false} OpenedBy(log: seq<Event>) returns (j: nat)
    requires OpenTask(log).Some?
    ensures j < |log| && log[j].payload.CompensationTaskStarted? && log[j].payload.node == OpenTask(log).value.node
    ensures forall m | j < m < |log| :: !log[m].payload.CompensationTaskStarted?
    decreases |log|
  {
    if Last(log).payload.CompensationTaskStarted? {
      j := |log| - 1;
    } else {
      j := OpenedBy(Front(log));
      assert forall m | 0 <= m < |log| - 1 :: log[m] == Front(log)[m];
    }
  }

  lemma {:induction false} FirstUndoExists(log: seq<Event>) returns (j: nat, c: nat)
    requires LegalLog(log) && Undone(log) != []
    ensures FirstUndo(log, j, c)
    decreases |log|
  {
    hide Legal, Step, StateOf;
    if |log| == 1 { FreshStack(log); }
    var front := Front(log);
    assert log[..|log| - 1] == front;
    if Undone(front) != [] {
      j, c := FirstUndoExists(front);
      assert forall m | 0 <= m < |front| :: log[m] == front[m];
      assert log[..c] == front[..c];
    } else {
      c := |log| - 1;
      TaskReports(log, c);
      j := OpenedBy(front);
    }
  }

  // The first task undone is for the node on top of the stack when it was started.
  lemma FirstUndoneIsTop(log: seq<Event>, j: nat, c: nat)
    requires LegalLog(log) && FirstUndo(log, j, c) && 0 < j
    ensures Undone(log) != [] && Pushed(log[..j]) != [] && Undone(log)[0] == Reversed(Pushed(log[..j]))[0]
  {
    hide Legal, Step, StateOf, Pushes, Pushed, Undone, OpenTask, LatestOpen, Reversed;
    FirstUndoNode(log, j, c);
    UndoneGrows(log[..c], j);
    assert log[..c][..j] == log[..j];
    var k := TaskIsLatest(log, j);
    TopOfNone(Pushed(log[..j]), Undone(log[..j]), k);
  }

  lemma FirstUndoNode(log: seq<Event>, j: nat, c: nat)
    requires LegalLog(log) && FirstUndo(log, j, c)
    ensures Undone(log) != [] && Undone(log)[0] == log[j].payload.node
  {
    hide Legal, LegalLog, StateOf, OpenTask, Pushed, Undone;
    TaskReports(log, c);
    var i := OpenedBy(log[..c]);
    assert i == j by { assert log[..c][j] == log[j] && log[..c][i] == log[i]; }
    UndoneNext(log, c);
    UndoneGrows(log, c + 1);
  }

  lemma UndoneNext(log: seq<Event>, c: nat)
    requires c < |log| && log[c].payload.CompensationTaskCompleted?
    ensures Undone(log[..c + 1]) == Undone(log[..c]) + [log[c].payload.node]
  {
    assert Front(log[..c + 1]) == log[..c];
  }

  lemma TopOfNone(pushed: seq<string>, undone: seq<string>, k: nat)
    requires LatestOpen(pushed, undone, k) && undone == []
    ensures pushed != [] && pushed[k] == Reversed(pushed)[0]
  {
    assert pushed[|pushed| - 1] !in undone;
  }

  lemma SameTop(some: seq<string>, all: seq<string>, undone: seq<string>)
    requires some <= all && Distinct(all) && some != [] && undone != [] && undone[0] == Reversed(some)[0]
    ensures undone <= Reversed(all) ==> some == all
  {
    if undone <= Reversed(all) {
      assert Reversed(all)[0] == all[|all| - 1] == undone[0];
      assert all[|some| - 1] == some[|some| - 1];
    }
  }

  lemma {:induction false} UnwindsSince(log: seq<Event>, j: nat)
    requires LegalLog(log) && 0 < j < |log| && log[j].payload.CompensationTaskStarted?
    requires Undone(log[..j]) == [] && Pushed(log[..j]) == Pushed(log)
    ensures Unwinds(Pushed(log), Undone(log), OpenTask(log))
    decreases |log|
  {
    hide Legal, Step, StateOf, Pushes, Unwinds, Pushed, Undone, OpenTask;
    var front := Front(log);
    assert front[..j] == log[..j];
    PushedGrows(log, |log| - 1);
    PushedGrows(front, j);
    assert log[..|log| - 1] == front;
    if j == |log| - 1 {
      var k := TaskIsLatest(log, j);
      NothingOpenUnwinds(front);
    } else {
      UnwindsSince(front, j);
    }
    UnwindsStep(log);
  }

  lemma NothingOpenUnwinds(log: seq<Event>)
    requires Undone(log) == [] && OpenTask(log).None?
    ensures Unwinds(Pushed(log), Undone(log), OpenTask(log))
  {
  }

  /** The nodes undone so far are the last completed, in reverse order, if and only if
      no compensable node completed after the first task to be completed was started. */
  lemma UndoneInReverseIff(log: seq<Event>)
    requires LegalLog(log)
    ensures Undone(log) <= Reversed(Pushed(log)) <==> forall j: nat, c: nat | FirstUndo(log, j, c) :: Pushed(log[..j]) == Pushed(log)
  {
    hide Legal, Step, StateOf, Pushes, Pushed, Undone, OpenTask, Unwinds;
    StackIsHistory(log);
    forall j: nat, c: nat | FirstUndo(log, j, c) ensures Undone(log) <= Reversed(Pushed(log)) ==> Pushed(log[..j]) == Pushed(log) {
      FirstUndoLater(log, j, c);
      FirstUndoneIsTop(log, j, c);
      PushedGrows(log, j);
      SameTop(Pushed(log[..j]), Pushed(log), Undone(log));
    }
    if Undone(log) != [] {
      var j, c := FirstUndoExists(log);
      FirstUndoLater(log, j, c);
      if Pushed(log[..j]) == Pushed(log) {
        UnwindsSince(log, j);
        UnwindsPrefix(Pushed(log), Undone(log), OpenTask(log));
      }
    }
  }

  lemma FirstUndoLater(log: seq<Event>, j: nat, c: nat)
    requires LegalLog(log) && FirstUndo(log, j, c)
    ensures 0 < j < |log| && log[j].payload.CompensationTaskStarted? && Undone(log[..j]) == []
  {
    hide Legal, StateOf;
    StartsFirst(log);
    UndoneGrows(log[..c], j);
    assert log[..c][..j] == log[..j];
  }

  lemma UnwindsPrefix(pushed: seq<string>, undone: seq<string>, task: Option<Task>)
    requires Unwinds(pushed, undone, task)
    ensures undone <= Reversed(pushed)
  {
  }

  /** At the end of compensation: the order of undoing is the exact reverse of the
      order of completion under the same condition, and only then. */
  lemma CompensatedInReverseIff(log: seq<Event>, i: nat)
    requires LegalLog(log) && 0 < i < |log| && log[i].payload.CompensationCompleted?
    ensures var done := log[..i];
      Undone(done) == Reversed(Pushed(done)) <==> forall j: nat, c: nat | FirstUndo(done, j, c) :: Pushed(done[..j]) == Pushed(done)
  {
    hide Legal, Step, StateOf, Pushed, Undone, FirstUndo;
    LegalAt(log, i);
    UndoneInReverseIff(log[..i]);
    CompletedMeansUndone(log, i);
    if Undone(log[..i]) <= Reversed(Pushed(log[..i])) { WholeReverse(Pushed(log[..i]), Undone(log[..i])); }
  }

  lemma LegalSecond(log: seq<Event>)
    requires LegalLog(log) && exists i :: 0 <= i < |log| && log[i].payload.CompensationTaskStarted?
    ensures |log| > 1 && LegalLog(Front(log))
  {
    hide Legal, StateOf;
  }

  lemma NothingUnwinds(pushed: seq<string>)
    ensures Unwinds(pushed, [], None)
  {
  }

  lemma UnwindsOpens(pushed: seq<string>, undone: seq<string>, task: Option<Task>, k: nat, w: string, a: uint32)
    requires Unwinds(pushed, undone, task) && LatestOpen(pushed, undone, k) && Distinct(pushed)
    ensures Unwinds(pushed, undone, Some(Task(pushed[k], w, a)))
  {
    UnwindsStart(pushed, undone, k);
  }

  lemma UnwindsDone(pushed: seq<string>, undone: seq<string>, task: Task)
    requires Unwinds(pushed, undone, Some(task))
    ensures Unwinds(pushed, undone + [task.node], None)
  {
  }

  lemma UnwindsDrops(pushed: seq<string>, undone: seq<string>, task: Option<Task>)
    requires Unwinds(pushed, undone, task)
    ensures Unwinds(pushed, undone, None)
  {
  }

  lemma CompensatedInReverse(log: seq<Event>, i: nat)
    requires LegalLog(log) && 0 < i < |log| && log[i].payload.CompensationCompleted? && StackFinal(log[..i])
    ensures Undone(log[..i]) == Reversed(Pushed(log[..i]))
  {
    hide Legal, Step, StateOf, Pushed, Undone, OpenTask;
    LegalAt(log, i);
    UndoneInReverse(log[..i]);
    CompletedMeansUndone(log, i);
    WholeReverse(Pushed(log[..i]), Undone(log[..i]));
  }

  lemma WholeReverse(pushed: seq<string>, undone: seq<string>)
    requires undone <= Reversed(pushed) && Distinct(pushed) && forall x | x in pushed :: x in undone
    ensures undone == Reversed(pushed)
  {
    ReversedTopDown(pushed, undone);
    if pushed != [] { UndoneAt(pushed, undone, 0); }
  }
}
