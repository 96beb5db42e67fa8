/** A run whose work is undone in the order in which it was done: a compensable node
    that was still RUNNING when compensation started completes after the first
    compensation task was handed out. */
module LateCompletion {
  import opened Runtime
  import opened State
  import opened Strings
  import opened Workflowdef
  import opened EngineSpec
  import opened Guards
  import opened Invariant
  import opened Logs
  import opened Operations
  import opened Runs
  import opened Scenarios
  import opened Compensation

  const A := NodeDef("a", "do a", [], None, "undo", 0, 0, 0)
  const B := NodeDef("b", "do b", [], None, "undo", 0, 0, 0)
  const C := NodeDef("c", "do c", [], None, "", 0, 0, 0)
  const START := Event(1, "r", 0, WorkflowStarted(WorkflowDef("w", [A, B, C])))

  function Three(a: Node, b: Node, c: Node): Nodes {
    map["a" := a, "b" := b, "c" := c]
  }

  function Able(activity: string): Registry {
    map["k" := [activity]]
  }

  lemma Inserted()
    ensures InsertDefs(map[], [A, B, C]) == Three(NewNode(A), NewNode(B), NewNode(C))
  {
    var rest: Nodes := map["a" := NewNode(A)];
    assert [A, B, C][1..] == [B, C] && [B, C][1..] == [C] && [C][1..] == [];
    assert InsertDefs(map[], [A, B, C]) == InsertDefs(rest, [B, C]) == InsertDefs(rest["b" := NewNode(B)], [C]);
    assert InsertDefs(rest["b" := NewNode(B)], [C]) == InsertDefs(rest["b" := NewNode(B)]["c" := NewNode(C)], []);
  }

  lemma AllReady()
    ensures MarkReady(Three(NewNode(A), NewNode(B), NewNode(C))) == Three(Idle(A), Idle(B), Idle(C))
  {
  }

  lemma Start()
    ensures StartsRun(START)
    ensures StateOf([START]) == EMPTY_RUN.(runId := "r", lastSeq := 1, nodes := Three(Idle(A), Idle(B), Idle(C)))
  {
    StateOfAppend([], START);
    assert [] + [START] == [START];
    hide StateOf, Step;
    StartInv(START);
    Inserted();
    AllReady();
  }

  // ---- One step each ----

  // The state after node n, still held, completed with nothing waiting on it.
  function Completion(s: RunData, n: string): RunData
    requires n in s.nodes
  {
    s.(nodes := s.nodes[n := s.nodes[n].(state := Completed, heartbeat := None)],
       stack := s.stack + [CompensationEntry(n, "undo", false, 0)], lastSeq := s.lastSeq + 1)
  }

  lemma Completes(s: RunData, n: string)
    requires Holds(s, n, "k", 1) && !s.cancelRequested && s.nodes[n].def.id == n && s.nodes[n].def.compensation == "undo"
    requires forall m | m in s.nodes :: !s.nodes[m].state.Pending?
    requires AdvancePayload(Completion(s, n)).None?
    ensures Replay(s, CompleteTask(s, CompleteRequest("k", n, 1, false, false, []), At(0)).events) == Completion(s, n)
  {
    var e := Emit(s, At(0), NodeCompleted(n, "k", 1, []));
    assert NormalForms([]) == [];
    NothingPromoted(s.nodes[n := s.nodes[n].(state := Completed, heartbeat := None)]);
    assert Step(s, e) == Completion(s, n);
    hide Step, AdvancePayload, MarkReady;
    OneStep(s, e);
    assert [e] + [] == [e];
  }

  lemma NothingPromoted(nodes: Nodes)
    requires forall m | m in nodes :: !nodes[m].state.Pending?
    ensures MarkReady(nodes) == nodes
  {
  }

  function Unwinding(s: RunData, n: string): RunData
    requires n in s.nodes
  {
    s.(nodes := s.nodes[n := s.nodes[n].(state := Failed, heartbeat := None)], runState := RunCompensating, lastSeq := s.lastSeq + 2)
  }

  lemma Fails(s: RunData, n: string)
    requires Holds(s, n, "k", 1) && Forward(s) && s.timers == map[] && HasCompensationWork(s)
    ensures Replay(s, FailTask(s, FailRequest("k", n, 1, false, false, false), 0, At(0)).events) == Unwinding(s, n)
  {
    var e := Emit(s, At(0), NodeFailed(n, "k", 1, false, false));
    var t := Step(s, e);
    assert t == s.(nodes := s.nodes[n := s.nodes[n].(state := Failed, heartbeat := None)], lastSeq := s.lastSeq + 1);
    assert UnrecoveredFailure(t, n);
    var f := Emit(t, At(0), CompensationStarted);
    assert Step(t, f) == Unwinding(s, n);
    hide Step;
    assert [e] + [] == [e];
    OneStep(s, e);
    assert HasCompensationWork(t) && Advance(t, At(0)) == [f];
    assert [e] + [f] == [e, f];
    TwoSteps(s, e, f);
  }

  function Undoing(s: RunData, i: nat): RunData
    requires i < |s.stack| && s.stack[i].attempt == 0
  {
    s.(stack := s.stack[i := s.stack[i].(attempt := 1)], active := Some(ActiveCompensation(s.stack[i].node, "k", 1, 0)), lastSeq := s.lastSeq + 1)
  }

  lemma StartsUndo(s: RunData, i: nat)
    requires s.runState.RunCompensating? && !s.cancelRequested && NextEntry(s) == Some(i)
    requires s.stack[i].attempt == 0 && s.stack[i].activity == "undo" && FirstEntry(s.stack, s.stack[i].node) == i
    ensures Replay(s, Claim(s, WORKER, "k", At(0))) == Undoing(s, i)
  {
    var e := Emit(s, At(0), CompensationTaskStarted(s.stack[i].node, "k", 1));
    assert "undo" in WORKER["k"];
    assert Claim(s, WORKER, "k", At(0)) == [e];
    assert Step(s, e) == Undoing(s, i);
    hide Step, Claim;
    OneStep(s, e);
  }

  function Undid(s: RunData, i: nat): RunData
    requires i < |s.stack|
  {
    s.(stack := s.stack[i := s.stack[i].(completed := true)], active := None, lastSeq := s.lastSeq + 1)
  }

  lemma CompletesUndo(s: RunData, i: nat)
    requires s.runState.RunCompensating? && !s.cancelRequested && i < |s.stack| && FirstEntry(s.stack, s.stack[i].node) == i
    requires ActiveIs(s, s.stack[i].node, "k", 1)
    ensures var t := Replay(s, CompleteTask(s, CompleteRequest("k", s.stack[i].node, 1, true, false, []), At(0)).events);
      if NextEntry(Undid(s, i)).Some? then t == Undid(s, i)
      else t == Undid(s, i).(runState := RunCompensated, finishedAt := Some(0), lastSeq := s.lastSeq + 2)
  {
    var e := Emit(s, At(0), CompensationTaskCompleted(s.stack[i].node, "k", 1));
    UndoneStep(s, e, i);
    var t := Undid(s, i);
    var f := Emit(t, At(0), CompensationCompleted);
    EndsUnwinding(t, f);
    hide Step, NextEntry, Advance, ThenAdvance;
    ReplayReport(s, At(0), e);
    OneStep(t, f);
  }

  lemma UndoneStep(s: RunData, e: Event, i: nat)
    requires i < |s.stack| && FirstEntry(s.stack, s.stack[i].node) == i
    requires e.payload == CompensationTaskCompleted(s.stack[i].node, "k", 1) && e.seqNo == s.lastSeq + 1
    ensures Step(s, e) == Undid(s, i)
  {
  }

  lemma EndsUnwinding(s: RunData, e: Event)
    requires s.runState.RunCompensating? && !s.cancelRequested && s.active.None? && e == Emit(s, At(0), CompensationCompleted)
    ensures Step(s, e) == s.(runState := RunCompensated, finishedAt := Some(0), lastSeq := s.lastSeq + 1)
    ensures Advance(s, At(0)) == if NextEntry(s).Some? then [] else [e]
  {
    hide NextEntry;
  }

  // ---- The history ----

  function Entry(n: string, done: bool, attempt: uint32): CompensationEntry {
    CompensationEntry(n, "undo", done, attempt)
  }

  lemma Claims(y: Sys, n: string, activity: string) returns (z: Sys)
    requires Reachable(y) && y.up
    requires var s := StateOf(y.log); Forward(s) && n in s.nodes && s.nodes[n] == Idle(s.nodes[n].def)
    requires var def := StateOf(y.log).nodes[n].def; def.activity == activity && def.executionDeadline == 0 && def.absoluteDeadline == 0
    requires var s := StateOf(y.log); forall m | m in s.nodes && m != n :: s.nodes[m].def.activity != activity
    ensures Reachable(z) && z.up
    ensures var s := StateOf(y.log); StateOf(z.log) == s.(nodes := s.nodes[n := Busy(s.nodes[n].def)], lastSeq := s.lastSeq + 2)
  {
    hide StateOf, Reachable, Replay, Claim, OpEvents;
    var s, op := StateOf(y.log), OpClaim(Able(activity), "k", At(0));
    ClaimOnly(s, Able(activity), n, 0);
    OpIsClaim(s, op);
    z := AfterOp(y, op);
  }

  lemma AllClaimed() returns (y: Sys)
    ensures Reachable(y) && y.up
    ensures StateOf(y.log) == EMPTY_RUN.(runId := "r", lastSeq := 7, nodes := Three(Busy(A), Busy(B), Busy(C)))
  {
    hide StateOf, Reachable;
    Start();
    y := Begun(START);
    y := Claims(y, "a", "do a");
    y := Claims(y, "b", "do b");
    y := Claims(y, "c", "do c");
  }

  lemma Reports(y: Sys, n: string, compensation: bool, t: RunData) returns (z: Sys)
    requires Reachable(y) && y.up
    requires t == Replay(StateOf(y.log), CompleteTask(StateOf(y.log), CompleteRequest("k", n, 1, compensation, false, []), At(0)).events)
    ensures Reachable(z) && z.up && StateOf(z.log) == t && y.log <= z.log
  {
    hide StateOf, Reachable, Replay, CompleteTask, OpEvents;
    var op := OpComplete(CompleteRequest("k", n, 1, compensation, false, []), At(0));
    OpIsComplete(StateOf(y.log), op);
    z := AfterOp(y, op);
  }

  lemma Undoes(y: Sys, i: nat) returns (z: Sys)
    requires Reachable(y) && y.up
    requires var s := StateOf(y.log);
      && s.runState.RunCompensating? && !s.cancelRequested && NextEntry(s) == Some(i) && i < |s.stack|
      && s.stack[i].attempt == 0 && s.stack[i].activity == "undo" && FirstEntry(s.stack, s.stack[i].node) == i
    ensures Reachable(z) && z.up && StateOf(z.log) == Undoing(StateOf(y.log), i) && y.log <= z.log
  {
    hide StateOf, Reachable, Replay, Claim, OpEvents, NextEntry;
    var op := OpClaim(WORKER, "k", At(0));
    StartsUndo(StateOf(y.log), i);
    OpIsClaim(StateOf(y.log), op);
    z := AfterOp(y, op);
  }

  // Node a has completed, c has failed, b is still held.
  lemma Unwound() returns (y: Sys)
    ensures Reachable(y) && y.up
    ensures StateOf(y.log) == EMPTY_RUN.(runId := "r", lastSeq := 10, runState := RunCompensating, stack := [Entry("a", false, 0)],
      nodes := Three(Over(A, Completed), Busy(B), Over(C, Failed)))
  {
    hide StateOf, Reachable, Replay, CompleteTask, FailTask, OpEvents;
    y := AllClaimed();
    var s := StateOf(y.log);
    var t := Completion(s, "a");
    NotDueYet(t);
    Completes(s, "a");
    y := Reports(y, "a", false, t);
    assert t.stack == [Entry("a", false, 0)] && !t.stack[0].completed;
    Fails(t, "c");
    var op := OpFail(FailRequest("k", "c", 1, false, false, false), 0, At(0));
    OpIsFail(t, op);
    y := AfterOp(y, op);
  }

  lemma NotDueYet(s: RunData)
    requires Forward(s) && s.nodes == Three(Over(A, Completed), Busy(B), Busy(C))
    ensures AdvancePayload(s).None?
  {
    assert "b" in s.nodes && !s.nodes["b"].state.Completed?;
    assert !AllNodesCompleted(s) && !HasUnrecoveredFailure(s);
  }

  // The task for a is handed out, b completes, the task for a completes.
  lemma FirstUndone() returns (y: Sys)
    ensures Reachable(y) && y.up
    ensures StateOf(y.log) == EMPTY_RUN.(runId := "r", lastSeq := 13, runState := RunCompensating,
      stack := [Entry("a", true, 1), Entry("b", false, 0)],
      nodes := Three(Over(A, Completed), Over(B, Completed), Over(C, Failed)))
  {
    hide StateOf, Reachable, Replay, CompleteTask;
    y := Unwound();
    assert NextEntry(StateOf(y.log)) == Some(0);
    y := Undoes(y, 0);
    var s := StateOf(y.log);
    Completes(s, "b");
    y := Reports(y, "b", false, Completion(s, "b"));
    var t := StateOf(y.log);
    assert t.stack == [Entry("a", false, 1), Entry("b", false, 0)];
    var u := Undid(t, 0);
    assert u.stack == [Entry("a", true, 1), Entry("b", false, 0)];
    assert NextEntry(u) == Some(1);
    CompletesUndo(t, 0);
    y := Reports(y, "a", true, u);
  }

  lemma BothUndone(y: Sys) returns (z: Sys)
    requires Reachable(y) && y.up
    requires StateOf(y.log) == EMPTY_RUN.(runId := "r", lastSeq := 13, runState := RunCompensating,
      stack := [Entry("a", true, 1), Entry("b", false, 0)],
      nodes := Three(Over(A, Completed), Over(B, Completed), Over(C, Failed)))
    ensures Reachable(z) && z.up && y.log <= z.log
    ensures StateOf(z.log).runState.RunCompensated? && StateOf(z.log).stack == [Entry("a", true, 1), Entry("b", true, 1)]
  {
    hide StateOf, Reachable, Replay, CompleteTask;
    assert NextEntry(StateOf(y.log)) == Some(1);
    z := Undoes(y, 1);
    var s := StateOf(z.log);
    assert s.stack == [Entry("a", true, 1), Entry("b", false, 1)];
    var t := Undid(s, 1);
    assert t.stack == [Entry("a", true, 1), Entry("b", true, 1)];
    assert NextEntry(t).None?;
    CompletesUndo(s, 1);
    z := Reports(z, "b", true, t.(runState := RunCompensated, finishedAt := Some(0), lastSeq := s.lastSeq + 2));
  }

  /** The condition for reverse order is needed: a reachable run ends COMPENSATED
      having undone a before b, in the order in which they completed. */
  lemma UndoneInOrder() returns (y: Sys)
    ensures Reachable(y) && y.up && StateOf(y.log).runState.RunCompensated?
    ensures Pushed(y.log) == ["a", "b"] && Undone(y.log) == ["a", "b"] && Undone(y.log) != Reversed(Pushed(y.log))
  {
    hide StateOf, Reachable, Pushed, Undone, Sound, Inv, Replay, Replays;
    var x := FirstUndone();
    y := BothUndone(x);
    ReachableSound(x);
    ReachableSound(y);
    SoundIsLegal(x);
    SoundIsLegal(y);
    StackIsHistory(x.log);
    StackIsHistory(y.log);
    assert x.log == y.log[..|x.log|];
    UndoneGrows(y.log, |x.log|);
    OnlyFirst(StateOf(x.log).stack, Pushed(x.log), Undone(x.log));
    FirstThenSecond(StateOf(y.log).stack, Pushed(y.log), Undone(y.log));
    assert Reversed(["a", "b"])[0] == "b";
  }

  lemma OnlyFirst(stack: seq<CompensationEntry>, pushed: seq<string>, undone: seq<string>)
    requires stack == [Entry("a", true, 1), Entry("b", false, 0)] && Mirrors(stack, pushed, undone)
    ensures undone == ["a"]
  {
    assert |undone| > 1 ==> undone[0] != undone[1];
    assert pushed == ["a", "b"];
    assert pushed[0] in undone && pushed[1] !in undone;
    forall i | 0 <= i < |undone| ensures undone[i] == "a" {
      assert undone[i] in undone && undone[i] in pushed;
    }
  }

  lemma FirstThenSecond(stack: seq<CompensationEntry>, pushed: seq<string>, undone: seq<string>)
    requires stack == [Entry("a", true, 1), Entry("b", true, 1)] && Mirrors(stack, pushed, undone)
    requires ["a"] <= undone
    ensures pushed == ["a", "b"] && undone == ["a", "b"]
  {
    assert |undone| > 2 ==> undone[1] != undone[2];
    assert pushed == ["a", "b"];
    assert pushed[1] in undone;
    assert forall i | 0 <= i < |undone| :: undone[i] in undone && undone[i] in pushed;
    assert undone[0] == "a" && forall i | 0 < i < |undone| :: undone[i] == "b";
  }
}
