/** The event-sourced state of one run (internal/state/state.go): the value-level
    meaning of Apply and replay, and the class that computes it in place. */
module State {
  import opened Runtime

  // A node keeps its definition; the remaining fields are what events change.
  // `heartbeat` is None where the source stores the zero time.
  datatype Node = Node(def: NodeDef, state: NodeState, attempt: uint32, worker: string, heartbeat: Option<Time>)

  datatype Timer = Timer(id: string, node: string, attempt: uint32, purpose: TimerPurpose, fireAt: Time, fired: bool)

  datatype CompensationEntry = CompensationEntry(node: string, activity: string, completed: bool, attempt: uint32)

  datatype ActiveCompensation = ActiveCompensation(node: string, worker: string, attempt: uint32, heartbeat: Time)

  type Nodes = map<string, Node>

  datatype RunData = RunData(
    runId: string,
    runState: RunState,
    cancelRequested: bool,
    stack: seq<CompensationEntry>,
    active: Option<ActiveCompensation>,
    finishedAt: Option<Time>,
    lastSeq: nat,
    nodes: Nodes,
    timers: map<string, Timer>)
  {
    predicate Terminal() {
      runState.RunCompleted? || runState.RunFailed? || runState.RunCancelled? || runState.RunCompensated?
    }
  }

  const EMPTY_RUN: RunData := RunData("", RunRunning, false, [], None, None, 0, map[], map[])

  function NewNode(def: NodeDef): Node {
    Node(def, Pending, 0, "", None)
  }

  function InsertDefs(nodes: Nodes, defs: seq<NodeDef>): Nodes
    decreases |defs|
  {
    if defs == [] then nodes else InsertDefs(nodes[defs[0].id := NewNode(defs[0])], defs[1..])
  }

  predicate DepsCompleted(nodes: Nodes, deps: seq<string>) {
    forall d | d in deps :: d in nodes && nodes[d].state.Completed?
  }

  function MarkNode(nodes: Nodes, n: Node): Node {
    if n.state.Pending? && DepsCompleted(nodes, n.def.dependsOn) then n.(state := Ready) else n
  }

  function MarkReady(nodes: Nodes): Nodes {
    map n | n in nodes :: MarkNode(nodes, nodes[n])
  }

  // The first stack entry of a node; |stack| when there is none.
  function FirstEntry(stack: seq<CompensationEntry>, n: string): (i: nat)
    ensures i <= |stack|
    ensures i < |stack| ==> stack[i].node == n
    ensures forall j | 0 <= j < i :: stack[j].node != n
  {
    if stack == [] || stack[0].node == n then 0 else 1 + FirstEntry(stack[1..], n)
  }

  // `ok` is false where Apply returns an error.
  datatype Applied = Applied(state: RunData, ok: bool)

  function SetNode(s: RunData, n: string, node: Node): RunData {
    s.(nodes := s.nodes[n := node])
  }

  function Accept(s: RunData, e: Event): Applied {
    Applied(s.(lastSeq := e.seqNo), true)
  }

  function Reject(s: RunData): Applied {
    Applied(s, false)
  }

  predicate ActiveIs(s: RunData, n: string, w: string, a: uint32) {
    s.active.Some? && s.active.value.node == n && s.active.value.worker == w && s.active.value.attempt == a
  }

  function TouchActive(s: RunData, t: Time): RunData
    requires s.active.Some?
  {
    s.(active := Some(s.active.value.(heartbeat := t)))
  }

  function ApplyHeartbeat(s: RunData, e: Event, n: string, w: string, a: uint32): Applied {
    if n !in s.nodes then
      if ActiveIs(s, n, w, a) then Accept(TouchActive(s, e.timestamp), e) else Reject(s)
    else
      var node := s.nodes[n];
      var s1 := if node.attempt == a && node.worker == w then SetNode(s, n, node.(heartbeat := Some(e.timestamp))) else s;
      Accept(if ActiveIs(s, n, w, a) then TouchActive(s1, e.timestamp) else s1, e)
  }

  function ApplyCompensationStart(s: RunData, e: Event, n: string, w: string, a: uint32): RunData {
    var i := FirstEntry(s.stack, n);
    if i == |s.stack| then s
    else s.(stack := s.stack[i := s.stack[i].(attempt := a)],
            active := Some(ActiveCompensation(n, w, a, e.timestamp)))
  }

  function MarkEntryCompleted(stack: seq<CompensationEntry>, n: string): seq<CompensationEntry> {
    var i := FirstEntry(stack, n);
    if i == |stack| then stack else stack[i := stack[i].(completed := true)]
  }

  function ApplyTimerFired(s: RunData, e: Event, id: string, n: string, a: uint32, p: TimerPurpose): Applied {
    if id !in s.timers then Reject(s)
    else
      var s1 := s.(timers := s.timers[id := s.timers[id].(fired := true)]);
      if !p.RetryBackoff? then Accept(s1, e)
      else if n !in s.nodes then Reject(s1)
      else if s.nodes[n].attempt == a && s.nodes[n].state.Failed? then
        Accept(SetNode(s1, n, s.nodes[n].(state := Ready, worker := "", heartbeat := None)), e)
      else Accept(s1, e)
  }

  function ApplyCompleted(s: RunData, e: Event, n: string, w: string, a: uint32, spawned: seq<NodeDef>): Applied {
    if n !in s.nodes then Reject(s)
    else
      var node := s.nodes[n].(state := Completed, worker := w, attempt := a, heartbeat := None);
      var stack := if node.def.compensation == "" then s.stack
                   else s.stack + [CompensationEntry(node.def.id, node.def.compensation, false, 0)];
      Accept(s.(stack := stack, nodes := MarkReady(InsertDefs(s.nodes[n := node], spawned))), e)
  }

  function Finish(s: RunData, e: Event, outcome: RunState): RunData {
    s.(runState := outcome, finishedAt := Some(e.timestamp))
  }

  function ApplyEvent(s: RunData, e: Event): Applied {
    match e.payload
    case WorkflowStarted(def) =>
      Accept(s.(runId := e.runId, runState := RunRunning, nodes := MarkReady(InsertDefs(s.nodes, def.nodes))), e)
    case LeaseGranted(n, w, a) =>
      if n !in s.nodes then Reject(s)
      else Accept(SetNode(s, n, s.nodes[n].(attempt := a, worker := w, heartbeat := Some(e.timestamp))), e)
    case HeartbeatRecorded(n, w, a) => ApplyHeartbeat(s, e, n, w, a)
    case LeaseExpired(n, _, a) =>
      if n !in s.nodes || s.nodes[n].attempt != a then Reject(s)
      else Accept(SetNode(s, n, s.nodes[n].(state := Ready, worker := "", heartbeat := None)), e)
    case CancellationRequested => Accept(s.(cancelRequested := true), e)
    case CancellationCompleted => Accept(Finish(s, e, RunCancelled), e)
    case CompensationStarted => Accept(s.(runState := RunCompensating), e)
    case CompensationTaskStarted(n, w, a) => Accept(ApplyCompensationStart(s, e, n, w, a), e)
    case CompensationTaskCompleted(n, _, _) =>
      Accept(s.(stack := MarkEntryCompleted(s.stack, n), active := None), e)
    case CompensationTaskExpired(_, _, _) => Accept(s.(active := None), e)
    case CompensationTaskFailed(_, _, _) => Accept(s.(active := None), e)
    case CompensationCompleted => Accept(Finish(s, e, RunCompensated).(active := None), e)
    case TimerScheduled(id, n, a, p, fireAt) =>
      Accept(s.(timers := s.timers[id := Timer(id, n, a, p, fireAt, false)]), e)
    case TimerFired(id, n, a, p) => ApplyTimerFired(s, e, id, n, a, p)
    case CheckpointReached(n, _, _) =>
      if n !in s.nodes then Reject(s)
      else Accept(SetNode(s, n, s.nodes[n].(state := AwaitingApproval, worker := "", heartbeat := None)), e)
    case CheckpointApproved(n) =>
      if n !in s.nodes then Reject(s)
      else if s.nodes[n].state.AwaitingApproval? then
        Accept(SetNode(s, n, s.nodes[n].(state := Ready, worker := "", heartbeat := None)), e)
      else Accept(s, e)
    case NodeReady(n) =>
      if n !in s.nodes then Reject(s)
      else if s.nodes[n].state.Pending? then Accept(SetNode(s, n, s.nodes[n].(state := Ready)), e)
      else Accept(s, e)
    case NodeStarted(n, w, a) =>
      if n !in s.nodes then Reject(s)
      else Accept(SetNode(s, n, s.nodes[n].(attempt := a, worker := w, heartbeat := Some(e.timestamp), state := Running)), e)
    case NodeCancelled(n, _, _) =>
      if n !in s.nodes then Reject(s)
      else Accept(SetNode(s, n, s.nodes[n].(state := Cancelled, worker := "", heartbeat := None)), e)
    case NodeCompleted(n, w, a, spawned) => ApplyCompleted(s, e, n, w, a, spawned)
    case NodeFailed(n, w, a, _, _) =>
      if n !in s.nodes then Reject(s)
      else Accept(SetNode(s, n, s.nodes[n].(state := Failed, worker := w, attempt := a, heartbeat := None)), e)
    case WorkflowFailed => Accept(Finish(s, e, RunFailed), e)
    case WorkflowCompleted => Accept(Finish(s, e, RunCompleted), e)
  }

  function Step(s: RunData, e: Event): RunData {
    ApplyEvent(s, e).state
  }

  function Replay(s: RunData, events: seq<Event>): RunData
    decreases |events|
  {
    if events == [] then s else Replay(Step(s, events[0]), events[1..])
  }

  predicate Replays(s: RunData, events: seq<Event>)
    decreases |events|
  {
    events == [] || (ApplyEvent(s, events[0]).ok && Replays(Step(s, events[0]), events[1..]))
  }

  lemma {:induction false} ReplayConcat(s: RunData, a: seq<Event>, b: seq<Event>)
    ensures Replay(s, a + b) == Replay(Replay(s, a), b)
    ensures Replays(s, a + b) <==> Replays(s, a) && Replays(Replay(s, a), b)
    decreases |a|
  {
    if a == [] {
      assert a + b == b;
    } else {
      assert (a + b)[1..] == a[1..] + b;
      ReplayConcat(Step(s, a[0]), a[1..], b);
    }
  }

  predicate HasId(defs: seq<NodeDef>, n: string) {
    exists i :: 0 <= i < |defs| && defs[i].id == n
  }

  lemma HasIdTail(defs: seq<NodeDef>, n: string)
    requires defs != []
    ensures HasId(defs, n) <==> defs[0].id == n || HasId(defs[1..], n)
  {
    if HasId(defs, n) && defs[0].id != n {
      var i :| 0 <= i < |defs| && defs[i].id == n;
      assert defs[1..][i - 1].id == n;
    }
    if HasId(defs[1..], n) {
      var i :| 0 <= i < |defs[1..]| && defs[1..][i].id == n;
      assert defs[i + 1].id == n;
    }
  }

  lemma {:induction false} InsertedDefs(nodes: Nodes, defs: seq<NodeDef>)
    requires forall i, j | 0 <= i < j < |defs| :: defs[i].id != defs[j].id
    ensures forall i | 0 <= i < |defs| :: defs[i].id in InsertDefs(nodes, defs) && InsertDefs(nodes, defs)[defs[i].id] == NewNode(defs[i])
    ensures forall n :: n in InsertDefs(nodes, defs) <==> n in nodes || HasId(defs, n)
    ensures forall n | n in nodes && !HasId(defs, n) :: InsertDefs(nodes, defs)[n] == nodes[n]
    decreases |defs|
  {
    if defs != [] {
      var rest := nodes[defs[0].id := NewNode(defs[0])];
      InsertedDefs(rest, defs[1..]);
      forall n { HasIdTail(defs, n); }
      assert !HasId(defs[1..], defs[0].id);
      forall i | 0 <= i < |defs|
        ensures defs[i].id in InsertDefs(nodes, defs) && InsertDefs(nodes, defs)[defs[i].id] == NewNode(defs[i])
      {
        if i > 0 { assert defs[i] == defs[1..][i - 1]; }
      }
    }
  }

  predicate ChangesOneNode(e: Event) {
    var p := e.payload;
    p.LeaseGranted? || p.LeaseExpired? || p.CheckpointReached? || p.CheckpointApproved? ||
    p.NodeReady? || p.NodeStarted? || p.NodeCancelled? || p.NodeFailed?
  }

  predicate ChangesManyFields(e: Event) {
    var p := e.payload;
    p.WorkflowStarted? || p.HeartbeatRecorded? || p.TimerFired? || p.NodeCompleted?
  }

  lemma OneNodeShape(s: RunData, e: Event)
    requires ChangesOneNode(e)
    ensures ApplyEvent(s, e).ok ==> Step(s, e) == s.(nodes := Step(s, e).nodes, lastSeq := e.seqNo)
    ensures !ApplyEvent(s, e).ok ==> Step(s, e) == s
  {
  }

  class ExecutionState {
    var runId: string
    var runState: RunState
    var cancelRequested: bool
    var stack: seq<CompensationEntry>
    var active: Option<ActiveCompensation>
    var finishedAt: Option<Time>
    var lastSeq: nat
    var nodes: Nodes
    var timers: map<string, Timer>

    function Value(): RunData
      reads this
    {
      RunData(runId, runState, cancelRequested, stack, active, finishedAt, lastSeq, nodes, timers)
    }

    predicate IsTerminal()
      reads this
    {
      Value().Terminal()
    }

    constructor ()
      ensures Value() == EMPTY_RUN
    {
      runId, runState, cancelRequested, stack := "", RunRunning, false, [];
      active, finishedAt, lastSeq, nodes, timers := None, None, 0, map[], map[];
    }

    // A decoded snapshot.
    constructor FromSnapshot(s: RunData)
      ensures Value() == s
    {
      runId, runState, cancelRequested, stack := s.runId, s.runState, s.cancelRequested, s.stack;
      active, finishedAt, lastSeq, nodes, timers := s.active, s.finishedAt, s.lastSeq, s.nodes, s.timers;
    }

    method Apply(e: Event) returns (ok: bool)
      modifies this
      ensures Value() == Step(old(Value()), e)
      ensures ok == ApplyEvent(old(Value()), e).ok
    {
      hide MarkReady, InsertDefs, FirstEntry, MarkEntryCompleted, ApplyCompensationStart;
      ok := true;
      var p := e.payload;
      if p.WorkflowStarted? {
        runId, runState := e.runId, RunRunning;
        InsertNodes(p.def.nodes);
        MarkReadyNodes();
      } else if p.HeartbeatRecorded? {
        ok := RecordHeartbeat(e, p.node, p.worker, p.attempt);
      } else if p.TimerFired? {
        ok := RecordFiring(e, p.timer, p.node, p.attempt, p.purpose);
      } else if p.NodeCompleted? {
        ok := RecordCompletion(e, p.node, p.worker, p.attempt, p.spawned);
      } else if ChangesOneNode(e) {
        OneNodeShape(Value(), e);
        ok := ApplyToNode(e);
      } else {
        ApplyToRun(e);
      }
      if ok {
        lastSeq := e.seqNo;
      }
    }

    method RecordHeartbeat(e: Event, n: string, w: string, a: uint32) returns (ok: bool)
      modifies this`nodes, this`active
      ensures ok == ApplyHeartbeat(old(Value()), e, n, w, a).ok
      ensures Value() == ApplyHeartbeat(old(Value()), e, n, w, a).state.(lastSeq := lastSeq)
    {
      if n !in nodes {
        if active.Some? && active.value.node == n && active.value.attempt == a && active.value.worker == w {
          active := Some(active.value.(heartbeat := e.timestamp));
        } else {
          return false;
        }
      } else {
        if nodes[n].attempt == a && nodes[n].worker == w {
          nodes := nodes[n := nodes[n].(heartbeat := Some(e.timestamp))];
        }
        if active.Some? && active.value.node == n && active.value.attempt == a && active.value.worker == w {
          active := Some(active.value.(heartbeat := e.timestamp));
        }
      }
      return true;
    }

    method RecordFiring(e: Event, id: string, n: string, a: uint32, p: TimerPurpose) returns (ok: bool)
      modifies this`nodes, this`timers
      ensures ok == ApplyTimerFired(old(Value()), e, id, n, a, p).ok
      ensures Value() == ApplyTimerFired(old(Value()), e, id, n, a, p).state.(lastSeq := lastSeq)
    {
      if id !in timers { return false; }
      timers := timers[id := timers[id].(fired := true)];
      if p.RetryBackoff? {
        if n !in nodes { return false; }
        if nodes[n].attempt == a && nodes[n].state.Failed? {
          nodes := nodes[n := nodes[n].(state := Ready, worker := "", heartbeat := None)];
        }
      }
      return true;
    }

    method RecordCompletion(e: Event, n: string, w: string, a: uint32, spawned: seq<NodeDef>) returns (ok: bool)
      modifies this`nodes, this`stack
      ensures ok == ApplyCompleted(old(Value()), e, n, w, a, spawned).ok
      ensures Value() == ApplyCompleted(old(Value()), e, n, w, a, spawned).state.(lastSeq := lastSeq)
    {
      if n !in nodes { return false; }
      nodes := nodes[n := nodes[n].(state := Completed, worker := w, attempt := a, heartbeat := None)];
      var def := nodes[n].def;
      if def.compensation != "" {
        stack := stack + [CompensationEntry(def.id, def.compensation, false, 0)];
      }
      InsertNodes(spawned);
      MarkReadyNodes();
      return true;
    }

    // The cases of Apply that look up one node and update it.
    method ApplyToNode(e: Event) returns (ok: bool)
      requires ChangesOneNode(e)
      modifies this`nodes
      ensures ok == ApplyEvent(old(Value()), e).ok
      ensures nodes == Step(old(Value()), e).nodes
    {
      var n := e.payload.node;
      if n !in nodes { return false; }
      match e.payload {
        case LeaseGranted(_, w, a) =>
          nodes := nodes[n := nodes[n].(attempt := a, worker := w, heartbeat := Some(e.timestamp))];
        case LeaseExpired(_, _, a) =>
          if nodes[n].attempt != a { return false; }
          nodes := nodes[n := nodes[n].(state := Ready, worker := "", heartbeat := None)];
        case CheckpointReached(_, _, _) =>
          nodes := nodes[n := nodes[n].(state := AwaitingApproval, worker := "", heartbeat := None)];
        case CheckpointApproved(_) =>
          if nodes[n].state.AwaitingApproval? {
            nodes := nodes[n := nodes[n].(state := Ready, worker := "", heartbeat := None)];
          }
        case NodeReady(_) =>
          if nodes[n].state.Pending? {
            nodes := nodes[n := nodes[n].(state := Ready)];
          }
        case NodeStarted(_, w, a) =>
          nodes := nodes[n := nodes[n].(attempt := a, worker := w, heartbeat := Some(e.timestamp), state := Running)];
        case NodeCancelled(_, _, _) =>
          nodes := nodes[n := nodes[n].(state := Cancelled, worker := "", heartbeat := None)];
        case NodeFailed(_, w, a, _, _) =>
          nodes := nodes[n := nodes[n].(state := Failed, worker := w, attempt := a, heartbeat := None)];
      }
      return true;
    }

    // The cases of Apply that touch no node and cannot fail.
    method ApplyToRun(e: Event)
      requires !ChangesOneNode(e) && !ChangesManyFields(e)
      modifies this
      ensures Value() == Step(old(Value()), e).(lastSeq := old(lastSeq))
    {
      match e.payload {
        case CancellationRequested =>
          cancelRequested := true;
        case CancellationCompleted =>
          runState, finishedAt := RunCancelled, Some(e.timestamp);
        case CompensationStarted =>
          runState := RunCompensating;
        case CompensationTaskStarted(n, w, a) =>
          var i := FindEntry(n);
          if i < |stack| {
            stack := stack[i := stack[i].(attempt := a)];
            active := Some(ActiveCompensation(n, w, a, e.timestamp));
          }
        case CompensationTaskCompleted(n, _, _) =>
          var i := FindEntry(n);
          if i < |stack| {
            stack := stack[i := stack[i].(completed := true)];
          }
          active := None;
        case CompensationTaskExpired(_, _, _) =>
          active := None;
        case CompensationTaskFailed(_, _, _) =>
          active := None;
        case CompensationCompleted =>
          runState, active, finishedAt := RunCompensated, None, Some(e.timestamp);
        case TimerScheduled(id, n, a, p, fireAt) =>
          timers := timers[id := Timer(id, n, a, p, fireAt, false)];
        case WorkflowFailed =>
          runState, finishedAt := RunFailed, Some(e.timestamp);
        case WorkflowCompleted =>
          runState, finishedAt := RunCompleted, Some(e.timestamp);
      }
    }

    method InsertNodes(defs: seq<NodeDef>)
      modifies this`nodes
      ensures nodes == InsertDefs(old(nodes), defs)
    {
      for i := 0 to |defs|
        invariant InsertDefs(nodes, defs[i..]) == InsertDefs(old(nodes), defs)
      {
        assert defs[i..][1..] == defs[i + 1..];
        nodes := nodes[defs[i].id := NewNode(defs[i])];
      }
    }

    method FindEntry(n: string) returns (i: nat)
      ensures i == FirstEntry(stack, n)
    {
      i := 0;
      while i < |stack|
        invariant i <= |stack| && forall j | 0 <= j < i :: stack[j].node != n
      {
        if stack[i].node == n { return; }
        i := i + 1;
      }
    }

    // The nodes are visited in an arbitrary order and promoted in place.
    method MarkReadyNodes()
      modifies this`nodes
      ensures nodes == MarkReady(old(nodes))
    {
      var rest := nodes.Keys;
      ghost var before := nodes;
      while rest != {}
        invariant rest <= before.Keys == nodes.Keys
        invariant forall n | n in rest :: nodes[n] == before[n]
        invariant forall n | n in before && n !in rest :: nodes[n] == MarkNode(before, before[n])
        decreases |rest|
      {
        var n :| n in rest;
        var node := nodes[n];
        if node.state.Pending? {
          assert forall m | m in nodes :: nodes[m].state.Completed? <==> before[m].state.Completed?;
          var done := DependenciesCompleted(node.def.dependsOn);
          if done {
            nodes := nodes[n := node.(state := Ready)];
          }
        }
        rest := rest - {n};
      }
    }

    method DependenciesCompleted(deps: seq<string>) returns (done: bool)
      ensures done == DepsCompleted(nodes, deps)
    {
      for i := 0 to |deps|
        invariant DepsCompleted(nodes, deps[..i])
      {
        if deps[i] !in nodes || !nodes[deps[i]].state.Completed? {
          return false;
        }
      }
      return true;
    }
  }

  // Rehydrate: a fresh state, one Apply per persisted event, the first error aborts.
  method Rehydrate(events: seq<Event>) returns (st: ExecutionState, ok: bool)
    ensures fresh(st)
    ensures ok <==> Replays(EMPTY_RUN, events)
    ensures ok ==> st.Value() == Replay(EMPTY_RUN, events)
  {
    st := new ExecutionState();
    for i := 0 to |events|
      invariant fresh(st)
      invariant Replay(EMPTY_RUN, events) == Replay(st.Value(), events[i..])
      invariant Replays(EMPTY_RUN, events) <==> Replays(st.Value(), events[i..])
    {
      assert events[i..][1..] == events[i + 1..];
      ok := st.Apply(events[i]);
      if !ok {
        return st, false;
      }
    }
    return st, true;
  }
}
