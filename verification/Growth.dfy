/** Living-DAG growth: validation of spawned nodes, and what it keeps over whole
    histories (internal/engine/engine.go, normalizeSpawnedNodes). */
module Growth {
  import opened Runtime
  import opened State
  import opened Workflowdef
  import opened Graph
  import opened EngineSpec
  import opened Guards
  import opened Invariant
  import opened Logs
  import opened Operations

  // ---- Validation ----

  datatype SpawnError =
    | Malformed(error: DefError)
    | AlreadyExists(id: string)
    | DuplicateSpawn(id: string)
    | DependsOnItself(id: string)
    | DependsOnUnknown(id: string, dep: string)
    | WouldCycle

  datatype SpawnResult = Accepted(defs: seq<NodeDef>) | Rejected(error: SpawnError)

  lemma {:induction false} GrowAppend(g: Graph, defs: seq<NodeDef>, def: NodeDef)
    ensures GrowGraph(g, defs + [def]) == GrowGraph(g, defs)[def.id := def.dependsOn]
    decreases |defs|
  {
    if defs == [] {
      assert [] + [def] == [def] && [def][1..] == [];
    } else {
      assert (defs + [def])[1..] == defs[1..] + [def];
      GrowAppend(g[defs[0].id := defs[0].dependsOn], defs[1..], def);
    }
  }

  // Definitions are collected and normalized; ids must be fresh.
  method CollectSpawned(nodes: Nodes, spawned: seq<NodeDef>) returns (r: SpawnResult, ids: set<string>)
    ensures r.Accepted? <==> Named(spawned) && UniqueIds(spawned) && forall i | 0 <= i < |spawned| :: spawned[i].id !in nodes
    ensures r.Accepted? ==> r.defs == NormalForms(spawned) && ids == Ids(spawned) && KeepsAll(spawned, r.defs)
  {
    NormalFormsKeep(spawned);
    ids := {};
    var defs: seq<NodeDef> := [];
    for i := 0 to |spawned|
      invariant |defs| == i && defs == NormalForms(spawned[..i])
      invariant Named(spawned[..i]) && UniqueIds(spawned[..i]) && ids == Ids(spawned[..i])
      invariant forall j | 0 <= j < i :: spawned[j].id !in nodes
    {
      var def := NormalizeNode(spawned[i]);
      if def.Err? {
        return Rejected(Malformed(def.error)), ids;
      }
      if def.value.id in nodes {
        return Rejected(AlreadyExists(def.value.id)), ids;
      }
      if def.value.id in ids {
        return Rejected(DuplicateSpawn(def.value.id)), ids;
      }
      ids := ids + {def.value.id};
      defs := defs + [def.value];
      assert spawned[..i + 1] == spawned[..i] + [spawned[i]];
      IdsAppend(spawned[..i], spawned[i]);
    }
    assert spawned[..|spawned|] == spawned;
    return Accepted(defs), ids;
  }

  // Dependencies must exist; the grown graph is built on the way.
  method LinkSpawned(nodes: Nodes, defs: seq<NodeDef>, ids: set<string>) returns (error: Option<SpawnError>, graph: Graph)
    ensures error.None? <==> Closed(defs, nodes.Keys + ids)
    ensures error.None? ==> graph == GrowGraph(DepGraph(nodes), defs)
  {
    graph := map n | n in nodes :: nodes[n].def.dependsOn;
    for i := 0 to |defs|
      invariant Closed(defs[..i], nodes.Keys + ids)
      invariant graph == GrowGraph(DepGraph(nodes), defs[..i])
    {
      var id, deps := defs[i].id, defs[i].dependsOn;
      for j := 0 to |deps|
        invariant id !in deps[..j] && forall d | d in deps[..j] :: d in nodes.Keys + ids
      {
        assert deps[j] in defs[i].dependsOn;
        if deps[j] == id {
          return Some(DependsOnItself(id)), graph;
        }
        if deps[j] !in nodes && deps[j] !in ids {
          return Some(DependsOnUnknown(id, deps[j])), graph;
        }
      }
      assert deps[..|deps|] == deps;
      assert defs[..i + 1] == defs[..i] + [defs[i]];
      GrowAppend(DepGraph(nodes), defs[..i], defs[i]);
      graph := graph[id := deps];
    }
    assert defs[..|defs|] == defs;
    return None, graph;
  }

  /** Accepts exactly the spawns that keep the graph closed and acyclic. */
  method NormalizeSpawnedNodes(nodes: Nodes, spawned: seq<NodeDef>) returns (r: SpawnResult)
    ensures r.Accepted? <==> SpawnOk(nodes, spawned)
    ensures r.Accepted? ==> r.defs == NormalForms(spawned) && KeepsAll(spawned, r.defs)
  {
    if |spawned| == 0 {
      return Accepted([]);
    }
    var collected, ids := CollectSpawned(nodes, spawned);
    if collected.Rejected? {
      return collected;
    }
    var defs := collected.defs;
    forall i | 0 <= i < |defs| ensures defs[i].id == spawned[i].id && defs[i].dependsOn == spawned[i].dependsOn {}
    GrowNormalForms(DepGraph(nodes), spawned);
    var error, graph := LinkSpawned(nodes, defs, ids);
    assert Closed(defs, nodes.Keys + ids) <==> Closed(spawned, nodes.Keys + ids) by { ClosedNormalForms(spawned, nodes.Keys + ids); }
    if error.Some? {
      return Rejected(error.value);
    }
    var cyclic := HasCycle(graph);
    if cyclic {
      return Rejected(WouldCycle);
    }
    return Accepted(defs);
  }

  /** Accepted are the spawns that add named, distinct, new nodes which depend on other
      existing or spawned nodes only, and leave no cycle in the grown graph. */
  lemma SpawnMeans(nodes: Nodes, spawned: seq<NodeDef>)
    ensures spawned == [] ==> SpawnOk(nodes, spawned)
    ensures spawned != [] ==> (SpawnOk(nodes, spawned) <==>
      && (forall i | 0 <= i < |spawned| :: spawned[i].id != "" && spawned[i].activity != "" && spawned[i].id !in nodes)
      && (forall i, j | 0 <= i < j < |spawned| :: spawned[i].id != spawned[j].id)
      && (forall i | 0 <= i < |spawned| :: forall d | d in spawned[i].dependsOn ::
            d != spawned[i].id && (d in nodes || exists j :: 0 <= j < |spawned| && spawned[j].id == d))
      && !Cyclic(GrowGraph(DepGraph(nodes), spawned)))
  {
    hide Cyclic, GrowGraph;
  }

  lemma ClosedNormalForms(defs: seq<NodeDef>, known: set<string>)
    ensures Closed(NormalForms(defs), known) <==> Closed(defs, known)
  {
    var normal := NormalForms(defs);
    forall i | 0 <= i < |defs| ensures normal[i].id == defs[i].id && normal[i].dependsOn == defs[i].dependsOn {}
    if Closed(normal, known) {
      forall i | 0 <= i < |defs| ensures defs[i].id !in defs[i].dependsOn && forall d | d in defs[i].dependsOn :: d in known {
        assert normal[i].id !in normal[i].dependsOn;
      }
    }
  }

  // ---- Over whole histories ----

  /** Nodes are only added, and the definition a node enters with is the one it keeps. */
  lemma {:induction false} DefinitionsStable(log: seq<Event>, i: nat, n: string)
    requires LegalLog(log) && 0 < i <= |log| && n in StateOf(log[..i]).nodes
    ensures n in StateOf(log).nodes && StateOf(log).nodes[n].def == StateOf(log[..i]).nodes[n].def
    decreases |log|
  {
    hide Legal, Step, Inv;
    if i == |log| {
      assert log[..i] == log;
    } else {
      assert Front(log)[..i] == log[..i];
      DefinitionsStable(Front(log), i, n);
      LogInv(Front(log));
      KeysGrow(Last(Front(log)).payload, StateOf(Front(log)), Last(log));
    }
  }

  lemma {:induction false} GrownKeys(g: Graph, defs: seq<NodeDef>)
    requires UniqueIds(defs)
    ensures forall n :: n in GrowGraph(g, defs) <==> n in g || HasId(defs, n)
    ensures forall n | n in g && !HasId(defs, n) :: GrowGraph(g, defs)[n] == g[n]
    ensures forall i | 0 <= i < |defs| :: defs[i].id in GrowGraph(g, defs) && GrowGraph(g, defs)[defs[i].id] == defs[i].dependsOn
    decreases |defs|
  {
    if defs != [] {
      var h := g[defs[0].id := defs[0].dependsOn];
      GrownKeys(h, defs[1..]);
      forall n { HasIdTail(defs, n); }
      assert !HasId(defs[1..], defs[0].id);
      forall i | 0 <= i < |defs|
        ensures defs[i].id in GrowGraph(g, defs) && GrowGraph(g, defs)[defs[i].id] == defs[i].dependsOn
      {
        if i > 0 { assert defs[i] == defs[1..][i - 1]; }
      }
    }
  }

  lemma HasIdIffInIds(defs: seq<NodeDef>, n: string)
    ensures HasId(defs, n) <==> n in Ids(defs)
  {
  }

  // The grown graph, key by key, when the spawned ids are new.
  lemma GrownAt(a: Nodes, b: Nodes, spawned: seq<NodeDef>, n: string)
    requires UniqueIds(spawned) && a.Keys !! Ids(spawned) && b.Keys == a.Keys + Ids(spawned)
    requires forall m | m in a :: b[m].def == a[m].def
    requires forall i | 0 <= i < |spawned| :: spawned[i].id in b && b[spawned[i].id].def == spawned[i]
    ensures n in b <==> n in GrowGraph(DepGraph(a), spawned)
    ensures n in b ==> b[n].def.dependsOn == GrowGraph(DepGraph(a), spawned)[n]
  {
    GrownKeys(DepGraph(a), spawned);
    HasIdIffInIds(spawned, n);
    hide GrowGraph;
    if n in b && n !in a {
      var i :| 0 <= i < |spawned| && spawned[i].id == n;
    }
  }

  lemma GrownGraph(a: Nodes, b: Nodes, spawned: seq<NodeDef>)
    requires UniqueIds(spawned) && a.Keys !! Ids(spawned) && b.Keys == a.Keys + Ids(spawned)
    requires forall n | n in a :: b[n].def == a[n].def
    requires forall i | 0 <= i < |spawned| :: spawned[i].id in b && b[spawned[i].id].def == spawned[i]
    ensures DepGraph(b) == GrowGraph(DepGraph(a), spawned)
  {
    forall n
      ensures n in b <==> n in GrowGraph(DepGraph(a), spawned)
      ensures n in b ==> b[n].def.dependsOn == GrowGraph(DepGraph(a), spawned)[n]
    {
      GrownAt(a, b, spawned, n);
    }
    hide GrowGraph;
  }

  // A completion grows the dependency graph by exactly the spawned definitions.
  lemma CompletionGraph(last: Payload, s: RunData, e: Event)
    requires Legal(last, s, e) && e.payload.NodeCompleted?
    ensures DepGraph(Step(s, e).nodes) == GrowGraph(DepGraph(s.nodes), e.payload.spawned)
    ensures SpawnOk(s.nodes, e.payload.spawned)
  {
    CompletionEffect(last, s, e);
    assert SpawnOk(s.nodes, e.payload.spawned);
    hide Legal, Step, Cyclic, GrowGraph;
    GrownGraph(s.nodes, Step(s, e).nodes, e.payload.spawned);
  }

  // Without a spawn the dependency graph stays as it is.
  lemma SameGraph(last: Payload, s: RunData, e: Event)
    requires Legal(last, s, e) && Inv(s) && (e.payload.NodeCompleted? ==> e.payload.spawned == [])
    ensures DepGraph(Step(s, e).nodes) == DepGraph(s.nodes)
  {
    hide Cyclic, WellFormed, Readiness, Leased, StackInv, ActiveInv, PhaseInv, TimerInv;
    if e.payload.NodeCompleted? {
      CompletionGraph(last, s, e);
    } else {
      LegalMoves(last, s, e);
      hide Legal, Step;
      assert forall n | n in s.nodes :: NodeMove(s.nodes[n], Step(s, e).nodes[n]);
    }
  }

  lemma AcyclicStep(last: Payload, s: RunData, e: Event)
    requires Legal(last, s, e) && Inv(s) && !Cyclic(DepGraph(s.nodes))
    ensures !Cyclic(DepGraph(Step(s, e).nodes))
  {
    hide Cyclic, Legal, Step, Inv;
    if e.payload.NodeCompleted? && e.payload.spawned != [] { CompletionGraph(last, s, e); }
    else { SameGraph(last, s, e); }
  }

  /** From an acyclic start the graph stays acyclic under any sequence of accepted spawns. */
  lemma {:induction false} AcyclicForever(log: seq<Event>)
    requires LegalLog(log) && !Cyclic(DepGraph(StateOf(log[..1]).nodes))
    ensures !Cyclic(DepGraph(StateOf(log).nodes))
    decreases |log|
  {
    hide Legal, Step, Inv, Cyclic;
    if |log| == 1 {
      assert log[..1] == log;
    } else {
      assert Front(log)[..1] == log[..1];
      AcyclicForever(Front(log));
      LogInv(Front(log));
      AcyclicStep(Last(Front(log)).payload, StateOf(Front(log)), Last(log));
    }
  }

  /** A rejected spawn fails the parent and adds no node. */
  lemma RejectedSpawnAddsNothing(s: RunData, req: CompleteRequest, clock: Clock)
    requires Inv(s) && !req.compensation && !req.checkpoint && !SpawnOk(s.nodes, req.spawned)
    requires LeaseCheck(s, req.worker, req.node, req.attempt) == NoError && !s.cancelRequested
    ensures var outcome := CompleteTask(s, req, clock); var t := Replay(s, outcome.events);
      && outcome.error == InvalidSpawn
      && t.nodes == s.nodes[req.node := s.nodes[req.node].(state := Failed, heartbeat := None)]
  {
    hide SpawnOk, Step, Advance, Inv;
    var e := Emit(s, clock, NodeFailed(req.node, req.worker, req.attempt, false, false));
    var s1 := Step(s, e);
    FailureNodes(s, e);
    assert [e][1..] == [] && Replay(s, [e]) == s1;
    ReplayConcat(s, [e], Advance(s1, clock));
    AdvanceKeepsNodes(s1, clock);
  }

  lemma FailureNodes(s: RunData, e: Event)
    requires e.payload.NodeFailed? && Holds(s, e.payload.node, e.payload.worker, e.payload.attempt)
    ensures Step(s, e).nodes == s.nodes[e.payload.node := s.nodes[e.payload.node].(state := Failed, heartbeat := None)]
  {
  }

  lemma AdvanceKeepsNodes(s: RunData, clock: Clock)
    ensures Replay(s, Advance(s, clock)).nodes == s.nodes
  {
    if AdvancePayload(s).Some? {
      var e := Emit(s, clock, AdvancePayload(s).value);
      assert [e][1..] == [] && Step(s, e).nodes == s.nodes;
    }
  }
}
