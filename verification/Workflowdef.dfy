/** Validation and normal form of workflow definitions (internal/workflowdef/loader.go). */
module Workflowdef {
  import opened Runtime

  datatype DefError =
    | NameRequired
    | NoNodes
    | IdRequired
    | ActivityRequired(id: string)
    | DuplicateId(id: string)
    | SelfDependency(id: string)
    | UnknownDependency(id: string, dep: string)

  datatype Result<+T> = Ok(value: T) | Err(error: DefError)

  function NormalizeDuration(d: Duration): Duration {
    if d < 0 then 0 else d
  }

  function NormalizeRetry(policy: Option<RetryPolicy>): Option<RetryPolicy> {
    match policy
    case None => None
    case Some(p) => Some(RetryPolicy(if p.maxAttempts < 0 then 0 else p.maxAttempts, NormalizeDuration(p.backoff)))
  }

  // The fields NormalizeNode copies or clamps once a node is accepted.
  function NormalForm(def: NodeDef): NodeDef {
    def.(
      retry := NormalizeRetry(def.retry),
      checkpointTimeout := NormalizeDuration(def.checkpointTimeout),
      executionDeadline := NormalizeDuration(def.executionDeadline),
      absoluteDeadline := NormalizeDuration(def.absoluteDeadline))
  }

  function NormalizeNode(def: NodeDef): (r: Result<NodeDef>) {
    if def.id == "" then Err(IdRequired)
    else if def.activity == "" then Err(ActivityRequired(def.id))
    else Ok(NormalForm(def))
  }

  function NormalForms(defs: seq<NodeDef>): seq<NodeDef> {
    seq(|defs|, i requires 0 <= i < |defs| => NormalForm(defs[i]))
  }

  ghost predicate UniqueIds(defs: seq<NodeDef>) {
    forall i, j | 0 <= i < j < |defs| :: defs[i].id != defs[j].id
  }

  ghost function Ids(defs: seq<NodeDef>): set<string> {
    set i | 0 <= i < |defs| :: defs[i].id
  }

  ghost predicate Closed(defs: seq<NodeDef>, known: set<string>) {
    forall i | 0 <= i < |defs| ::
      defs[i].id !in defs[i].dependsOn && forall d | d in defs[i].dependsOn :: d in known
  }

  ghost predicate Named(defs: seq<NodeDef>) {
    forall i | 0 <= i < |defs| :: defs[i].id != "" && defs[i].activity != ""
  }

  /** The definitions the runtime accepts. Longer dependency cycles are not excluded. */
  ghost predicate ValidDef(def: WorkflowDef) {
    && def.name != ""
    && def.nodes != []
    && Named(def.nodes)
    && UniqueIds(def.nodes)
    && Closed(def.nodes, Ids(def.nodes))
  }

  // The complaint is true of the definition.
  ghost predicate Justified(def: WorkflowDef, e: DefError) {
    match e
    case NameRequired => def.name == ""
    case NoNodes => def.nodes == []
    case IdRequired => exists i | 0 <= i < |def.nodes| :: def.nodes[i].id == ""
    case ActivityRequired(id) => exists i | 0 <= i < |def.nodes| :: def.nodes[i].id == id && def.nodes[i].activity == ""
    case DuplicateId(id) => exists i, j | 0 <= i < j < |def.nodes| :: def.nodes[i].id == def.nodes[j].id == id
    case SelfDependency(id) => exists i | 0 <= i < |def.nodes| :: def.nodes[i].id == id && id in def.nodes[i].dependsOn
    case UnknownDependency(id, dep) =>
      dep !in Ids(def.nodes) && exists i | 0 <= i < |def.nodes| :: def.nodes[i].id == id && dep in def.nodes[i].dependsOn
  }

  // A number the definition gives; a negative one counts as zero.
  predicate Raised(was: int, next: int) {
    next == if was < 0 then 0 else was
  }

  /** `next` is what the runtime keeps of the definition `was`: everything as it was
      written, but for negative numbers. */
  predicate Keeps(was: NodeDef, next: NodeDef) {
    && next.id == was.id && next.activity == was.activity && next.dependsOn == was.dependsOn && next.compensation == was.compensation
    && (next.retry.Some? <==> was.retry.Some?)
    && (was.retry.Some? ==>
          Raised(was.retry.value.maxAttempts, next.retry.value.maxAttempts) && Raised(was.retry.value.backoff, next.retry.value.backoff))
    && Raised(was.checkpointTimeout, next.checkpointTimeout)
    && Raised(was.executionDeadline, next.executionDeadline)
    && Raised(was.absoluteDeadline, next.absoluteDeadline)
  }

  ghost predicate KeepsAll(was: seq<NodeDef>, next: seq<NodeDef>) {
    |next| == |was| && forall i | 0 <= i < |was| :: Keeps(was[i], next[i])
  }

  predicate NoNegatives(def: NodeDef) {
    && (def.retry.Some? ==> def.retry.value.maxAttempts >= 0 && def.retry.value.backoff >= 0)
    && def.checkpointTimeout >= 0 && def.executionDeadline >= 0 && def.absoluteDeadline >= 0
  }

  /** The normal forms keep every definition, and change none without negative numbers. */
  lemma NormalFormsKeep(defs: seq<NodeDef>)
    ensures KeepsAll(defs, NormalForms(defs))
    ensures (forall i | 0 <= i < |defs| :: NoNegatives(defs[i])) ==> NormalForms(defs) == defs
  {
    var next := NormalForms(defs);
    forall i | 0 <= i < |defs| ensures Keeps(defs[i], next[i]) && (NoNegatives(defs[i]) ==> next[i] == defs[i]) {
      assert next[i] == NormalForm(defs[i]);
    }
  }

  method Normalize(def: WorkflowDef) returns (r: Result<WorkflowDef>)
    ensures r.Ok? <==> ValidDef(def)
    ensures r.Ok? ==> r.value == WorkflowDef(def.name, NormalForms(def.nodes))
    ensures r.Ok? ==> r.value.name == def.name && KeepsAll(def.nodes, r.value.nodes)
    ensures r.Err? ==> Justified(def, r.error)
  {
    hide KeepsAll;
    if def.name == "" { return Err(NameRequired); }
    if |def.nodes| == 0 { return Err(NoNodes); }
    var seen: set<string> := {};
    var nodes: seq<NodeDef> := [];
    for i := 0 to |def.nodes|
      invariant |nodes| == i && nodes == NormalForms(def.nodes[..i])
      invariant Named(def.nodes[..i]) && UniqueIds(def.nodes[..i])
      invariant seen == Ids(def.nodes[..i])
    {
      var node := def.nodes[i];
      if node.id in seen {
        return Err(DuplicateId(node.id));
      }
      var normalized := NormalizeNode(node);
      if normalized.Err? {
        return Err(normalized.error);
      }
      nodes := nodes + [normalized.value];
      seen := seen + {node.id};
      assert def.nodes[..i + 1] == def.nodes[..i] + [node];
      assert Ids(def.nodes[..i + 1]) == Ids(def.nodes[..i]) + {node.id} by {
        IdsAppend(def.nodes[..i], node);
      }
    }
    assert def.nodes[..|def.nodes|] == def.nodes;
    for i := 0 to |nodes|
      invariant Closed(def.nodes[..i], seen)
    {
      var id, deps := nodes[i].id, nodes[i].dependsOn;
      for j := 0 to |deps|
        invariant id !in deps[..j] && forall d | d in deps[..j] :: d in seen
      {
        assert id == def.nodes[i].id && deps[j] in def.nodes[i].dependsOn;
        if deps[j] == id {
          return Err(SelfDependency(id));
        }
        if deps[j] !in seen {
          return Err(UnknownDependency(id, deps[j]));
        }
      }
      assert deps[..|deps|] == deps && deps == def.nodes[i].dependsOn;
    }
    NormalFormsKeep(def.nodes);
    return Ok(WorkflowDef(def.name, nodes));
  }

  /** Accepted are the named, non-empty definitions whose nodes have distinct ids, an
      activity each, and depend on other nodes of the definition only. */
  lemma AcceptedMeans(def: WorkflowDef)
    ensures ValidDef(def) <==>
      && def.name != "" && def.nodes != []
      && (forall i | 0 <= i < |def.nodes| :: def.nodes[i].id != "" && def.nodes[i].activity != "")
      && (forall i, j | 0 <= i < j < |def.nodes| :: def.nodes[i].id != def.nodes[j].id)
      && (forall i | 0 <= i < |def.nodes| :: forall d | d in def.nodes[i].dependsOn ::
            d != def.nodes[i].id && exists j :: 0 <= j < |def.nodes| && def.nodes[j].id == d)
  {
  }

  lemma IdsAppend(defs: seq<NodeDef>, def: NodeDef)
    ensures Ids(defs + [def]) == Ids(defs) + {def.id}
  {
    var all := defs + [def];
    forall x | x in Ids(defs) + {def.id} ensures x in Ids(all) {
      if x == def.id {
        assert all[|defs|].id == x;
      } else {
        var i :| 0 <= i < |defs| && defs[i].id == x;
        assert all[i].id == x;
      }
    }
  }

  /** The normal form is accepted exactly when the definition is, and is its own
      normal form: both feed the same value to the definition hash. */
  lemma NormalizeIdempotent(def: WorkflowDef)
    ensures var normal := WorkflowDef(def.name, NormalForms(def.nodes));
            (ValidDef(normal) <==> ValidDef(def)) && NormalForms(normal.nodes) == normal.nodes
  {
    var nodes := NormalForms(def.nodes);
    forall i | 0 <= i < |nodes| ensures nodes[i].id == def.nodes[i].id && nodes[i].activity == def.nodes[i].activity && nodes[i].dependsOn == def.nodes[i].dependsOn {}
    assert forall i | 0 <= i < |nodes| :: NormalForm(nodes[i]) == nodes[i];
    assert Ids(nodes) == Ids(def.nodes) by {
      forall x | x in Ids(def.nodes) ensures x in Ids(nodes) {
        var i :| 0 <= i < |def.nodes| && def.nodes[i].id == x;
        assert nodes[i].id == x;
      }
      forall x | x in Ids(nodes) ensures x in Ids(def.nodes) {
        var i :| 0 <= i < |nodes| && nodes[i].id == x;
        assert def.nodes[i].id == x;
      }
    }
    if ValidDef(WorkflowDef(def.name, nodes)) {
      forall i | 0 <= i < |nodes|
        ensures def.nodes[i].id != "" && def.nodes[i].activity != ""
        ensures def.nodes[i].id !in def.nodes[i].dependsOn
        ensures forall d | d in def.nodes[i].dependsOn :: d in Ids(def.nodes)
        ensures forall j | i < j < |nodes| :: def.nodes[i].id != def.nodes[j].id
      {
        assert nodes[i].id == def.nodes[i].id;
        forall j | i < j < |nodes| ensures def.nodes[i].id != def.nodes[j].id { assert nodes[j].id == def.nodes[j].id; }
      }
    }
  }
}
