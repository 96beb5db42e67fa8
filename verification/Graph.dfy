/** Dependency graphs and the three-colour search that gates living-DAG growth
    (internal/engine/engine.go, hasCycle). */
module Graph {
  type Graph = map<string, seq<string>>

  // A dependency edge between two keys; dependencies outside the keys are ignored.
  predicate Edge(g: Graph, a: string, b: string) {
    a in g && b in g && b in g[a]
  }

  ghost predicate Path(g: Graph, p: seq<string>) {
    forall i | 0 <= i < |p| - 1 :: Edge(g, p[i], p[i + 1])
  }

  ghost predicate Cycle(g: Graph, p: seq<string>) {
    |p| >= 2 && p[0] == p[|p| - 1] && Path(g, p)
  }

  ghost predicate Cyclic(g: Graph) {
    exists p :: Cycle(g, p)
  }

  /** An order in which every key comes after its dependencies. */
  ghost predicate Topological(g: Graph, order: seq<string>) {
    forall i | 0 <= i < |order| ::
      order[i] in g && forall d | Edge(g, order[i], d) :: d in order[..i]
  }

  function FirstIndex(order: seq<string>, x: string): (i: nat)
    requires x in order
    ensures i < |order| && order[i] == x && forall j | 0 <= j < i :: order[j] != x
  {
    if order[0] == x then 0 else 1 + FirstIndex(order[1..], x)
  }

  lemma {:induction false} PathDescends(g: Graph, order: seq<string>, p: seq<string>, k: nat)
    requires Topological(g, order) && Path(g, p) && k < |p| && p[0] in order
    ensures p[k] in order && FirstIndex(order, p[k]) + k <= FirstIndex(order, p[0])
  {
    if k > 0 {
      PathDescends(g, order, p, k - 1);
      var f := FirstIndex(order, p[k - 1]);
      assert Edge(g, p[k - 1], p[k - 1 + 1]);
      assert p[k] in order[..f];
      var j :| 0 <= j < f && order[j] == p[k];
      assert FirstIndex(order, p[k]) <= j;
    }
  }

  lemma TopologicalAcyclic(g: Graph, order: seq<string>)
    requires Topological(g, order) && forall x | x in g :: x in order
    ensures !Cyclic(g)
  {
    forall p | Cycle(g, p) ensures false {
      assert Edge(g, p[0], p[0 + 1]);
      PathDescends(g, order, p, |p| - 1);
    }
  }

  // ---- A finite set without a minimal element carries a cycle ----

  ghost predicate HasEdgeInto(g: Graph, x: string, s: set<string>) {
    exists y :: y in s && Edge(g, x, y)
  }

  ghost predicate NoMinimum(g: Graph, s: set<string>) {
    forall x {:trigger HasEdgeInto(g, x, s)} | x in s :: HasEdgeInto(g, x, s)
  }

  lemma {:induction false} LongWalk(g: Graph, s: set<string>, n: nat) returns (w: seq<string>)
    requires s != {} && NoMinimum(g, s)
    ensures |w| == n + 1 && Path(g, w) && forall i | 0 <= i < |w| :: w[i] in s
  {
    if n == 0 {
      var x :| x in s;
      w := [x];
    } else {
      var v := LongWalk(g, s, n - 1);
      var last := v[n - 1];
      assert HasEdgeInto(g, last, s);
      var y :| y in s && Edge(g, last, y);
      w := v + [y];
    }
  }

  lemma {:induction false} Pigeonhole(w: seq<string>, s: set<string>)
    requires |w| > |s| && forall x | x in w :: x in s
    ensures exists i, j :: 0 <= i < j < |w| && w[i] == w[j]
    decreases |w|
  {
    var x := w[0];
    assert x in w;
    if x in w[1..] {
      var j :| 0 <= j < |w[1..]| && w[1..][j] == x;
      assert w[0] == w[j + 1];
    } else {
      forall y | y in w[1..] ensures y in s - {x} { assert y in w; }
      Pigeonhole(w[1..], s - {x});
      var i, j :| 0 <= i < j < |w[1..]| && w[1..][i] == w[1..][j];
      assert w[i + 1] == w[j + 1];
    }
  }

  lemma MinimumExists(g: Graph, s: set<string>) returns (x: string)
    requires s != {} && !Cyclic(g)
    ensures x in s && !HasEdgeInto(g, x, s)
  {
    if NoMinimum(g, s) {
      var w := LongWalk(g, s, |s|);
      Pigeonhole(w, s);
      var i, j :| 0 <= i < j < |w| && w[i] == w[j];
      var p := w[i..j + 1];
      forall k | 0 <= k < |p| - 1 ensures Edge(g, p[k], p[k + 1]) {
        assert Edge(g, w[i + k], w[i + k + 1]);
      }
      assert Cycle(g, p);
      assert false;
    }
    x :| x in s && !HasEdgeInto(g, x, s);
  }

  // ---- hasCycle ----

  lemma PathExtends(g: Graph, p: seq<string>, n: string)
    requires Path(g, p) && (p != [] ==> Edge(g, p[|p| - 1], n))
    ensures Path(g, p + [n])
  {
    var q := p + [n];
    forall i | 0 <= i < |q| - 1 ensures Edge(g, q[i], q[i + 1]) {
      if i + 1 < |p| { assert Edge(g, p[i], p[i + 1]); }
    }
  }

  lemma BackEdgeCloses(g: Graph, p: seq<string>, n: string)
    requires Path(g, p) && n in p && Edge(g, p[|p| - 1], n)
    ensures Cyclic(g)
  {
    PathExtends(g, p, n);
    var i := FirstIndex(p, n);
    var q := (p + [n])[i..];
    forall k | 0 <= k < |q| - 1 ensures Edge(g, q[k], q[k + 1]) {
      assert Edge(g, (p + [n])[i + k], (p + [n])[i + k + 1]);
    }
    assert Cycle(g, q);
  }

  lemma TopologicalExtends(g: Graph, order: seq<string>, n: string)
    requires Topological(g, order) && n in g
    requires forall d | Edge(g, n, d) :: d in order
    ensures Topological(g, order + [n])
  {
    var o := order + [n];
    forall i | 0 <= i < |o| ensures o[i] in g && forall d | Edge(g, o[i], d) :: d in o[..i] {
      assert o[..i] == order[..i];
      assert order[..|order|] == order;
    }
  }

  datatype Colour = Unvisited | Visiting | Visited

  class CycleSearch {
    const graph: Graph
    var colours: map<string, Colour>
    ghost var finished: seq<string>

    constructor (graph: Graph)
      ensures this.graph == graph && Valid([]) && finished == []
    {
      this.graph := graph;
      colours := map[];
      finished := [];
    }

    function ColourOf(n: string): Colour
      reads this
    {
      if n in colours then colours[n] else Unvisited
    }

    // `path` is the chain of open calls: exactly the grey nodes.
    ghost predicate Valid(path: seq<string>)
      reads this
    {
      && (forall x | x in colours :: x in graph && !colours[x].Unvisited?)
      && Path(graph, path)
      && (forall x :: ColourOf(x).Visiting? <==> x in path)
      && (forall x :: ColourOf(x).Visited? <==> x in finished)
      && Topological(graph, finished)
    }

    method Visit(n: string, ghost path: seq<string>) returns (found: bool)
      requires n in graph && Valid(path)
      requires path != [] ==> Edge(graph, path[|path| - 1], n)
      modifies this
      ensures old(colours.Keys) <= colours.Keys
      ensures found ==> Cyclic(graph)
      ensures !found ==> Valid(path) && old(finished) <= finished && n in finished
      decreases graph.Keys - colours.Keys
    {
      match ColourOf(n) {
        case Visiting =>
          BackEdgeCloses(graph, path, n);
          return true;
        case Visited =>
          return false;
        case Unvisited =>
      }
      colours := colours[n := Visiting];
      ghost var open := path + [n];
      PathExtends(graph, path, n);
      assert forall x :: x in open <==> x in path || x == n;
      assert n !in path && n !in finished;
      assert n in graph.Keys - old(colours.Keys);
      var deps := graph[n];
      for i := 0 to |deps|
        invariant Valid(open) && old(finished) <= finished
        invariant old(colours.Keys) <= colours.Keys && n in colours
        invariant forall j | 0 <= j < i && deps[j] in graph :: deps[j] in finished
      {
        if deps[i] in graph {
          found := Visit(deps[i], open);
          if found {
            return true;
          }
        }
      }
      TopologicalExtends(graph, finished, n);
      colours := colours[n := Visited];
      finished := finished + [n];
      return false;
    }
  }

  method HasCycle(graph: Graph) returns (found: bool)
    ensures found <==> Cyclic(graph)
  {
    var search := new CycleSearch(graph);
    var rest := graph.Keys;
    while rest != {}
      invariant search.graph == graph && rest <= graph.Keys
      invariant search.Valid([])
      invariant forall x | x in graph.Keys - rest :: x in search.finished
      decreases |rest|
    {
      var n :| n in rest;
      var cyclic := search.Visit(n, []);
      if cyclic {
        return true;
      }
      rest := rest - {n};
    }
    TopologicalAcyclic(graph, search.finished);
    return false;
  }
}
