/** Workflow graphs and their forward edges. */
module Graphs {
  import opened Options

  // Nodes, ports, edges, and the forward-edge relation that scheduling works on.

  /** A JSON value. Only null (a branch not taken) and arrays (appended to by state writes) matter to the engine. */
  datatype Value = Null | Array(items: seq<Value>) | Opaque(text: string)

  type Ports = map<string, Value>

  datatype Port = Port(name: string, default: Option<Value>)

  datatype Binding = Binding(field: string, port: string)

  datatype NodeKind = Input | Conditional | Output | Other

  datatype Node = Node(
    id: string, kind: NodeKind, inputs: seq<Port>, outputs: seq<string>,
    stateReads: seq<Binding>, stateWrites: seq<Binding>)

  datatype Edge = Edge(
    id: string, source: string, sourcePort: string, target: string, targetPort: string,
    back: bool, maxIterations: Option<int>)

  datatype Graph = Graph(nodes: seq<Node>, edges: seq<Edge>)

  ghost function Ids(g: Graph): set<string> {
    set n | n in g.nodes :: n.id
  }

  /** v is the ID of one of the first upTo nodes. */
  ghost predicate Declared(g: Graph, v: string, upTo: nat)
    requires upTo <= |g.nodes|
  {
    exists i :: 0 <= i < upTo && g.nodes[i].id == v
  }

  lemma AllDeclared(g: Graph)
    ensures forall v :: v in Ids(g) <==> Declared(g, v, |g.nodes|)
  {
    forall v | v in Ids(g) ensures Declared(g, v, |g.nodes|) {
      var n :| n in g.nodes && n.id == v;
      var i :| 0 <= i < |g.nodes| && g.nodes[i] == n;
    }
  }

  /** What validation guarantees about identifiers: distinct node IDs, existing endpoints. */
  ghost predicate Valid(g: Graph) {
    && (forall i, j :: 0 <= i < j < |g.nodes| ==> g.nodes[i].id != g.nodes[j].id)
    && (forall e :: e in g.edges ==> e.source in Ids(g) && e.target in Ids(g))
  }

  /** There is a forward (not back-) edge from u to v. */
  ghost predicate Arc(g: Graph, u: string, v: string) {
    exists e :: e in g.edges && !e.back && e.source == u && e.target == v
  }

  /** A forward path, written as the nodes it visits. */
  ghost predicate Walk(g: Graph, p: seq<string>) {
    && p != []
    && (forall i :: 0 <= i < |p| ==> p[i] in Ids(g))
    && (forall i, j :: 0 <= i < j < |p| && j == i + 1 ==> Arc(g, p[i], p[j]))
  }

  ghost predicate Cyclic(g: Graph) {
    exists p :: Walk(g, p) && |p| >= 2 && p[0] == p[|p| - 1]
  }

  ghost predicate Distinct<T>(s: seq<T>) {
    forall i, j :: 0 <= i < j < |s| ==> s[i] != s[j]
  }

  function Elems<T(==)>(s: seq<T>): set<T> {
    set x | x in s
  }

  /** Every node exactly once, every forward edge pointing forward. */
  ghost predicate TopoOrder(g: Graph, order: seq<string>) {
    && Distinct(order)
    && Elems(order) == Ids(g)
    && |order| == |g.nodes|
    && (forall i, j :: 0 <= i < |order| && 0 <= j < |order| && Arc(g, order[i], order[j]) ==> i < j)
  }

  /** The targets of u's forward edges, in edge order, repeated when edges are parallel. */
  function ForwardTargets(edges: seq<Edge>, u: string): seq<string> {
    if edges == [] then []
    else
      var e := edges[|edges| - 1];
      ForwardTargets(edges[..|edges| - 1], u) + if !e.back && e.source == u then [e.target] else []
  }

  lemma {:induction false} ForwardTargetsMeaning(edges: seq<Edge>, u: string)
    ensures forall v :: v in ForwardTargets(edges, u) <==>
                        exists e :: e in edges && !e.back && e.source == u && e.target == v
  {
    if edges != [] {
      var prefix, last := edges[..|edges| - 1], edges[|edges| - 1];
      ForwardTargetsMeaning(prefix, u);
      assert edges == prefix + [last];
    }
  }

  lemma DistinctCard<T>(s: seq<T>)
    requires Distinct(s)
    ensures |Elems(s)| == |s|
  {
    if s != [] {
      var prefix := s[..|s| - 1];
      DistinctCard(prefix);
      assert s == prefix + [s[|s| - 1]];
      assert Elems(s) == Elems(prefix) + {s[|s| - 1]};
    }
  }

  /** A sequence longer than the set it draws from repeats itself. */
  lemma Pigeonhole<T>(s: seq<T>, r: set<T>) returns (i: nat, j: nat)
    requires forall x :: x in s ==> x in r
    requires |s| > |r|
    ensures i < j < |s| && s[i] == s[j]
  {
    if i', j' :| 0 <= i' < j' < |s| && s[i'] == s[j'] {
      i, j := i', j';
    } else {
      DistinctCard(s);
      Contained(Elems(s), r);
      assert false;
    }
  }

  lemma Contained<T>(a: set<T>, b: set<T>)
    requires a <= b
    ensures |a| <= |b|
  {
    if a != {} {
      var x :| x in a;
      Contained(a - {x}, b - {x});
    }
  }

  lemma NodeCount(g: Graph)
    requires Valid(g)
    ensures |Ids(g)| == |g.nodes|
  {
    var ids := seq(|g.nodes|, i requires 0 <= i < |g.nodes| => g.nodes[i].id);
    DistinctCard(ids);
    forall x | x in Ids(g) ensures x in ids {
      var n :| n in g.nodes && n.id == x;
      var i :| 0 <= i < |g.nodes| && g.nodes[i] == n;
      assert ids[i] == x;
    }
    assert Elems(ids) == Ids(g);
  }

  /** A strictly increasing rank along forward edges rules out cycles. */
  lemma RankedIsAcyclic(g: Graph, rank: map<string, int>)
    requires forall u, v :: Arc(g, u, v) ==> u in rank && v in rank && rank[u] < rank[v]
    ensures !Cyclic(g)
  {
    forall p | Walk(g, p) && |p| >= 2 ensures p[0] != p[|p| - 1] {
      RankGrows(g, rank, p, |p| - 1);
    }
  }

  lemma {:induction false} RankGrows(g: Graph, rank: map<string, int>, p: seq<string>, k: nat)
    requires forall u, v :: Arc(g, u, v) ==> u in rank && v in rank && rank[u] < rank[v]
    requires Walk(g, p) && 1 <= k < |p|
    ensures p[0] in rank && p[k] in rank && rank[p[0]] < rank[p[k]]
  {
    assert Arc(g, p[k - 1], p[k]);
    if k > 1 {
      RankGrows(g, rank, p, k - 1);
    }
  }

  lemma TopoOrderIsAcyclic(g: Graph, order: seq<string>)
    requires Valid(g) && TopoOrder(g, order)
    ensures !Cyclic(g)
  {
    var rank := map u | u in order :: Position(order, u);
    forall u, v | Arc(g, u, v) ensures u in rank && v in rank && rank[u] < rank[v] {
      assert u in Elems(order) && v in Elems(order);
    }
    RankedIsAcyclic(g, rank);
  }

  ghost function Position<T(!new)>(s: seq<T>, x: T): (i: nat)
    requires x in s
    ensures i < |s| && s[i] == x
  {
    var i :| 0 <= i < |s| && s[i] == x;
    i
  }

  /** v has a forward predecessor that is not in `done`. */
  ghost predicate HeldBack(g: Graph, v: string, done: set<string>) {
    exists u :: Arc(g, u, v) && u !in done
  }

  ghost predicate HasPredecessor(g: Graph, r: set<string>, v: string) {
    exists u :: u in r && Arc(g, u, v)
  }

  /** A non-empty set of nodes in which everyone has a predecessor contains a cycle. */
  lemma StuckIsCyclic(g: Graph, r: set<string>)
    requires r != {} && r <= Ids(g)
    requires forall v {:trigger HasPredecessor(g, r, v)} :: v in r ==> HasPredecessor(g, r, v)
    ensures Cyclic(g)
  {
    var p := WalkInside(g, r, |r|);
    var i, j := Pigeonhole(p, r);
    var loop := p[i..j + 1];
    forall a, b | 0 <= a < b < |loop| && b == a + 1 ensures Arc(g, loop[a], loop[b]) {
      assert loop[a] == p[i + a] && loop[b] == p[i + b];
    }
    assert Walk(g, loop);
  }

  lemma {:induction false} WalkInside(g: Graph, r: set<string>, k: nat) returns (p: seq<string>)
    requires r != {} && r <= Ids(g)
    requires forall v {:trigger HasPredecessor(g, r, v)} :: v in r ==> HasPredecessor(g, r, v)
    ensures Walk(g, p) && |p| == k + 1 && forall x :: x in p ==> x in r
  {
    if k == 0 {
      var v :| v in r;
      p := [v];
    } else {
      var tail := WalkInside(g, r, k - 1);
      assert tail[0] in r;
      assert HasPredecessor(g, r, tail[0]);
      var u :| u in r && Arc(g, u, tail[0]);
      p := [u] + tail;
      assert forall i :: 1 <= i < |p| ==> p[i] == tail[i - 1];
    }
  }
}
