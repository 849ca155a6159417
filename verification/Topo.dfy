/** Kahn's topological sort. */
module Topo {
  import opened Options
  import opened Graphs

  // ---------- Kahn's algorithm ----------

  /** The number of forward edges into v whose source has not been emitted yet. */
  ghost function Pending(edges: seq<Edge>, v: string, emitted: set<string>): nat {
    if edges == [] then 0
    else
      var e := edges[|edges| - 1];
      Pending(edges[..|edges| - 1], v, emitted) + if !e.back && e.target == v && e.source !in emitted then 1 else 0
  }

  ghost function Count(s: seq<string>, v: string): nat {
    multiset(s)[v]
  }

  lemma {:induction false} PendingZero(edges: seq<Edge>, v: string, emitted: set<string>)
    ensures Pending(edges, v, emitted) == 0 <==>
            forall e :: e in edges && !e.back && e.target == v ==> e.source in emitted
  {
    if edges != [] {
      var prefix, last := edges[..|edges| - 1], edges[|edges| - 1];
      PendingZero(prefix, v, emitted);
      assert edges == prefix + [last];
    }
  }

  /** Emitting u removes exactly u's edges from everyone's pending count. */
  lemma {:induction false} PendingEmit(edges: seq<Edge>, v: string, emitted: set<string>, u: string)
    requires u !in emitted
    ensures Pending(edges, v, emitted) == Pending(edges, v, emitted + {u}) + Count(ForwardTargets(edges, u), v)
  {
    if edges != [] {
      PendingEmit(edges[..|edges| - 1], v, emitted, u);
    }
  }

  /** The nodes without forward in-edges, in declaration order. */
  ghost function Roots(g: Graph, upTo: nat): seq<string>
    requires upTo <= |g.nodes|
  {
    if upTo == 0 then []
    else Roots(g, upTo - 1) + if Pending(g.edges, g.nodes[upTo - 1].id, {}) == 0 then [g.nodes[upTo - 1].id] else []
  }

  ghost predicate IsRoot(g: Graph, v: string) {
    v in Ids(g) && forall u :: !Arc(g, u, v)
  }

  lemma {:induction false} RootsMeaning(g: Graph, upTo: nat)
    requires Valid(g) && upTo <= |g.nodes|
    ensures forall v :: v in Roots(g, upTo) <==> IsRoot(g, v) && Declared(g, v, upTo)
    ensures Distinct(Roots(g, upTo))
  {
    if upTo > 0 {
      var id := g.nodes[upTo - 1].id;
      RootsMeaning(g, upTo - 1);
      PendingZero(g.edges, id, {});
      assert g.nodes[upTo - 1] in g.nodes;
      if Pending(g.edges, id, {}) != 0 {
        var e :| e in g.edges && !e.back && e.target == id;
        assert Arc(g, e.source, id);
      }
      assert Declared(g, id, upTo) && !Declared(g, id, upTo - 1);
      assert forall v :: Declared(g, v, upTo) <==> Declared(g, v, upTo - 1) || v == id;
    }
  }

  /** Sources of the arcs into everything in `seen` were emitted (lie before `done`) and come earlier. */
  ghost predicate SourcesEmitted(g: Graph, seen: seq<string>, done: nat) {
    forall u, j :: 0 <= j < |seen| && Arc(g, u, seen[j]) ==> EarlierThan(seen, u, done, j)
  }

  ghost predicate EarlierThan(seen: seq<string>, u: string, done: nat, j: nat) {
    exists i :: 0 <= i < j && i < done && i < |seen| && seen[i] == u
  }

  ghost predicate KahnState(g: Graph, inDegree: map<string, nat>, order: seq<string>, queue: seq<string>) {
    && inDegree.Keys == Ids(g)
    && Distinct(order + queue)
    && (forall v :: v in order + queue ==> v in Ids(g))
    && (forall v :: v in Ids(g) ==> (v in order + queue <==> inDegree[v] == 0))
    && SourcesEmitted(g, order + queue, |order|)
    && Roots(g, |g.nodes|) <= order + queue
  }

  ghost predicate Degrees(g: Graph, inDegree: map<string, nat>, emitted: set<string>) {
    inDegree.Keys == Ids(g) && forall v :: v in Ids(g) ==> inDegree[v] == Pending(g.edges, v, emitted)
  }

  /** Reading a missing key of a Go map of slices gives the empty slice. */
  function Lookup(adj: map<string, seq<string>>, u: string): seq<string> {
    if u in adj then adj[u] else []
  }

  method ZeroDegrees(g: Graph) returns (inDegree: map<string, nat>)
    ensures inDegree.Keys == Ids(g) && forall v :: v in inDegree ==> inDegree[v] == 0
  {
    inDegree := map[];
    for i := 0 to |g.nodes|
      invariant forall v :: v in inDegree <==> Declared(g, v, i)
      invariant forall v :: v in inDegree ==> inDegree[v] == 0
    {
      assert Declared(g, g.nodes[i].id, i + 1);
      assert forall v :: Declared(g, v, i + 1) <==> Declared(g, v, i) || v == g.nodes[i].id;
      inDegree := inDegree[g.nodes[i].id := 0];
    }
    AllDeclared(g);
  }

  lemma NoEdges()
    ensures forall v :: Pending([], v, {}) == 0
    ensures forall u :: ForwardTargets([], u) == []
  {
  }

  lemma OneMoreEdge(es: seq<Edge>, e: Edge)
    ensures forall v :: Pending(es + [e], v, {}) == Pending(es, v, {}) + if !e.back && e.target == v then 1 else 0
    ensures forall u :: ForwardTargets(es + [e], u) == ForwardTargets(es, u) + if !e.back && e.source == u then [e.target] else []
  {
    assert (es + [e])[..|es|] == es;
  }

  method CountEdges(g: Graph) returns (adj: map<string, seq<string>>, inDegree: map<string, nat>)
    requires Valid(g)
    ensures forall u :: Lookup(adj, u) == ForwardTargets(g.edges, u)
    ensures Degrees(g, inDegree, {})
  {
    hide Pending, ForwardTargets;
    adj := map[];
    inDegree := ZeroDegrees(g);
    NoEdges();
    assert g.edges[..0] == [];
    for i := 0 to |g.edges|
      invariant inDegree.Keys == Ids(g)
      invariant forall v :: v in inDegree ==> inDegree[v] == Pending(g.edges[..i], v, {})
      invariant forall u :: Lookup(adj, u) == ForwardTargets(g.edges[..i], u)
    {
      var edge := g.edges[i];
      assert g.edges[..i + 1] == g.edges[..i] + [edge];
      assert edge in g.edges;
      OneMoreEdge(g.edges[..i], edge);
      if edge.back {
        continue;
      }
      adj := adj[edge.source := Lookup(adj, edge.source) + [edge.target]];
      inDegree := inDegree[edge.target := inDegree[edge.target] + 1];
    }
    assert g.edges[..|g.edges|] == g.edges;
  }

  method TopologicalSort(g: Graph) returns (r: Option<seq<string>>)
    requires Valid(g)
    ensures r.Some? <==> !Cyclic(g)
    ensures r.Some? ==> TopoOrder(g, r.value)
    ensures r.Some? ==> Roots(g, |g.nodes|) <= r.value
  {
    var adj, inDegree := CountEdges(g);
    var queue: seq<string> := [];
    for i := 0 to |g.nodes|
      invariant queue == Roots(g, i)
    {
      assert g.nodes[i] in g.nodes;
      if inDegree[g.nodes[i].id] == 0 {
        queue := queue + [g.nodes[i].id];
      }
    }

    var order: seq<string> := [];
    KahnStart(g, inDegree, queue);
    while queue != []
      invariant KahnState(g, inDegree, order, queue)
      invariant Degrees(g, inDegree, Elems(order))
      decreases Ids(g) - Elems(order)
    {
      var current := queue[0];
      ghost var emitted := Elems(order);
      KahnPop(g, inDegree, order, queue);
      queue := queue[1..];
      order := order + [current];
      var neighbors := Lookup(adj, current);
      queue, inDegree := ReleaseNeighbors(g, order, queue, inDegree, neighbors);
      assert current in Elems(order) && current !in emitted;
    }

    if |order| != |g.nodes| {
      KahnStuck(g, inDegree, order);
      return None;
    }
    KahnDone(g, inDegree, order);
    return Some(order);
  }

  /** The inner loop: each forward edge out of the emitted node releases its target by one. */
  method ReleaseNeighbors(g: Graph, order: seq<string>, queue0: seq<string>, inDegree0: map<string, nat>, neighbors: seq<string>)
    returns (queue: seq<string>, inDegree: map<string, nat>)
    requires Valid(g) && KahnState(g, inDegree0, order, queue0)
    requires forall v :: v in neighbors ==> v in Ids(g)
    requires Owes(g, order, inDegree0, neighbors)
    ensures KahnState(g, inDegree, order, queue) && Degrees(g, inDegree, Elems(order))
  {
    queue, inDegree := queue0, inDegree0;
    assert neighbors[0..] == neighbors;
    for j := 0 to |neighbors|
      invariant KahnState(g, inDegree, order, queue)
      invariant Owes(g, order, inDegree, neighbors[j..])
    {
      var neighbor := neighbors[j];
      ReleaseOne(g, order, queue, inDegree, neighbors, j);
      inDegree := inDegree[neighbor := inDegree[neighbor] - 1];
      if inDegree[neighbor] == 0 {
        queue := queue + [neighbor];
      }
    }
  }

  ghost predicate Owes(g: Graph, order: seq<string>, inDegree: map<string, nat>, neighbors: seq<string>) {
    inDegree.Keys == Ids(g) &&
    forall v :: v in Ids(g) ==> inDegree[v] == Pending(g.edges, v, Elems(order)) + Count(neighbors, v)
  }

  lemma ReleaseOne(g: Graph, order: seq<string>, queue: seq<string>, inDegree: map<string, nat>, neighbors: seq<string>, j: nat)
    requires Valid(g) && KahnState(g, inDegree, order, queue)
    requires j < |neighbors| && neighbors[j] in Ids(g)
    requires Owes(g, order, inDegree, neighbors[j..])
    ensures inDegree[neighbors[j]] > 0
    ensures var n := neighbors[j];
            var inDegree' := inDegree[n := inDegree[n] - 1];
            Owes(g, order, inDegree', neighbors[j + 1..]) &&
            KahnState(g, inDegree', order, if inDegree'[n] == 0 then queue + [n] else queue)
  {
    var n := neighbors[j];
    CountHead(neighbors, j);
    assert n !in order + queue;
    if inDegree[n] == 1 {
      PendingZero(g.edges, n, Elems(order));
      Enqueue(g, order, queue, n);
    }
  }

  lemma CountHead(s: seq<string>, j: nat)
    requires j < |s|
    ensures forall v :: Count(s[j..], v) == Count(s[j + 1..], v) + if v == s[j] then 1 else 0
  {
    assert s[j..] == [s[j]] + s[j + 1..];
  }

  lemma Enqueue(g: Graph, order: seq<string>, queue: seq<string>, v: string)
    requires Distinct(order + queue) && SourcesEmitted(g, order + queue, |order|) && v !in order + queue
    requires forall e :: e in g.edges && !e.back && e.target == v ==> e.source in Elems(order)
    ensures order + (queue + [v]) == (order + queue) + [v]
    ensures Distinct(order + (queue + [v])) && SourcesEmitted(g, order + (queue + [v]), |order|)
  {
    var seen := (order + queue) + [v];
    assert order + (queue + [v]) == seen;
    forall u, j | 0 <= j < |seen| && Arc(g, u, seen[j]) ensures EarlierThan(seen, u, |order|, j) {
      if j < |seen| - 1 {
        assert EarlierThan(order + queue, u, |order|, j);
        var i :| 0 <= i < j && i < |order| && (order + queue)[i] == u;
        assert seen[i] == u;
      } else {
        assert u in order;
        var i :| 0 <= i < |order| && order[i] == u;
        assert seen[i] == u;
      }
    }
  }

  lemma KahnStart(g: Graph, inDegree: map<string, nat>, queue: seq<string>)
    requires Valid(g) && queue == Roots(g, |g.nodes|) && Degrees(g, inDegree, {})
    ensures KahnState(g, inDegree, [], queue) && Degrees(g, inDegree, Elems([]))
  {
    RootsMeaning(g, |g.nodes|);
    assert [] + queue == queue && Elems<string>([]) == {};
    forall v | v in Ids(g) ensures v in queue <==> inDegree[v] == 0 {
      PendingZero(g.edges, v, {});
      var n :| n in g.nodes && n.id == v;
      var i :| 0 <= i < |g.nodes| && g.nodes[i] == n;
      assert Declared(g, v, |g.nodes|);
      if inDegree[v] == 0 {
        assert IsRoot(g, v);
      } else {
        var e :| e in g.edges && !e.back && e.target == v;
        assert Arc(g, e.source, v);
      }
    }
  }

  lemma KahnPop(g: Graph, inDegree: map<string, nat>, order: seq<string>, queue: seq<string>)
    requires Valid(g) && queue != []
    requires KahnState(g, inDegree, order, queue) && Degrees(g, inDegree, Elems(order))
    ensures KahnState(g, inDegree, order + [queue[0]], queue[1..])
    ensures queue[0] !in Elems(order)
    ensures forall v :: v in ForwardTargets(g.edges, queue[0]) ==> v in Ids(g)
    ensures Owes(g, order + [queue[0]], inDegree, ForwardTargets(g.edges, queue[0]))
  {
    var current := queue[0];
    var seen := order + queue;
    assert (order + [current]) + queue[1..] == seen;
    assert seen[|order|] == current;
    assert forall i :: 0 <= i < |order| ==> seen[i] == order[i];
    assert Elems(order + [current]) == Elems(order) + {current};
    ForwardTargetsMeaning(g.edges, current);
    forall v | v in Ids(g)
      ensures inDegree[v] == Pending(g.edges, v, Elems(order + [current])) + Count(ForwardTargets(g.edges, current), v)
    {
      PendingEmit(g.edges, v, Elems(order), current);
    }
    forall u, j | 0 <= j < |seen| && Arc(g, u, seen[j]) ensures EarlierThan(seen, u, |order| + 1, j) {
      assert EarlierThan(seen, u, |order|, j);
    }
  }

  /** An empty queue with nodes left over: every one of them still waits for another of them. */
  lemma KahnStuck(g: Graph, inDegree: map<string, nat>, order: seq<string>)
    requires Valid(g) && |order| != |g.nodes|
    requires KahnState(g, inDegree, order, []) && Degrees(g, inDegree, Elems(order))
    ensures Cyclic(g)
  {
    assert order + [] == order;
    StuckRest(g, order, Ids(g) - Elems(order));
    forall v | v in Ids(g) - Elems(order) ensures HasPredecessor(g, Ids(g) - Elems(order), v) {
      assert v !in order && inDegree[v] != 0;
      PendingZero(g.edges, v, Elems(order));
      var e :| e in g.edges && !e.back && e.target == v && e.source !in Elems(order);
      assert Arc(g, e.source, v);
    }
    StuckIsCyclic(g, Ids(g) - Elems(order));
  }

  lemma StuckRest(g: Graph, order: seq<string>, rest: set<string>)
    requires Valid(g) && |order| != |g.nodes| && Distinct(order)
    requires Elems(order) <= Ids(g) && rest == Ids(g) - Elems(order)
    ensures rest != {}
  {
    NodeCount(g);
    DistinctCard(order);
    assert Ids(g) == rest + Elems(order);
  }

  lemma KahnDone(g: Graph, inDegree: map<string, nat>, order: seq<string>)
    requires Valid(g) && |order| == |g.nodes|
    requires KahnState(g, inDegree, order, []) && Degrees(g, inDegree, Elems(order))
    ensures TopoOrder(g, order) && !Cyclic(g) && Roots(g, |g.nodes|) <= order
  {
    assert order + [] == order;
    NodeCount(g);
    DistinctCard(order);
    SubsetSameCard(Elems(order), Ids(g));
    forall i, j | 0 <= i < |order| && 0 <= j < |order| && Arc(g, order[i], order[j]) ensures i < j {
      assert EarlierThan(order, order[i], |order|, j);
    }
    TopoOrderIsAcyclic(g, order);
  }

  lemma SubsetSameCard<T>(a: set<T>, b: set<T>)
    requires a <= b && |a| == |b|
    ensures a == b
  {
    if x :| x in b && x !in a {
      Contained(a, b - {x});
    }
  }
}
