/** Layering by longest forward paths. */
module Layers {
  import opened Options
  import opened Graphs

  // A node's group index is the length of the longest forward path ending at it.

  ghost function Last(p: seq<string>): string
    requires p != []
  {
    p[|p| - 1]
  }

  ghost predicate PathTo(g: Graph, v: string, p: seq<string>) {
    Walk(g, p) && Last(p) == v
  }

  /** The longest forward path ending at v has exactly k edges. */
  ghost predicate LongestPath(g: Graph, v: string, k: nat) {
    && (exists p :: PathTo(g, v, p) && |p| == k + 1)
    && (forall p :: PathTo(g, v, p) ==> |p| <= k + 1)
  }

  ghost predicate InGroup(groups: seq<seq<string>>, v: string, k: nat) {
    k < |groups| && v in groups[k]
  }

  /** Groups without repetitions that hold every node exactly once. */
  ghost predicate Partition(g: Graph, groups: seq<seq<string>>) {
    && (forall k :: 0 <= k < |groups| ==> groups[k] != [] && Distinct(groups[k]))
    && (forall v, k :: InGroup(groups, v, k) ==> v in Ids(g))
    && (forall v :: v in Ids(g) ==> exists k :: InGroup(groups, v, k))
    && (forall v, k, m :: InGroup(groups, v, k) && InGroup(groups, v, m) ==> k == m)
  }

  ghost predicate LayeredByLongestPath(g: Graph, groups: seq<seq<string>>) {
    forall v, k {:trigger LongestPath(g, v, k)} :: InGroup(groups, v, k) ==> LongestPath(g, v, k)
  }

  ghost function Deps(edges: seq<Edge>, v: string): set<string> {
    set e | e in edges && !e.back && e.target == v :: e.source
  }

  ghost predicate LayerState(g: Graph, groups: seq<seq<string>>, completed: set<string>, remaining: set<string>) {
    && completed + remaining == Ids(g) && completed !! remaining
    && (forall k :: 0 <= k < |groups| ==> groups[k] != [] && Distinct(groups[k]))
    && (forall v, k :: InGroup(groups, v, k) ==> v in completed)
    && (forall v :: v in completed ==> exists k :: InGroup(groups, v, k))
    && (forall v, k, m :: InGroup(groups, v, k) && InGroup(groups, v, m) ==> k == m)
    && LayeredByLongestPath(g, groups)
    && (groups != [] ==>
          forall v {:trigger HeldBack(g, v, completed - Elems(groups[|groups| - 1]))} ::
            v in remaining ==> HeldBack(g, v, completed - Elems(groups[|groups| - 1])))
  }

  method CollectDeps(g: Graph) returns (deps: map<string, set<string>>, all: set<string>)
    requires Valid(g)
    ensures all == deps.Keys == Ids(g)
    ensures forall v :: v in deps ==> deps[v] == Deps(g.edges, v)
  {
    deps, all := NoDeps(g);
    for i := 0 to |g.edges|
      invariant deps.Keys == Ids(g)
      invariant forall v :: v in deps ==> deps[v] == Deps(g.edges[..i], v)
    {
      var edge := g.edges[i];
      assert edge in g.edges;
      DepsStep(g.edges, i);
      if edge.back {
        continue;
      }
      deps := deps[edge.target := deps[edge.target] + {edge.source}];
    }
    assert g.edges[..|g.edges|] == g.edges;
  }

  method NoDeps(g: Graph) returns (deps: map<string, set<string>>, all: set<string>)
    ensures all == deps.Keys == Ids(g)
    ensures forall v :: v in deps ==> deps[v] == {}
  {
    deps, all := map[], {};
    for i := 0 to |g.nodes|
      invariant forall v :: v in deps <==> Declared(g, v, i)
      invariant forall v :: v in deps ==> deps[v] == {}
      invariant all == deps.Keys
    {
      assert Declared(g, g.nodes[i].id, i + 1);
      assert forall v :: Declared(g, v, i + 1) <==> Declared(g, v, i) || v == g.nodes[i].id;
      deps := deps[g.nodes[i].id := {}];
      all := all + {g.nodes[i].id};
    }
    AllDeclared(g);
  }

  lemma DepsStep(edges: seq<Edge>, i: nat)
    requires i < |edges|
    ensures forall v :: Deps(edges[..i + 1], v) ==
                        Deps(edges[..i], v) + if !edges[i].back && edges[i].target == v then {edges[i].source} else {}
  {
    assert edges[..i + 1] == edges[..i] + [edges[i]];
  }

  /** One sweep over the remaining nodes; Go ranges over the map in an arbitrary order. */
  method CollectReady(g: Graph, deps: map<string, set<string>>, completed: set<string>, remaining: set<string>)
    returns (ready: seq<string>)
    requires remaining <= deps.Keys
    requires forall v :: v in deps ==> deps[v] == Deps(g.edges, v)
    ensures Distinct(ready)
    ensures forall v :: v in ready <==> v in remaining && !HeldBack(g, v, completed)
  {
    ready := [];
    var unseen := remaining;
    while unseen != {}
      invariant unseen <= remaining && Distinct(ready)
      invariant forall v :: v in ready <==> v in remaining - unseen && !HeldBack(g, v, completed)
      decreases unseen
    {
      var nodeID :| nodeID in unseen;
      unseen := unseen - {nodeID};
      DepsMeaning(g, nodeID, completed);
      if forall dep | dep in deps[nodeID] :: dep in completed {
        ready := ready + [nodeID];
      }
    }
  }

  lemma DepsMeaning(g: Graph, v: string, completed: set<string>)
    ensures (forall dep :: dep in Deps(g.edges, v) ==> dep in completed) <==> !HeldBack(g, v, completed)
  {
    if HeldBack(g, v, completed) {
      var u :| Arc(g, u, v) && u !in completed;
      assert u in Deps(g.edges, v);
    }
    forall dep | dep in Deps(g.edges, v) ensures Arc(g, dep, v) {
    }
  }

  method ParallelGroups(g: Graph) returns (r: Option<seq<seq<string>>>)
    requires Valid(g)
    ensures r.Some? <==> !Cyclic(g)
    ensures r.Some? ==> Partition(g, r.value) && LayeredByLongestPath(g, r.value)
  {
    var deps, remaining := CollectDeps(g);
    var completed: set<string> := {};
    var groups: seq<seq<string>> := [];
    while remaining != {}
      invariant LayerState(g, groups, completed, remaining)
      decreases remaining
    {
      var ready := CollectReady(g, deps, completed, remaining);
      if ready == [] {
        NoneReady(g, completed, remaining);
        return None;
      }
      NextLayer(g, groups, completed, remaining, ready);
      groups := groups + [ready];
      completed := completed + Elems(ready);
      assert ready[0] in Elems(ready) && ready[0] in remaining;
      remaining := remaining - Elems(ready);
    }
    LayersDone(g, groups, completed);
    return Some(groups);
  }

  lemma NoneReady(g: Graph, completed: set<string>, remaining: set<string>)
    requires Valid(g) && completed + remaining == Ids(g) && remaining != {}
    requires forall v {:trigger HeldBack(g, v, completed)} :: v in remaining ==> HeldBack(g, v, completed)
    ensures Cyclic(g)
  {
    forall v | v in remaining ensures HasPredecessor(g, remaining, v) {
      assert HeldBack(g, v, completed);
      var u :| Arc(g, u, v) && u !in completed;
      assert u in Ids(g);
    }
    StuckIsCyclic(g, remaining);
  }

  lemma NextLayer(g: Graph, groups: seq<seq<string>>, completed: set<string>, remaining: set<string>, ready: seq<string>)
    requires Valid(g) && LayerState(g, groups, completed, remaining)
    requires ready != [] && Distinct(ready)
    requires forall v :: v in ready <==> v in remaining && !HeldBack(g, v, completed)
    ensures LayerState(g, groups + [ready], completed + Elems(ready), remaining - Elems(ready))
  {
    var groups' := groups + [ready];
    var k := |groups|;
    forall v | v in ready ensures LongestPath(g, v, k) {
      ReadyLongest(g, groups, completed, remaining, v);
    }
    assert forall v, m :: InGroup(groups', v, m) <==> InGroup(groups, v, m) || (m == k && v in ready);
    forall v | v in completed + Elems(ready) ensures exists m :: InGroup(groups', v, m) {
      if v in completed {
        var m :| InGroup(groups, v, m);
        assert InGroup(groups', v, m);
      } else {
        assert InGroup(groups', v, k);
      }
    }
    assert completed + Elems(ready) - Elems(ready) == completed;
  }

  /** A node that becomes ready in round k has a longest path of k edges. */
  lemma ReadyLongest(g: Graph, groups: seq<seq<string>>, completed: set<string>, remaining: set<string>, v: string)
    requires Valid(g) && LayerState(g, groups, completed, remaining)
    requires v in remaining && !HeldBack(g, v, completed)
    ensures LongestPath(g, v, |groups|)
  {
    PathHere(g, groups, completed, remaining, v);
    forall p | PathTo(g, v, p) ensures |p| <= |groups| + 1 {
      NoLonger(g, groups, completed, remaining, v, p);
    }
  }

  lemma PathHere(g: Graph, groups: seq<seq<string>>, completed: set<string>, remaining: set<string>, v: string)
    requires Valid(g) && LayerState(g, groups, completed, remaining)
    requires v in remaining && !HeldBack(g, v, completed)
    ensures exists p :: PathTo(g, v, p) && |p| == |groups| + 1
  {
    var k := |groups|;
    if k == 0 {
      assert PathTo(g, v, [v]);
    } else {
      var before := completed - Elems(groups[k - 1]);
      assert HeldBack(g, v, before);
      var u :| Arc(g, u, v) && u !in before;
      assert InGroup(groups, u, k - 1) && LongestPath(g, u, k - 1);
      var p :| PathTo(g, u, p) && |p| == k;
      assert PathTo(g, v, p + [v]);
    }
  }

  lemma NoLonger(
    g: Graph, groups: seq<seq<string>>, completed: set<string>, remaining: set<string>, v: string, p: seq<string>)
    requires Valid(g) && LayerState(g, groups, completed, remaining)
    requires v in remaining && !HeldBack(g, v, completed) && PathTo(g, v, p)
    ensures |p| <= |groups| + 1
  {
    if |p| > 1 {
      var u := p[|p| - 2];
      assert Arc(g, u, p[|p| - 1]);
      assert u in completed;
      var m: nat :| InGroup(groups, u, m);
      assert LongestPath(g, u, m);
      assert PathTo(g, u, p[..|p| - 1]);
    }
  }

  /** Every forward edge leads to a strictly later group. */
  lemma ArcsCrossGroups(g: Graph, groups: seq<seq<string>>, u: string, v: string, k: nat, m: nat)
    requires Valid(g) && LayeredByLongestPath(g, groups)
    requires Arc(g, u, v) && InGroup(groups, u, k) && InGroup(groups, v, m)
    ensures k < m
  {
    assert LongestPath(g, u, k);
    var p :| PathTo(g, u, p) && |p| == k + 1;
    assert PathTo(g, v, p + [v]);
    assert LongestPath(g, v, m);
  }

  ghost function GroupOf(groups: seq<seq<string>>, v: string): nat
    requires exists k :: InGroup(groups, v, k)
  {
    var k: nat :| InGroup(groups, v, k);
    k
  }

  lemma LayersDone(g: Graph, groups: seq<seq<string>>, completed: set<string>)
    requires Valid(g) && LayerState(g, groups, completed, {})
    ensures Partition(g, groups) && !Cyclic(g)
  {
    assert completed == Ids(g);
    var rank := map v | v in completed :: GroupOf(groups, v) as int;
    forall u, v | Arc(g, u, v) ensures u in rank && v in rank && rank[u] < rank[v] {
      assert u in completed && v in completed;
      ArcsCrossGroups(g, groups, u, v, rank[u], rank[v]);
    }
    RankedIsAcyclic(g, rank);
  }
}
