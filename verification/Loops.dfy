/**
 * executeLoops: the loop pass as it updates the shared maps, from the plan of each back-edge to the last downstream node.
 */
module Loops {
  import opened Options
  import opened Graphs
  import opened Skips
  import opened NodeRuns
  import opened LoopSpec
  import opened LoopFacts

  // ---------- Loop bodies and what lies downstream ----------

  /** All nodes from the back-edge's target through its source in topological order. */
  method BodyOf(order: seq<string>, edge: Edge) returns (body: seq<string>, ghost lo: nat, ghost hi: nat)
    requires Distinct(order) && edge.source in order && edge.target in order
    ensures lo <= hi <= |order| && body == order[lo..hi]
    ensures lo == First(order, edge) && hi == Past(order, edge)
  {
    ghost var t, s := Position(order, edge.target), Position(order, edge.source);
    var targetIdx, sourceIdx := 0, 0;
    for i := 0 to |order|
      invariant i > t ==> targetIdx == t
      invariant i > s ==> sourceIdx == s
    {
      if order[i] == edge.target {
        targetIdx := i;
      }
      if order[i] == edge.source {
        sourceIdx := i;
      }
    }
    body := [];
    for idx := 0 to |order|
      invariant body == if t <= s && idx > t then order[t..if idx <= s then idx else s + 1] else []
    {
      if targetIdx <= idx <= sourceIdx {
        body := body + [order[idx]];
      }
    }
    lo, hi := if t <= s then t else 0, if t <= s then s + 1 else 0;
  }

  /** What the search has visited so far was reached; arcs out of processed nodes were followed. */
  ghost predicate Visited(g: Graph, body: seq<string>, visited: set<string>) {
    forall n :: n in visited ==> n !in body && Reached(g, body, n)
  }

  ghost predicate Followed(g: Graph, body: seq<string>, visited: set<string>, n: string) {
    forall v :: Arc(g, n, v) ==> v in body || v in visited
  }

  lemma ReachOn(g: Graph, body: seq<string>, visited: set<string>, u: string, v: string)
    requires Valid(g) && Visited(g, body, visited)
    requires u in body || u in visited
    requires Arc(g, u, v) && v !in body
    ensures Reached(g, body, v)
  {
    if u in body {
      assert ReachedBy(g, body, v, [u, v]);
    } else {
      var p :| ReachedBy(g, body, u, p);
      assert ReachedBy(g, body, v, p + [v]);
    }
  }

  /** One node's out-edges in the breadth-first search. */
  method Follow(g: Graph, body: seq<string>, u: string, visited0: set<string>, queue0: seq<string>)
    returns (visited: set<string>, queue: seq<string>, ghost added: seq<string>)
    requires Valid(g) && Visited(g, body, visited0) && (u in body || u in visited0)
    ensures Visited(g, body, visited) && Followed(g, body, visited, u)
    ensures queue == queue0 + added && visited == visited0 + Elems(added)
    ensures Distinct(added) && Elems(added) !! visited0
  {
    hide Reached;
    visited, queue, added := visited0, queue0, [];
    var outgoing := EdgesFrom(g.edges, u);
    OutgoingArcs(g, u);
    for i := 0 to |outgoing|
      invariant Visited(g, body, visited)
      invariant queue == queue0 + added && visited == visited0 + Elems(added)
      invariant Distinct(added) && Elems(added) !! visited0
      invariant forall j :: 0 <= j < i && !outgoing[j].back ==> outgoing[j].target in body || outgoing[j].target in visited
    {
      var edge := outgoing[i];
      assert edge in outgoing;
      if !edge.back && edge.target !in body && edge.target !in visited {
        ReachOn(g, body, visited0, u, edge.target);
        visited := visited + {edge.target};
        queue := queue + [edge.target];
        added := added + [edge.target];
      }
    }
  }

  lemma OutgoingArcs(g: Graph, u: string)
    ensures forall v :: Arc(g, u, v) <==> exists e :: e in EdgesFrom(g.edges, u) && !e.back && e.target == v
    ensures forall e :: e in EdgesFrom(g.edges, u) && !e.back ==> Arc(g, u, e.target)
  {
    EdgesFromMeaning(g.edges, u);
  }

  /** Breadth-first search from the body through forward edges, listed in topological order. */
  method FindDownstream(g: Graph, order: seq<string>, body: seq<string>, ghost lo: nat, ghost hi: nat) returns (result: seq<string>)
    requires Valid(g) && TopoOrder(g, order) && lo <= hi <= |order| && body == order[lo..hi]
    ensures forall loop: Loop :: loop.body == body && loop.downstream == result ==> Covers(g, order, loop, lo, hi)
  {
    hide Reached, Arc, Walk, Increasing, Valid, Covers;
    var visited, queue := {}, [];
    assert forall n :: n in body ==> n in Elems(order);
    for i := 0 to |body|
      invariant Visited(g, body, visited) && visited == Elems(queue) && Distinct(queue)
      invariant forall j :: 0 <= j < i ==> Followed(g, body, visited, body[j])
    {
      assert body[i] in body;
      ghost var added, before, queue0 := [], visited, queue;
      visited, queue, added := Follow(g, body, body[i], visited, queue);
      DistinctConcat(queue0, added);
      FollowedGrows(g, body, before, visited);
    }
    ghost var processed := {};
    while queue != []
      invariant Visited(g, body, visited) && visited == processed + Elems(queue)
      invariant Distinct(queue) && processed !! Elems(queue)
      invariant forall n :: n in body || n in processed ==> Followed(g, body, visited, n)
      decreases Ids(g) - processed
    {
      var curr := queue[0];
      assert curr in Elems(queue) && queue == [curr] + queue[1..];
      VisitedInGraph(g, body, visited);
      queue := queue[1..];
      ghost var added, before, queue0 := [], visited, queue;
      visited, queue, added := Follow(g, body, curr, visited, queue);
      DistinctConcat(queue0, added);
      FollowedGrows(g, body, before, visited);
      processed := processed + {curr};
    }
    result := InOrder(order, visited);
    DownstreamCovers(g, order, body, lo, hi, visited, result);
  }

  /** The visited nodes, listed in topological order. */
  method InOrder(order: seq<string>, visited: set<string>) returns (result: seq<string>)
    requires Distinct(order)
    ensures Increasing(order, result) && forall n :: n in result <==> n in visited && n in order
  {
    result := [];
    for i := 0 to |order|
      invariant forall n :: n in result <==> n in visited && n in order[..i]
      invariant Increasing(order, result)
    {
      if order[i] in visited {
        IncreasingMore(order, result, i);
        result := result + [order[i]];
      }
    }
    assert order[..|order|] == order;
  }

  lemma DistinctConcat(a: seq<string>, b: seq<string>)
    requires Distinct(a) && Distinct(b) && Elems(a) !! Elems(b)
    ensures Distinct(a + b) && Elems(a + b) == Elems(a) + Elems(b)
  {
    forall i, j | 0 <= i < j < |a + b| ensures (a + b)[i] != (a + b)[j] {
      if i < |a| <= j {
        assert (a + b)[i] in Elems(a) && (a + b)[j] in Elems(b);
      }
    }
  }

  lemma FollowedGrows(g: Graph, body: seq<string>, before: set<string>, after: set<string>)
    requires before <= after
    ensures forall n :: Followed(g, body, before, n) ==> Followed(g, body, after, n)
  {
  }

  lemma VisitedInGraph(g: Graph, body: seq<string>, visited: set<string>)
    requires Visited(g, body, visited)
    ensures visited <= Ids(g)
  {
    forall n | n in visited ensures n in Ids(g) {
      var p :| ReachedBy(g, body, n, p);
    }
  }

  lemma IncreasingMore(order: seq<string>, ns: seq<string>, i: nat)
    requires i < |order| && Distinct(order) && Increasing(order, ns) && forall n :: n in ns ==> n in order[..i]
    ensures Increasing(order, ns + [order[i]])
  {
    var ns' := ns + [order[i]];
    forall k, j, a, b | 0 <= k < j < |ns'| && 0 <= a < |order| && 0 <= b < |order| && order[a] == ns'[k] && order[b] == ns'[j]
      ensures a < b
    {
      if j == |ns| {
        assert ns'[k] in order[..i];
        var c :| 0 <= c < i && order[c] == ns'[k];
      }
    }
  }

  lemma DownstreamCovers(
    g: Graph, order: seq<string>, body: seq<string>, lo: nat, hi: nat, visited: set<string>, result: seq<string>)
    requires Valid(g) && TopoOrder(g, order) && lo <= hi <= |order| && body == order[lo..hi]
    requires Visited(g, body, visited)
    requires forall n :: n in body || n in visited ==> Followed(g, body, visited, n)
    requires Increasing(order, result) && forall n :: n in result <==> n in visited && n in order
    ensures forall loop: Loop :: loop.body == body && loop.downstream == result ==> Covers(g, order, loop, lo, hi)
  {
    VisitedInGraph(g, body, visited);
    forall n | n in visited ensures n in result {
      assert n in Elems(order);
    }
    forall n | n in result ensures n in order[hi..] {
      ReachedIsLater(g, order, body, lo, hi, n);
    }
  }

  /** Everything downstream comes after the back-edge's source. */
  lemma ReachedIsLater(g: Graph, order: seq<string>, body: seq<string>, lo: nat, hi: nat, n: string)
    requires Valid(g) && TopoOrder(g, order) && lo <= hi <= |order| && body == order[lo..hi]
    requires Reached(g, body, n)
    ensures n in order[hi..]
  {
    var p :| ReachedBy(g, body, n, p);
    PathAscends(g, order, p, 0, |p| - 1);
    var i :| 0 <= i < |body| && body[i] == p[0];
    assert order[lo + i] == p[0];
    var j := Position(order, n);
    assert n !in body && j >= lo;
    assert order[hi..][j - hi] == n;
  }

  // ---------- The pass ----------

  ghost function BackEdges(edges: seq<Edge>): seq<Edge> {
    if edges == [] then []
    else BackEdges(edges[..|edges| - 1]) + if edges[|edges| - 1].back then [edges[|edges| - 1]] else []
  }

  function Limit(e: Edge): nat {
    if e.maxIterations.Some? && e.maxIterations.value > 0 then e.maxIterations.value else 10
  }

  /** The loops of a graph: one for each back-edge, in graph order, with exactly its interval and what that reaches. */
  ghost predicate PlanOf(g: Graph, order: seq<string>, backEdges: seq<Edge>, loops: seq<Loop>) {
    && |loops| == |backEdges|
    && forall i :: 0 <= i < |loops| ==>
         && loops[i].edge == backEdges[i]
         && loops[i].maxIter == (var limit := loops[i].edge.maxIterations; if limit.Some? && limit.value > 0 then limit.value else 10)
         && Planned(g, order, loops[i])
  }

  /** No stale value: a consistent dataflow before the loops is consistent after them. */
  ghost predicate KeepsDataflow(en: Engine, before: Run, after: Run) {
    DataflowConsistent(en, before.outputs, before.states) ==> DataflowConsistent(en, after.outputs, after.states)
  }

  /** Root outputs survive when every back-edge target has a forward in-edge. */
  ghost predicate KeepsRoots(g: Graph, before: map<string, Ports>, after: map<string, Ports>) {
    (forall e :: e in g.edges && e.back ==> Fed(g, e.target)) ==>
      forall n :: Topo.IsRoot(g, n) ==> SameNode(before, after, n)
  }

  class LoopRunner {
    const en: Engine
    const conds: Conditions
    const nodeMap: map<string, Node>
    var nodeOutputs: map<string, Ports>
    var state: Ports
    var steps: seq<LoopStep>
    var iterationCounts: map<string, nat>
    var skipped: set<string>
    ghost var states: set<Ports>

    constructor (
      en: Engine, conds: Conditions, nodeMap: map<string, Node>,
      nodeOutputs: map<string, Ports>, state: Ports, skipped: set<string>, ghost states: set<Ports>)
      requires Valid(en.g) && nodeMap.Keys == Ids(en.g)
      requires forall id :: id in nodeMap ==> nodeMap[id] == NodeOf(en.g, id)
      ensures Ready() && this.en == en && this.conds == conds
      ensures Now() == Run(nodeOutputs, state, [], map[], skipped, states)
    {
      this.en, this.conds, this.nodeMap := en, conds, nodeMap;
      this.nodeOutputs, this.state, this.steps, this.iterationCounts, this.skipped := nodeOutputs, state, [], map[], skipped;
      this.states := states;
    }

    ghost predicate Ready() {
      Valid(en.g) && nodeMap.Keys == Ids(en.g) && forall id :: id in nodeMap ==> nodeMap[id] == NodeOf(en.g, id)
    }

    ghost function Now(): Run
      reads this
    {
      Run(nodeOutputs, state, steps, iterationCounts, skipped, states)
    }

    ghost function Ended(ok: bool): Result
      reads this
    {
      if ok then Ok(Now()) else Err(Now())
    }

    /** Resolve, inject the back-edge value, execute, store: the same lines in both passes over nodes. */
    method ExecuteNode(nodeID: string, iteration: nat, injected: Option<(string, Value)>) returns (ok: bool)
      requires Ready() && nodeID in Ids(en.g)
      modifies this`nodeOutputs, this`state, this`steps, this`states
      ensures Ended(ok) == RunNode(en, old(Now()), nodeID, iteration, injected)
    {
      var node := nodeMap[nodeID];
      var resolvedInputs := ResolveInputs(node, nodeOutputs, EdgesInto(en.g.edges, nodeID), state);
      if injected.Some? {
        resolvedInputs := resolvedInputs[injected.value.0 := injected.value.1];
      }
      states := states + {state};
      var result := en.exec(nodeID, resolvedInputs, Restrict(state, en.looks(nodeID)));
      if result.None? {
        steps := steps + [Failed(nodeID, iteration, resolvedInputs)];
        return false;
      }
      nodeOutputs := nodeOutputs[nodeID := result.value];
      state := ApplyStateWrites(node.stateWrites, result.value, state);
      steps := steps + [Completed(nodeID, iteration, resolvedInputs, result.value)];
      return true;
    }

    method ExecuteBody(body: seq<string>, edge: Edge, carried: Option<Value>, iteration: nat) returns (ok: bool)
      requires Ready() && Known(en, body)
      modifies this`nodeOutputs, this`state, this`steps, this`states
      ensures Ended(ok) == RunBody(en, old(Now()), body, edge, carried, iteration)
    {
      ghost var start := Now();
      for i := 0 to |body|
        invariant RunBody(en, start, body[..i], edge, carried, iteration) == Ok(Now())
      {
        var nodeID := body[i];
        assert body[..i + 1][..i] == body[..i];
        if nodeMap[nodeID].kind == Input {
          continue;
        }
        ok := ExecuteNode(nodeID, iteration,
                          if nodeID == edge.target && carried.Some? then Some((edge.targetPort, carried.value)) else None);
        if !ok {
          BodyFailure(en, start, body, edge, carried, iteration, i + 1);
          return false;
        }
      }
      assert body[..|body|] == body;
      return true;
    }

    method ExecuteDownstream(ns: seq<string>) returns (ok: bool)
      requires Ready() && Known(en, ns)
      modifies this`nodeOutputs, this`state, this`steps, this`states
      ensures Ended(ok) == RunDownstream(en, old(Now()), ns)
    {
      ghost var start := Now();
      for i := 0 to |ns|
        invariant RunDownstream(en, start, ns[..i]) == Ok(Now())
      {
        assert ns[..i + 1][..i] == ns[..i];
        ok := ExecuteNode(ns[i], 0, None);
        if !ok {
          DownstreamFailure(en, start, ns, i + 1);
          return false;
        }
      }
      assert ns[..|ns|] == ns;
      return true;
    }

    method Iterate(loop: Loop) returns (ok: bool)
      requires Ready() && Known(en, loop.body) && Known(en, loop.downstream)
      modifies this
      ensures Ended(ok) == RunLoop(en, conds, old(Now()), loop)
    {
      ghost var start := Now();
      var loopRan := false;
      var iteration := 1;
      while iteration <= loop.maxIter
        invariant 1 <= iteration <= loop.maxIter + 1
        invariant LoopFrom(en, conds, start, loop, 1) == LoopFrom(en, conds, Now(), loop, iteration)
        invariant loopRan <==> iteration > 1
        invariant loopRan ==> Entered(conds, start, loop)
        invariant !loopRan ==> Now() == start
      {
        var edge := loop.edge;
        var again := conds(edge.id, if edge.source in nodeOutputs then Some(nodeOutputs[edge.source]) else None, state);
        if again.None? {
          return false;
        }
        if !again.value {
          break;
        }
        ghost var before := Now();
        iterationCounts := iterationCounts[edge.id := iteration];
        var carried := Carried(nodeOutputs, edge);
        nodeOutputs := Without(nodeOutputs, loop.body);
        skipped := skipped - Elems(loop.body);
        ok := ExecuteBody(loop.body, edge, carried, iteration);
        assert Ended(ok) == Iteration(en, before, loop, iteration);
        if !ok {
          return false;
        }
        loopRan := true;
        iteration := iteration + 1;
      }
      assert LoopFrom(en, conds, start, loop, 1) == Ok(Now());
      if loopRan {
        ok := ExecuteDownstream(loop.downstream);
        return ok;
      }
      assert !Entered(conds, start, loop);
      return true;
    }

    /** One loop per back-edge, run in graph order; nothing happens without back-edges, and a cycle is an error. */
    method ExecuteLoops() returns (ok: bool, ghost order: seq<string>, ghost loops: seq<Loop>)
      requires Ready()
      modifies this
      ensures BackEdges(en.g.edges) == [] ==> ok && Now() == old(Now())
      ensures BackEdges(en.g.edges) != [] && Cyclic(en.g) ==> !ok && Now() == old(Now())
      ensures BackEdges(en.g.edges) != [] && !Cyclic(en.g) ==>
                && TopoOrder(en.g, order) && PlanOf(en.g, order, BackEdges(en.g.edges), loops)
                && KnownLoops(en, loops) && Ended(ok) == RunLoops(en, conds, old(Now()), loops)
                && (forall l :: l in loops ==> HoldsPaths(en.g, l))
      ensures ok ==> KeepsDataflow(en, old(Now()), Now()) && KeepsRoots(en.g, old(nodeOutputs), nodeOutputs)
    {
      hide KeepsDataflow, KeepsRoots, Cyclic, Valid, PlanOf, TopoOrder, RunLoop, HoldsPaths;
      order, loops := [], [];
      var backEdges := CollectBackEdges(en.g.edges);
      if |backEdges| == 0 {
        NothingChanges(en, Now());
        return true, [], [];
      }
      var sorted := Topo.TopologicalSort(en.g);
      if sorted.None? {
        return false, [], [];
      }
      var planned := PlanLoops(en.g, sorted.value, backEdges);
      order, loops := sorted.value, planned;
      ghost var start := Now();
      PlanKnown(en, order, loops);
      for i := 0 to |planned|
        invariant KnownLoops(en, planned[..i]) && RunLoops(en, conds, start, planned[..i]) == Ok(Now())
      {
        assert planned[..i + 1][..i] == planned[..i] && planned[i] in planned;
        ok := Iterate(planned[i]);
        if !ok {
          LoopsFailure(en, conds, start, planned, i + 1);
          return;
        }
      }
      assert planned[..|planned|] == planned;
      ok := true;
      PlanGuarantees(en, conds, order, loops, start);
    }
  }

  method CollectBackEdges(edges: seq<Edge>) returns (backEdges: seq<Edge>)
    ensures backEdges == BackEdges(edges)
  {
    backEdges := [];
    for i := 0 to |edges|
      invariant backEdges == BackEdges(edges[..i])
    {
      assert edges[..i + 1][..i] == edges[..i];
      if edges[i].back {
        backEdges := backEdges + [edges[i]];
      }
    }
    assert edges[..|edges|] == edges;
  }

  lemma NothingChanges(en: Engine, r: Run)
    ensures KeepsDataflow(en, r, r) && KeepsRoots(en.g, r.outputs, r.outputs)
  {
  }

  lemma {:induction false} BackEdgesMeaning(edges: seq<Edge>)
    ensures forall e :: e in BackEdges(edges) <==> e in edges && e.back
  {
    if edges != [] {
      BackEdgesMeaning(edges[..|edges| - 1]);
      assert forall e :: e in edges <==> e in edges[..|edges| - 1] || e == edges[|edges| - 1];
    }
  }

  lemma {:induction false} BodyFailure(en: Engine, r: Run, ns: seq<string>, edge: Edge, carried: Option<Value>, iteration: nat, k: nat)
    requires Known(en, ns) && k <= |ns| && RunBody(en, r, ns[..k], edge, carried, iteration).Err?
    ensures RunBody(en, r, ns, edge, carried, iteration) == RunBody(en, r, ns[..k], edge, carried, iteration)
    decreases |ns|
  {
    if k == |ns| {
      assert ns[..k] == ns;
    } else {
      assert ns[..|ns| - 1][..k] == ns[..k];
      BodyFailure(en, r, ns[..|ns| - 1], edge, carried, iteration, k);
    }
  }

  lemma {:induction false} DownstreamFailure(en: Engine, r: Run, ns: seq<string>, k: nat)
    requires Known(en, ns) && k <= |ns| && RunDownstream(en, r, ns[..k]).Err?
    ensures RunDownstream(en, r, ns) == RunDownstream(en, r, ns[..k])
    decreases |ns|
  {
    if k == |ns| {
      assert ns[..k] == ns;
    } else {
      assert ns[..|ns| - 1][..k] == ns[..k];
      DownstreamFailure(en, r, ns[..|ns| - 1], k);
    }
  }

  lemma {:induction false} LoopsFailure(en: Engine, conds: Conditions, r: Run, loops: seq<Loop>, k: nat)
    requires KnownLoops(en, loops) && k <= |loops| && RunLoops(en, conds, r, loops[..k]).Err?
    ensures RunLoops(en, conds, r, loops) == RunLoops(en, conds, r, loops[..k])
    decreases |loops|
  {
    if k == |loops| {
      assert loops[..k] == loops;
    } else {
      assert loops[..|loops| - 1][..k] == loops[..k];
      LoopsFailure(en, conds, r, loops[..|loops| - 1], k);
    }
  }

  method PlanLoops(g: Graph, order: seq<string>, backEdges: seq<Edge>) returns (loops: seq<Loop>)
    requires Valid(g) && TopoOrder(g, order) && backEdges == BackEdges(g.edges)
    ensures PlanOf(g, order, backEdges, loops)
  {
    hide Planned, TopoOrder, Valid;
    BackEdgesMeaning(g.edges);
    loops := [];
    for i := 0 to |backEdges|
      invariant PlanOf(g, order, backEdges[..i], loops)
    {
      assert backEdges[i] in backEdges;
      var loop := PlanLoop(g, order, backEdges[i]);
      loops := loops + [loop];
    }
    assert backEdges[..|backEdges|] == backEdges;
  }

  method PlanLoop(g: Graph, order: seq<string>, be: Edge) returns (loop: Loop)
    requires Valid(g) && TopoOrder(g, order) && be in g.edges && be.back
    ensures loop.edge == be && loop.maxIter == Limit(be) && Planned(g, order, loop)
  {
    assert be.source in Elems(order) && be.target in Elems(order);
    var body, lo, hi := BodyOf(order, be);
    var downstream := FindDownstream(g, order, body, lo, hi);
    loop := Loop(be, body, Limit(be), downstream);
    assert Covers(g, order, loop, lo, hi);
  }

  lemma PlanKnown(en: Engine, order: seq<string>, loops: seq<Loop>)
    requires Valid(en.g) && TopoOrder(en.g, order) && PlanOf(en.g, order, BackEdges(en.g.edges), loops)
    ensures KnownLoops(en, loops) && forall l :: l in loops ==> HoldsPaths(en.g, l)
  {
    hide HoldsPaths, Planned, Known;
    forall l | l in loops ensures Known(en, l.body) && Known(en, l.downstream) && HoldsPaths(en.g, l) {
      var i :| 0 <= i < |loops| && loops[i] == l;
      assert Planned(en.g, order, l);
      PlannedKnown(en, order, l);
      BodyHoldsPaths(en.g, order, l);
    }
  }

  lemma PlannedKnown(en: Engine, order: seq<string>, l: Loop)
    requires TopoOrder(en.g, order) && Planned(en.g, order, l)
    ensures Known(en, l.body) && Known(en, l.downstream)
  {
    assert forall n :: n in order ==> n in Elems(order);
  }

  lemma PlanGuarantees(en: Engine, conds: Conditions, order: seq<string>, loops: seq<Loop>, r: Run)
    requires Valid(en.g) && TopoOrder(en.g, order) && Topo.Roots(en.g, |en.g.nodes|) <= order
    requires PlanOf(en.g, order, BackEdges(en.g.edges), loops) && KnownLoops(en, loops) && RunLoops(en, conds, r, loops).Ok?
    ensures KeepsDataflow(en, r, RunLoops(en, conds, r, loops).run)
    ensures KeepsRoots(en.g, r.outputs, RunLoops(en, conds, r, loops).run.outputs)
  {
    hide DataflowConsistent, Covers;
    if DataflowConsistent(en, r.outputs, r.states) {
      LoopsConsistent(en, conds, order, loops, r);
    }
    if forall e :: e in en.g.edges && e.back ==> Fed(en.g, e.target) {
      forall n | Topo.IsRoot(en.g, n) ensures SameNode(r.outputs, RunLoops(en, conds, r, loops).run.outputs, n) {
        RootsSurvive(en, conds, order, loops, r, n);
      }
    }
  }
}
