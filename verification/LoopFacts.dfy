/** What the loop pass guarantees. */
module LoopFacts {
  import opened Options
  import opened Graphs
  import opened Skips
  import opened NodeRuns
  import opened LoopSpec
  import Topo

  // Dataflow consistency, untouched roots, bounded iterations.

  // ---------- Dataflow consistency ----------

  lemma ClearKeepsFresh(
    en: Engine, order: seq<string>, loop: Loop, lo: nat, hi: nat, outputs: map<string, Ports>, states: set<Ports>)
    requires Covers(en.g, order, loop, lo, hi)
    requires FreshExcept(en, outputs, states, Elems(loop.downstream))
    ensures FreshExcept(en, Without(outputs, loop.body), states, Elems(loop.downstream))
  {
    hide Fresh, TopoOrder, Increasing;
    var cleared := Without(outputs, loop.body);
    forall m | m in cleared && m in Ids(en.g) && m !in Elems(loop.downstream) && NodeOf(en.g, m).kind != Input
      ensures Fresh(en, cleared, states, m)
    {
      FreshIsLocal(en, outputs, cleared, states, states, m);
    }
  }

  /** A successor inside the body of the body's k-th node comes after it. */
  lemma BodyOrder(en: Engine, order: seq<string>, loop: Loop, lo: nat, hi: nat, k: nat, v: string)
    requires Covers(en.g, order, loop, lo, hi) && k < |loop.body| && Arc(en.g, loop.body[k], v) && v in loop.body
    ensures v in loop.body[k + 1..]
  {
    var i :| 0 <= i < |loop.body| && loop.body[i] == v;
    assert order[lo + k] == loop.body[k] && order[lo + i] == v;
    assert loop.body[k + 1..][i - k - 1] == v;
  }

  lemma {:induction false} BodyKeepsFresh(
    en: Engine, order: seq<string>, loop: Loop, lo: nat, hi: nat, r: Run, carried: Option<Value>, iteration: nat, k: nat)
    requires Valid(en.g) && Covers(en.g, order, loop, lo, hi) && Known(en, loop.body) && k <= |loop.body|
    requires loop.edge in en.g.edges && loop.edge.back
    requires forall n :: n in loop.body ==> n !in r.outputs
    requires FreshExcept(en, r.outputs, r.states, Elems(loop.downstream))
    requires RunBody(en, r, loop.body[..k], loop.edge, carried, iteration).Ok?
    ensures var r' := RunBody(en, r, loop.body[..k], loop.edge, carried, iteration).run;
            FreshExcept(en, r'.outputs, r'.states, Elems(loop.downstream)) && forall n :: n in loop.body[k..] ==> n !in r'.outputs
  {
    hide Fresh, Resolve, Written, Valid, Covers;
    if k > 0 {
      assert loop.body[..k][..k - 1] == loop.body[..k - 1];
      BodyKeepsFresh(en, order, loop, lo, hi, r, carried, iteration, k - 1);
      var r1 := RunBody(en, r, loop.body[..k - 1], loop.edge, carried, iteration).run;
      var n := loop.body[k - 1];
      assert loop.body[k - 1..] == [n] + loop.body[k..];
      if NodeOf(en.g, n).kind != Input {
        BodyNode(en, order, loop, lo, hi, k - 1);
        forall v | Arc(en.g, n, v) && v in r1.outputs ensures v in Elems(loop.downstream) {
          BodyClosed(en, order, loop, lo, hi, n, v);
          if v in loop.body {
            BodyOrder(en, order, loop, lo, hi, k - 1, v);
          }
        }
        var injected := if n == loop.edge.target && carried.Some? then Some((loop.edge.targetPort, carried.value)) else None;
        RunNodeFresh(en, r1, n, iteration, injected, Elems(loop.downstream));
        assert Elems(loop.downstream) - {n} == Elems(loop.downstream);
      }
    }
  }

  lemma BodyClosed(en: Engine, order: seq<string>, loop: Loop, lo: nat, hi: nat, n: string, v: string)
    requires Covers(en.g, order, loop, lo, hi) && n in loop.body && Arc(en.g, n, v)
    ensures v in loop.body || v in loop.downstream
  {
  }

  /** Positions in a topological order: no self-arc, and no repetition within the body. */
  lemma BodyNode(en: Engine, order: seq<string>, loop: Loop, lo: nat, hi: nat, k: nat)
    requires Covers(en.g, order, loop, lo, hi) && k < |loop.body|
    ensures !Arc(en.g, loop.body[k], loop.body[k]) && loop.body[k] !in loop.body[k + 1..]
    ensures loop.body[k] !in loop.downstream
  {
    assert order[lo + k] == loop.body[k];
  }

  lemma IterationKeepsFresh(en: Engine, order: seq<string>, loop: Loop, lo: nat, hi: nat, r: Run, i: nat)
    requires Valid(en.g) && Covers(en.g, order, loop, lo, hi) && Known(en, loop.body)
    requires loop.edge in en.g.edges && loop.edge.back
    requires FreshExcept(en, r.outputs, r.states, Elems(loop.downstream)) && Iteration(en, r, loop, i).Ok?
    ensures FreshExcept(en, Iteration(en, r, loop, i).run.outputs, Iteration(en, r, loop, i).run.states, Elems(loop.downstream))
  {
    ClearKeepsFresh(en, order, loop, lo, hi, r.outputs, r.states);
    var cleared := Cleared(r, loop, i);
    assert loop.body[..|loop.body|] == loop.body;
    BodyKeepsFresh(en, order, loop, lo, hi, cleared, Carried(r.outputs, loop.edge), i, |loop.body|);
  }

  lemma {:induction false} LoopFromKeepsFresh(
    en: Engine, conds: Conditions, order: seq<string>, loop: Loop, lo: nat, hi: nat, r: Run, i: nat)
    requires Valid(en.g) && Covers(en.g, order, loop, lo, hi) && Known(en, loop.body)
    requires loop.edge in en.g.edges && loop.edge.back
    requires FreshExcept(en, r.outputs, r.states, Elems(loop.downstream)) && LoopFrom(en, conds, r, loop, i).Ok?
    ensures FreshExcept(en, LoopFrom(en, conds, r, loop, i).run.outputs, LoopFrom(en, conds, r, loop, i).run.states, Elems(loop.downstream))
    decreases loop.maxIter + 1 - i
  {
    if i <= loop.maxIter && Check(conds, r, loop.edge) == Some(true) {
      IterationKeepsFresh(en, order, loop, lo, hi, r, i);
      LoopFromKeepsFresh(en, conds, order, loop, lo, hi, Iteration(en, r, loop, i).run, i + 1);
    }
  }

  /** Forward edges out of the k-th downstream node lead to later downstream nodes. */
  lemma DownstreamOrder(en: Engine, order: seq<string>, loop: Loop, lo: nat, hi: nat, k: nat, v: string)
    requires Covers(en.g, order, loop, lo, hi) && k < |loop.downstream| && Arc(en.g, loop.downstream[k], v)
    ensures v in loop.downstream[k + 1..] && v != loop.downstream[k]
  {
    hide Reached;
    var n := loop.downstream[k];
    assert n in loop.downstream;
    var a' :| 0 <= a' < |order[hi..]| && order[hi..][a'] == n;
    var a := hi + a';
    assert v !in loop.body by {
      if v in loop.body {
        assert false;
      }
    }
    var j :| 0 <= j < |loop.downstream| && loop.downstream[j] == v;
    var b :| 0 <= b < |order| && order[b] == v;
    assert order[a] == n && Arc(en.g, order[a], order[b]);
    assert j > k;
    assert loop.downstream[k + 1..][j - k - 1] == v;
  }

  lemma {:induction false} DownstreamKeepsFresh(
    en: Engine, order: seq<string>, loop: Loop, lo: nat, hi: nat, r: Run, k: nat)
    requires Valid(en.g) && Covers(en.g, order, loop, lo, hi) && Known(en, loop.downstream) && k <= |loop.downstream|
    requires FreshExcept(en, r.outputs, r.states, Elems(loop.downstream))
    requires RunDownstream(en, r, loop.downstream[..k]).Ok?
    ensures FreshExcept(en, RunDownstream(en, r, loop.downstream[..k]).run.outputs, RunDownstream(en, r, loop.downstream[..k]).run.states, Elems(loop.downstream[k..]))
  {
    hide Fresh, Resolve, Covers;
    if k == 0 {
      assert loop.downstream[0..] == loop.downstream;
    } else {
      assert loop.downstream[..k][..k - 1] == loop.downstream[..k - 1];
      DownstreamKeepsFresh(en, order, loop, lo, hi, r, k - 1);
      var n := loop.downstream[k - 1];
      assert loop.downstream[k - 1..] == [n] + loop.downstream[k..];
      forall v | Arc(en.g, n, v) ensures v in loop.downstream[k..] && v != n {
        DownstreamOrder(en, order, loop, lo, hi, k - 1, v);
      }
      RunNodeFresh(en, RunDownstream(en, r, loop.downstream[..k - 1]).run, n, 0, None, Elems(loop.downstream[k - 1..]));
    }
  }

  /** A loop that completes leaves no value computed from an overwritten predecessor. */
  lemma LoopConsistent(en: Engine, conds: Conditions, order: seq<string>, loop: Loop, lo: nat, hi: nat, r: Run)
    requires Valid(en.g) && Covers(en.g, order, loop, lo, hi) && Known(en, loop.body) && Known(en, loop.downstream)
    requires loop.edge in en.g.edges && loop.edge.back
    requires DataflowConsistent(en, r.outputs, r.states) && RunLoop(en, conds, r, loop).Ok?
    ensures DataflowConsistent(en, RunLoop(en, conds, r, loop).run.outputs, RunLoop(en, conds, r, loop).run.states)
  {
    hide Fresh, Covers, Valid;
    LoopFromKeepsFresh(en, conds, order, loop, lo, hi, r, 1);
    if Entered(conds, r, loop) {
      assert loop.downstream[..|loop.downstream|] == loop.downstream;
      DownstreamKeepsFresh(en, order, loop, lo, hi, LoopFrom(en, conds, r, loop, 1).run, |loop.downstream|);
    }
  }

  /** Where a loop's body starts and ends in the order: from target to source, or nowhere when the source comes first. */
  ghost function First(order: seq<string>, edge: Edge): (lo: nat)
    requires edge.source in order && edge.target in order
  {
    if Position(order, edge.target) <= Position(order, edge.source) then Position(order, edge.target) else 0
  }

  ghost function Past(order: seq<string>, edge: Edge): (hi: nat)
    requires edge.source in order && edge.target in order
  {
    if Position(order, edge.target) <= Position(order, edge.source) then Position(order, edge.source) + 1 else 0
  }

  /** Each loop is computed from a back-edge of the graph and one topological order: that interval, and what it reaches. */
  ghost predicate Planned(g: Graph, order: seq<string>, loop: Loop) {
    && loop.edge in g.edges && loop.edge.back && loop.edge.source in order && loop.edge.target in order
    && Covers(g, order, loop, First(order, loop.edge), Past(order, loop.edge))
  }

  /** The body holds exactly the nodes from the target's place in the order to the source's, in that order. */
  lemma BodyMeans(g: Graph, order: seq<string>, loop: Loop, t: nat, s: nat)
    requires Planned(g, order, loop) && t < |order| && s < |order| && order[t] == loop.edge.target && order[s] == loop.edge.source
    ensures loop.body == if t <= s then order[t..s + 1] else []
  {
    PositionIs(order, t);
    PositionIs(order, s);
  }

  lemma PositionIs(order: seq<string>, k: nat)
    requires Distinct(order) && k < |order|
    ensures Position(order, order[k]) == k
  {
  }

  lemma {:induction false} LoopsConsistent(en: Engine, conds: Conditions, order: seq<string>, loops: seq<Loop>, r: Run)
    requires Valid(en.g) && KnownLoops(en, loops)
    requires forall l :: l in loops ==> Planned(en.g, order, l)
    requires DataflowConsistent(en, r.outputs, r.states) && RunLoops(en, conds, r, loops).Ok?
    ensures DataflowConsistent(en, RunLoops(en, conds, r, loops).run.outputs, RunLoops(en, conds, r, loops).run.states)
  {
    if loops != [] {
      var prefix, last := loops[..|loops| - 1], loops[|loops| - 1];
      assert forall l :: l in prefix ==> l in loops;
      LoopsConsistent(en, conds, order, prefix, r);
      assert last in loops && Planned(en.g, order, last);
      LoopConsistent(en, conds, order, last, First(order, last.edge), Past(order, last.edge), RunLoops(en, conds, r, prefix).run);
    }
  }

  // ---------- The body interval ----------

  /** Along a forward path, positions in a topological order only grow. */
  lemma {:induction false} PathAscends(g: Graph, order: seq<string>, p: seq<string>, i: nat, j: nat)
    requires Valid(g) && TopoOrder(g, order) && Walk(g, p) && i <= j < |p|
    ensures p[i] in order && p[j] in order && Position(order, p[i]) <= Position(order, p[j])
  {
    assert p[i] in Ids(g) && p[j] in Ids(g);
    assert p[i] in Elems(order) && p[j] in Elems(order);
    if i < j {
      PathAscends(g, order, p, i, j - 1);
      assert Arc(g, p[j - 1], p[j]);
      assert Arc(g, order[Position(order, p[j - 1])], order[Position(order, p[j])]);
    }
  }

  /** The body holds every node on every forward path from the back-edge's target to its source. */
  ghost predicate HoldsPaths(g: Graph, loop: Loop) {
    forall p, k :: 0 <= k < |p| && Walk(g, p) && p[0] == loop.edge.target && p[|p| - 1] == loop.edge.source ==> p[k] in loop.body
  }

  lemma BodyHoldsPaths(g: Graph, order: seq<string>, loop: Loop)
    requires Valid(g) && Planned(g, order, loop)
    ensures HoldsPaths(g, loop)
  {
    forall p, k | 0 <= k < |p| && Walk(g, p) && p[0] == loop.edge.target && p[|p| - 1] == loop.edge.source
      ensures p[k] in loop.body
    {
      PathAscends(g, order, p, 0, k);
      PathAscends(g, order, p, k, |p| - 1);
      var lo := First(order, loop.edge);
      assert loop.body[Position(order, p[k]) - lo] == p[k];
    }
  }

  /** Kahn's queue emits all roots first, so a body that starts at a fed node holds no root. */
  lemma BodyHoldsNoRoot(g: Graph, order: seq<string>, loop: Loop, lo: nat, hi: nat, n: string)
    requires Valid(g) && Covers(g, order, loop, lo, hi) && Topo.Roots(g, |g.nodes|) <= order
    requires loop.body != [] ==> loop.body[0] == loop.edge.target && Fed(g, loop.edge.target)
    requires Topo.IsRoot(g, n)
    ensures n !in loop.body && n !in loop.downstream
  {
    if loop.body != [] {
      RootsBeforeFed(g, order, loop.edge.target, n);
      assert order[lo] == loop.edge.target;
      var i :| 0 <= i < lo && order[i] == n;
    }
    if Reached(g, loop.body, n) {
      ReachedIsNoRoot(g, loop.body, n);
    }
  }

  lemma ReachedIsNoRoot(g: Graph, body: seq<string>, n: string)
    requires Reached(g, body, n)
    ensures !Topo.IsRoot(g, n)
  {
    var p :| ReachedBy(g, body, n, p);
    assert Arc(g, p[|p| - 2], p[|p| - 1]);
  }

  lemma FedIsNoRoot(g: Graph, n: string)
    requires Valid(g) && Fed(g, n)
    ensures !Topo.IsRoot(g, n)
  {
    var e :| e in g.edges && !e.back && e.target == n;
    assert Arc(g, e.source, n);
  }

  lemma RootsBeforeFed(g: Graph, order: seq<string>, fed: string, n: string)
    requires Valid(g) && TopoOrder(g, order) && Topo.Roots(g, |g.nodes|) <= order
    requires Fed(g, fed) && Topo.IsRoot(g, n)
    ensures forall lo :: 0 <= lo < |order| && order[lo] == fed ==> exists i :: 0 <= i < lo && order[i] == n
  {
    hide TopoOrder, Fed;
    var roots := Topo.Roots(g, |g.nodes|);
    Topo.RootsMeaning(g, |g.nodes|);
    AllDeclared(g);
    var i :| 0 <= i < |roots| && roots[i] == n;
    assert order[i] == n;
    FedIsNoRoot(g, fed);
    assert fed !in roots;
    assert forall k :: 0 <= k < |roots| ==> order[k] == roots[k];
  }

  lemma {:induction false} BodyLeavesOthers(
    en: Engine, r: Run, ns: seq<string>, edge: Edge, carried: Option<Value>, iteration: nat, n: string)
    requires Known(en, ns) && n !in ns && RunBody(en, r, ns, edge, carried, iteration).Ok?
    ensures SameNode(r.outputs, RunBody(en, r, ns, edge, carried, iteration).run.outputs, n)
  {
    if ns != [] {
      BodyLeavesOthers(en, r, ns[..|ns| - 1], edge, carried, iteration, n);
    }
  }

  lemma {:induction false} DownstreamLeavesOthers(en: Engine, r: Run, ns: seq<string>, n: string)
    requires Known(en, ns) && n !in ns && RunDownstream(en, r, ns).Ok?
    ensures SameNode(r.outputs, RunDownstream(en, r, ns).run.outputs, n)
  {
    if ns != [] {
      DownstreamLeavesOthers(en, r, ns[..|ns| - 1], n);
    }
  }

  lemma {:induction false} LoopLeavesOthers(en: Engine, conds: Conditions, r: Run, loop: Loop, i: nat, n: string)
    requires Known(en, loop.body) && n !in loop.body && LoopFrom(en, conds, r, loop, i).Ok?
    ensures SameNode(r.outputs, LoopFrom(en, conds, r, loop, i).run.outputs, n)
    decreases loop.maxIter + 1 - i
  {
    if i <= loop.maxIter && Check(conds, r, loop.edge) == Some(true) {
      var cleared := Cleared(r, loop, i);
      BodyLeavesOthers(en, cleared, loop.body, loop.edge, Carried(r.outputs, loop.edge), i, n);
      LoopLeavesOthers(en, conds, Iteration(en, r, loop, i).run, loop, i + 1, n);
    }
  }

  /** The body starts at its back-edge's target. */
  lemma BodyStart(g: Graph, order: seq<string>, loop: Loop)
    requires Planned(g, order, loop) && loop.body != []
    ensures loop.body[0] == loop.edge.target
  {
  }

  /** Outputs of root nodes, the execution's inputs among them, survive every loop. */
  lemma {:induction false} RootsSurvive(
    en: Engine, conds: Conditions, order: seq<string>, loops: seq<Loop>, r: Run, n: string)
    requires Valid(en.g) && KnownLoops(en, loops) && Topo.Roots(en.g, |en.g.nodes|) <= order
    requires forall l :: l in loops ==> Planned(en.g, order, l) && Fed(en.g, l.edge.target)
    requires Topo.IsRoot(en.g, n) && RunLoops(en, conds, r, loops).Ok?
    ensures SameNode(r.outputs, RunLoops(en, conds, r, loops).run.outputs, n)
  {
    if loops != [] {
      var prefix, last := loops[..|loops| - 1], loops[|loops| - 1];
      assert forall l :: l in prefix ==> l in loops;
      RootsSurvive(en, conds, order, prefix, r, n);
      assert last in loops && Planned(en.g, order, last);
      if last.body != [] {
        BodyStart(en.g, order, last);
      }
      BodyHoldsNoRoot(en.g, order, last, First(order, last.edge), Past(order, last.edge), n);
      var r1 := RunLoops(en, conds, r, prefix).run;
      LoopLeavesOthers(en, conds, r1, last, 1, n);
      if Entered(conds, r1, last) {
        DownstreamLeavesOthers(en, LoopFrom(en, conds, r1, last, 1).run, last.downstream, n);
      }
    }
  }

  lemma {:induction false} InputsNeverReturn(
    en: Engine, r: Run, ns: seq<string>, edge: Edge, carried: Option<Value>, iteration: nat, n: string)
    requires Known(en, ns) && n in Ids(en.g) && NodeOf(en.g, n).kind == Input
    requires RunBody(en, r, ns, edge, carried, iteration).Ok?
    ensures SameNode(r.outputs, RunBody(en, r, ns, edge, carried, iteration).run.outputs, n)
  {
    if ns != [] {
      InputsNeverReturn(en, r, ns[..|ns| - 1], edge, carried, iteration, n);
    }
  }

  // ---------- Iterations ----------

  lemma {:induction false} BodyKeepsCounts(en: Engine, r: Run, ns: seq<string>, edge: Edge, carried: Option<Value>, iteration: nat)
    requires Known(en, ns) && RunBody(en, r, ns, edge, carried, iteration).Ok?
    ensures RunBody(en, r, ns, edge, carried, iteration).run.counts == r.counts
  {
    if ns != [] {
      BodyKeepsCounts(en, r, ns[..|ns| - 1], edge, carried, iteration);
    }
  }

  /** A loop ends at its limit or when its condition no longer holds; the count is the last iteration run. */
  lemma {:induction false} LoopExit(en: Engine, conds: Conditions, r: Run, loop: Loop, i: nat) returns (last: nat)
    requires Known(en, loop.body) && 1 <= i <= loop.maxIter + 1 && LoopFrom(en, conds, r, loop, i).Ok?
    ensures i - 1 <= last <= loop.maxIter
    ensures var r' := LoopFrom(en, conds, r, loop, i).run;
            && (last == loop.maxIter || Check(conds, r', loop.edge) == Some(false))
            && r'.counts == if last < i then r.counts else r.counts[loop.edge.id := last]
    decreases loop.maxIter + 1 - i
  {
    if i <= loop.maxIter && Check(conds, r, loop.edge) == Some(true) {
      var cleared := Cleared(r, loop, i);
      BodyKeepsCounts(en, cleared, loop.body, loop.edge, Carried(r.outputs, loop.edge), i);
      last := LoopExit(en, conds, Iteration(en, r, loop, i).run, loop, i + 1);
    } else {
      last := i - 1;
    }
  }

  /** The node records of one iteration. */
  ghost function RecordedNodes(steps: seq<LoopStep>): seq<string> {
    seq(|steps|, i requires 0 <= i < |steps| => steps[i].node)
  }

  ghost function Executed(en: Engine, ns: seq<string>): seq<string>
    requires Known(en, ns)
  {
    if ns == [] then []
    else Executed(en, ns[..|ns| - 1]) + if NodeOf(en.g, ns[|ns| - 1]).kind == Input then [] else [ns[|ns| - 1]]
  }

  lemma LastRecord(en: Engine, r: Run, ns: seq<string>, edge: Edge, carried: Option<Value>, iteration: nat)
    requires Known(en, ns) && ns != [] && RunBody(en, r, ns, edge, carried, iteration).Ok?
    ensures var before := RunBody(en, r, ns[..|ns| - 1], edge, carried, iteration).run.steps;
            var after := RunBody(en, r, ns, edge, carried, iteration).run.steps;
            if NodeOf(en.g, ns[|ns| - 1]).kind == Input then after == before
            else && |after| == |before| + 1 && after == before + [after[|before|]]
                 && after[|before|].Completed? && after[|before|].node == ns[|ns| - 1] && after[|before|].iteration == iteration
  {
    hide Resolve, Written;
  }

  /** A completed iteration records each body node that is not an input node once, in topological order. */
  lemma {:induction false} BodyRecords(en: Engine, r: Run, ns: seq<string>, edge: Edge, carried: Option<Value>, iteration: nat)
    requires Known(en, ns) && RunBody(en, r, ns, edge, carried, iteration).Ok?
    ensures var steps := RunBody(en, r, ns, edge, carried, iteration).run.steps;
            && r.steps <= steps
            && RecordedNodes(steps[|r.steps|..]) == Executed(en, ns)
            && forall s :: s in steps[|r.steps|..] ==> s.Completed? && s.iteration == iteration
  {
    hide RunNode;
    if ns != [] {
      BodyRecords(en, r, ns[..|ns| - 1], edge, carried, iteration);
      var before := RunBody(en, r, ns[..|ns| - 1], edge, carried, iteration).run.steps;
      var after := RunBody(en, r, ns, edge, carried, iteration).run.steps;
      LastRecord(en, r, ns, edge, carried, iteration);
      if |after| > |before| {
        assert after[|r.steps|..] == before[|r.steps|..] + [after[|before|]];
        assert RecordedNodes(after[|r.steps|..]) == RecordedNodes(before[|r.steps|..]) + [ns[|ns| - 1]];
      }
    }
  }
}
