/** The whole forward pass. */
module Passes {
  import opened Graphs
  import opened Skips
  import opened NodeRuns
  import opened Layers
  import opened ForwardPass

  // All schedules of all groups, for every layering the map iteration order can give.

  /** A layering as ParallelGroups returns it. */
  ghost predicate Layering(g: Graph, groups: seq<seq<string>>) {
    Partition(g, groups) && LayeredByLongestPath(g, groups)
  }

  lemma LongestPathUnique(g: Graph, v: string, k: nat, m: nat)
    requires LongestPath(g, v, k) && LongestPath(g, v, m)
    ensures k == m
  {
    var p :| PathTo(g, v, p) && |p| == k + 1;
    var q :| PathTo(g, v, q) && |q| == m + 1;
  }

  /** Two layerings of a graph differ at most in the order within their groups. */
  lemma LayeringsAgree(g: Graph, a: seq<seq<string>>, b: seq<seq<string>>, k: nat)
    requires Layering(g, a) && Layering(g, b) && k < |a|
    ensures k < |b| && Elems(a[k]) <= Elems(b[k])
  {
    forall v | v in a[k] ensures k < |b| && v in b[k] {
      assert InGroup(a, v, k) && LongestPath(g, v, k);
      var m: nat :| InGroup(b, v, m);
      assert LongestPath(g, v, m);
      LongestPathUnique(g, v, k, m);
    }
    assert a[k][0] in a[k];
  }

  // ---------- Skips decided before a group starts ----------

  /** Edges cut by nodes of group k or later decide nothing about groups up to k. */
  lemma {:induction false} LaterCutsDecideNothing(
    g: Graph, groups: seq<seq<string>>, k: nat, cut: set<string>, cut': set<string>, n: string, m: nat)
    requires Valid(g) && UniqueEdges(g) && Layering(g, groups) && cut <= cut'
    requires forall e, j: nat :: e in g.edges && e.id in cut' && e.id !in cut && InGroup(groups, e.source, j) ==> j >= k
    requires InGroup(groups, n, m) && m <= k
    ensures n in ForcedForward(g, cut) <==> n in ForcedForward(g, cut')
    decreases m
  {
    var f, f' := ForcedForward(g, cut), ForcedForward(g, cut');
    ForcedForwardFixedPoint(g, cut, n);
    ForcedForwardFixedPoint(g, cut', n);
    forall e | e in g.edges && !e.back && e.target == n ensures Lifeless(cut, f, e) <==> Lifeless(cut', f', e) {
      assert e.source in Ids(g) && Arc(g, e.source, n);
      var j: nat :| InGroup(groups, e.source, j);
      ArcsCrossGroups(g, groups, e.source, n, j, m);
      LaterCutsDecideNothing(g, groups, k, cut, cut', e.source, j);
    }
  }

  lemma GroupSkipsDecided(en: Engine, groups: seq<seq<string>>, k: nat, w: World)
    requires Valid(en.g) && UniqueEdges(en.g) && !CanOverreach(en.g) && Layering(en.g, groups) && k < |groups|
    requires InGraph(en, Elems(groups[k])) && w.skipped == Forced(en.g, w.cut) && ConditionalCut(en.g, w.cut)
    ensures SkipsDecided(en, groups[k], w)
  {
    hide Forced, CanOverreach, ConditionalCut;
    forall propagated: set<string>, n | propagated <= Conditionals(en, groups[k]) && n in groups[k]
      ensures n in Forced(en.g, CutAfter(en, w, propagated)) <==> n in w.skipped
    {
      var cut' := CutAfter(en, w, propagated);
      forall e, j: nat | e in en.g.edges && e.id in cut' && e.id !in w.cut && InGroup(groups, e.source, j) ensures j >= k {
        CutSource(en, w, propagated, e);
        assert InGroup(groups, e.source, k);
      }
      assert InGroup(groups, n, k);
      CutGrows(en, w, propagated);
      LaterCutsDecideNothing(en.g, groups, k, w.cut, cut', n, k);
      BackEdgesHarmless(en.g, w.cut);
      BackEdgesHarmless(en.g, cut');
    }
  }

  /** What conditionals cut leaves conditionals. */
  lemma CutGrows(en: Engine, w: World, propagated: set<string>)
    requires InGraph(en, propagated) && ConditionalCut(en.g, w.cut)
    requires forall n :: n in propagated ==> NodeOf(en.g, n).kind == Conditional
    ensures w.cut <= CutAfter(en, w, propagated) && ConditionalCut(en.g, CutAfter(en, w, propagated))
  {
    forall id | id in CutAfter(en, w, propagated) ensures exists e :: e in en.g.edges && e.id == id && IsConditional(en.g, e.source) {
      if id !in w.cut {
        var e :| e in en.g.edges && e.id == id && e.source in propagated;
        assert IsConditional(en.g, e.source);
      }
    }
  }

  lemma CutSource(en: Engine, w: World, propagated: set<string>, e: Edge)
    requires UniqueEdges(en.g) && InGraph(en, propagated)
    requires e in en.g.edges && e.id in CutAfter(en, w, propagated) && e.id !in w.cut
    ensures e.source in propagated
  {
  }

  // ---------- The pass ----------

  /** The assumptions under which the engine's concurrency is deterministic. */
  ghost predicate WellDesigned(en: Engine, groups: seq<seq<string>>) {
    && Valid(en.g) && UniqueEdges(en.g) && !CanOverreach(en.g) && Layering(en.g, groups)
    && (forall k :: 0 <= k < |groups| ==> InGraph(en, Elems(groups[k])) && NoInterference(en, groups[k]))
  }

  ghost predicate Consistent(en: Engine, w: World) {
    w.skipped == Forced(en.g, w.cut) && w.dead == LifelessIds(en.g, w.cut, w.skipped) && ConditionalCut(en.g, w.cut)
  }

  lemma GroupReady(en: Engine, groups: seq<seq<string>>, k: nat, w: World)
    requires WellDesigned(en, groups) && k < |groups| && Consistent(en, w)
    ensures Ready(en, groups[k], w)
  {
    GroupSkipsDecided(en, groups, k, w);
    forall u, v | v in groups[k] && Arc(en.g, u, v) ensures u !in groups[k] {
      if u in groups[k] {
        ArcsCrossGroups(en.g, groups, u, v, k, k);
      }
    }
  }

  /** Some complete schedule of the group leads from w to w'. */
  ghost predicate GroupRun(en: Engine, group: seq<string>, w: World, w': World)
    requires InGraph(en, Elems(group))
  {
    exists cs: seq<Config> :: Schedule(en, group, cs) && cs[0] == Start(w) && Finished(group, cs[|cs| - 1]) && cs[|cs| - 1].world == w'
  }

  /** The worlds between the groups of one execution. */
  ghost predicate Pass(en: Engine, groups: seq<seq<string>>, ws: seq<World>)
    requires forall k :: 0 <= k < |groups| ==> InGraph(en, Elems(groups[k]))
  {
    |ws| == |groups| + 1 && forall k, m :: 0 <= k < |groups| && m == k + 1 ==> GroupRun(en, groups[k], ws[k], ws[m])
  }

  lemma GroupRunEffect(en: Engine, groups: seq<seq<string>>, k: nat, w: World, w': World)
    requires WellDesigned(en, groups) && k < |groups| && Consistent(en, w) && GroupRun(en, groups[k], w, w')
    ensures GroupEffect(en, Elems(groups[k]), w, w') && Consistent(en, w')
  {
    hide Ready;
    GroupReady(en, groups, k, w);
    var cs: seq<Config> :| Schedule(en, groups[k], cs) && cs[0] == Start(w) && Finished(groups[k], cs[|cs| - 1]) && cs[|cs| - 1].world == w';
    GroupConfluence(en, groups[k], w, cs);
    CutGrows(en, w, PropagatedOf(en, w, Elems(groups[k])));
  }

  lemma {:induction false} PassesAgree(
    en: Engine, groupsA: seq<seq<string>>, wsA: seq<World>, groupsB: seq<seq<string>>, wsB: seq<World>, k: nat)
    requires WellDesigned(en, groupsA) && WellDesigned(en, groupsB)
    requires Pass(en, groupsA, wsA) && Pass(en, groupsB, wsB)
    requires Consistent(en, wsA[0]) && wsA[0] == wsB[0] && k <= |groupsA|
    ensures k <= |groupsB| && wsA[k] == wsB[k] && Consistent(en, wsA[k])
  {
    if k > 0 {
      var j := k - 1;
      PassesAgree(en, groupsA, wsA, groupsB, wsB, j);
      LayeringsAgree(en.g, groupsA, groupsB, j);
      LayeringsAgree(en.g, groupsB, groupsA, j);
      var group := Elems(groupsA[j]);
      assert group == Elems(groupsB[j]);
      assert GroupRun(en, groupsA[j], wsA[j], wsA[k]) && GroupRun(en, groupsB[j], wsB[j], wsB[k]);
      GroupRunEffect(en, groupsA, j, wsA[j], wsA[k]);
      GroupRunEffect(en, groupsB, j, wsB[j], wsB[k]);
      EffectIsUnique(en, group, wsA[j], wsA[k], wsB[k]);
    }
  }

  /**
   * Confluence of the forward pass: any two executions, with their own layerings and schedules, end with the
   * same outputs, state, skipped nodes, dead edges and step records.
   */
  lemma ForwardConfluence(
    en: Engine, groupsA: seq<seq<string>>, wsA: seq<World>, groupsB: seq<seq<string>>, wsB: seq<World>)
    requires WellDesigned(en, groupsA) && WellDesigned(en, groupsB)
    requires Pass(en, groupsA, wsA) && Pass(en, groupsB, wsB)
    requires Consistent(en, wsA[0]) && wsA[0] == wsB[0]
    ensures wsA[|wsA| - 1] == wsB[|wsB| - 1]
  {
    PassesAgree(en, groupsA, wsA, groupsB, wsB, |groupsA|);
    PassesAgree(en, groupsB, wsB, groupsA, wsA, |groupsB|);
  }

  // ---------- Step records ----------

  /** Exactly one record for each of these nodes and none for any other. */
  ghost predicate OneRecordEach(steps: multiset<StepRecord>, nodes: set<string>) {
    && (forall r :: r in steps ==> steps[r] == 1 && r.node in nodes)
    && (forall n :: n in nodes ==> exists r :: r in steps && r.node == n)
    && (forall r, q :: r in steps && q in steps && r.node == q.node ==> r == q)
  }

  ghost predicate Before(groups: seq<seq<string>>, n: string, k: nat) {
    exists i: nat :: i < k && InGroup(groups, n, i)
  }

  ghost function NonInputs(en: Engine, groups: seq<seq<string>>, k: nat): set<string> {
    set n | n in Ids(en.g) && NodeOf(en.g, n).kind != Input && Before(groups, n, k)
  }

  lemma NonInputsGrow(en: Engine, groups: seq<seq<string>>, j: nat, w: World)
    requires WellDesigned(en, groups) && j < |groups|
    ensures NonInputs(en, groups, j) !! RecordedOf(en, w, Elems(groups[j]))
    ensures NonInputs(en, groups, j + 1) == NonInputs(en, groups, j) + RecordedOf(en, w, Elems(groups[j]))
  {
    forall n | n in Elems(groups[j]) ensures Before(groups, n, j + 1) && !Before(groups, n, j) {
      assert InGroup(groups, n, j);
    }
    forall n | Before(groups, n, j + 1) ensures Before(groups, n, j) || n in Elems(groups[j]) {
      var i: nat :| i < j + 1 && InGroup(groups, n, i);
    }
    forall n | Before(groups, n, j) ensures Before(groups, n, j + 1) {
      var i: nat :| i < j && InGroup(groups, n, i);
      assert i < j + 1 && InGroup(groups, n, i);
    }
  }

  lemma MoreRecords(en: Engine, w: World, nodes: set<string>, group: set<string>)
    requires InGraph(en, group) && nodes !! group && OneRecordEach(w.steps, nodes)
    ensures OneRecordEach(w.steps + RecordsOf(en, w, group), nodes + group)
  {
    hide RecordOf;
    var added := set n | n in group :: RecordOf(en, w, n);
    forall r | r in added ensures r.node in group && r == RecordOf(en, w, r.node) {
    }
    forall n | n in group ensures RecordOf(en, w, n) in added && RecordOf(en, w, n).node == n {
    }
    RecordsJoin(w.steps, nodes, added, group);
  }

  lemma RecordsJoin(steps: multiset<StepRecord>, nodes: set<string>, added: set<StepRecord>, group: set<string>)
    requires nodes !! group && OneRecordEach(steps, nodes)
    requires forall r :: r in added ==> r.node in group
    requires forall n :: n in group ==> exists r :: r in added && r.node == n
    requires forall r, q :: r in added && q in added && r.node == q.node ==> r == q
    ensures OneRecordEach(steps + multiset(added), nodes + group)
  {
    var all := steps + multiset(added);
    forall r | r in all ensures all[r] == 1 && r.node in nodes + group {
      assert r in steps || r in added;
    }
    forall n | n in nodes + group ensures exists r :: r in all && r.node == n {
      if n in group {
        var r :| r in added && r.node == n;
        assert r in all;
      } else {
        var r :| r in steps && r.node == n;
        assert r in all;
      }
    }
  }

  lemma {:induction false} RecordsUpTo(en: Engine, groups: seq<seq<string>>, ws: seq<World>, k: nat)
    requires WellDesigned(en, groups) && Pass(en, groups, ws) && k <= |groups|
    requires Consistent(en, ws[0]) && ws[0].steps == multiset{}
    ensures Consistent(en, ws[k]) && OneRecordEach(ws[k].steps, NonInputs(en, groups, k))
  {
    hide OneRecordEach, NonInputs, RecordsOf, Consistent, GroupRun, GroupEffect;
    if k == 0 {
      NoRecords(en, groups);
    } else {
      var j := k - 1;
      RecordsUpTo(en, groups, ws, j);
      assert GroupRun(en, groups[j], ws[j], ws[k]);
      GroupRecords(en, groups, j, ws[j], ws[k]);
    }
  }

  lemma NoRecords(en: Engine, groups: seq<seq<string>>)
    ensures OneRecordEach(multiset{}, NonInputs(en, groups, 0))
  {
    assert NonInputs(en, groups, 0) == {};
  }

  lemma GroupRecords(en: Engine, groups: seq<seq<string>>, j: nat, w: World, w': World)
    requires WellDesigned(en, groups) && j < |groups| && Consistent(en, w) && GroupRun(en, groups[j], w, w')
    requires OneRecordEach(w.steps, NonInputs(en, groups, j))
    ensures Consistent(en, w') && OneRecordEach(w'.steps, NonInputs(en, groups, j + 1))
  {
    GroupRunEffect(en, groups, j, w, w');
    NonInputsGrow(en, groups, j, w);
    hide OneRecordEach, NonInputs, RecordsOf, Consistent, GroupRun;
    MoreRecords(en, w, NonInputs(en, groups, j), RecordedOf(en, w, Elems(groups[j])));
  }

  /** Every node that is not an input node gets exactly one step record: completed, failed or skipped. */
  lemma OneStepPerNode(en: Engine, groups: seq<seq<string>>, ws: seq<World>)
    requires WellDesigned(en, groups) && Pass(en, groups, ws)
    requires Consistent(en, ws[0]) && ws[0].steps == multiset{}
    ensures OneRecordEach(ws[|groups|].steps, set n | n in Ids(en.g) && NodeOf(en.g, n).kind != Input)
  {
    RecordsUpTo(en, groups, ws, |groups|);
    forall n | n in Ids(en.g) ensures Before(groups, n, |groups|) {
      var i: nat :| InGroup(groups, n, i);
      assert i < |groups|;
    }
    assert NonInputs(en, groups, |groups|) == set n | n in Ids(en.g) && NodeOf(en.g, n).kind != Input;
  }
}
