/** Forward passes of the two engines. */
module WorkerPasses {
  import opened Graphs
  import opened Skips
  import opened NodeRuns
  import opened Layers
  import opened ForwardPass
  import opened Passes
  import opened WorkerGroups
  import opened WorkerRounds

  /** The step records are the in-process engine's own. */
  ghost predicate SameButRecords(v: World, w: World) {
    v.(steps := w.steps) == w
  }

  /** A round that gets to its fan-in and collects everything, its results applied as they were popped. */
  ghost predicate Collects(
    lim: Worker.Limits, en: Engine, p: Placement, group: seq<string>, v: World, v': World, ss: seq<Worker.System>)
    requires InGraph(en, Elems(group))
  {
    && Round(lim, en, p, v, FilterRunnable(en, group, v), ss)
    && var s := ss[|ss| - 1];
       Over(s) && s.pending == 0 && InGraph(en, Elems(Nodes(s.collected))) && v' == FanIn(en, v, Nodes(s.collected))
  }

  ghost predicate RoundDone(lim: Worker.Limits, en: Engine, p: Placement, group: seq<string>, v: World, v': World)
    requires InGraph(en, Elems(group))
  {
    exists ss: seq<Worker.System> :: Collects(lim, en, p, group, v, v', ss)
  }

  /** A round with nothing left to dispatch that never got to its fan-in. */
  ghost predicate RoundAborted(lim: Worker.Limits, en: Engine, p: Placement, group: seq<string>, v: World)
    requires InGraph(en, Elems(group))
  {
    exists ss: seq<Worker.System> ::
      && Round(lim, en, p, v, FilterRunnable(en, group, v), ss) && ss[|ss| - 1].toDispatch == []
      && forall k :: 0 <= k < |ss| ==> !Over(ss[k])
  }

  /** The worlds after the groups that were finished; the next one, if there is any, aborted. */
  ghost predicate DistributedPass(lim: Worker.Limits, en: Engine, p: Placement, groups: seq<seq<string>>, vs: seq<World>)
    requires forall k :: 0 <= k < |groups| ==> InGraph(en, Elems(groups[k]))
  {
    && 1 <= |vs| <= |groups| + 1
    && (forall k, m :: 0 <= k < |vs| - 1 && m == k + 1 ==> RoundDone(lim, en, p, groups[k], vs[k], vs[m]))
    && (|vs| <= |groups| ==> RoundAborted(lim, en, p, groups[|vs| - 1], vs[|vs| - 1]))
  }

  lemma EffectsSame(en: Engine, group: set<string>, w: World, a: World, v: World, b: World)
    requires InGraph(en, group) && SameButRecords(v, w)
    requires GroupEffect(en, group, w, a) && GroupEffect(en, group, v, b)
    ensures SameButRecords(b, a)
  {
    OutcomesSame(en, v, w);
    var b' := b.(steps := a.steps);
    assert RanOf(en, v, group) == RanOf(en, w, group);
    assert PropagatedOf(en, v, group) == PropagatedOf(en, w, group);
    EffectMoved(en, RanOf(en, w, group), PropagatedOf(en, w, group), w, v, b);
    assert GroupEffect(en, group, w, b');
    EffectIsUnique(en, group, w, a, b');
  }

  lemma OutcomesSame(en: Engine, v: World, w: World)
    requires SameButRecords(v, w)
    ensures forall n :: n in Ids(en.g) ==> Outcome(en, v, n) == Outcome(en, w, n) && InputsOf(en, v, n) == InputsOf(en, w, n)
  {
  }

  lemma EffectMoved(en: Engine, ran: set<string>, propagated: set<string>, w: World, v: World, b: World)
    requires InGraph(en, ran) && InGraph(en, propagated) && SameButRecords(v, w)
    requires forall n :: n in ran ==> Outcome(en, v, n).Some?
    requires b.outputs == OutputsAfter(en, v, ran) && StateAfter(en, v, ran, b.state) && b.cut == CutAfter(en, v, propagated)
    ensures forall n :: n in ran ==> Outcome(en, w, n).Some?
    ensures b.outputs == OutputsAfter(en, w, ran) && StateAfter(en, w, ran, b.state) && b.cut == CutAfter(en, w, propagated)
  {
    hide Outcome, StateAfter, CutAfter, Untaken;
    OutcomesSame(en, v, w);
    StateMoved(en, ran, w, v, b.state);
    CutMoved(en, propagated, w, v);
  }

  lemma CutMoved(en: Engine, propagated: set<string>, w: World, v: World)
    requires InGraph(en, propagated) && SameButRecords(v, w)
    ensures CutAfter(en, v, propagated) == CutAfter(en, w, propagated)
  {
    hide Outcome, Untaken;
    OutcomesSame(en, v, w);
  }

  lemma StateMoved(en: Engine, ran: set<string>, w: World, v: World, state: Ports)
    requires InGraph(en, ran) && SameButRecords(v, w) && StateAfter(en, v, ran, state)
    ensures StateAfter(en, w, ran, state)
  {
    hide Outcome, Written, SameField;
    OutcomesSame(en, v, w);
  }

  lemma AbortsSame(en: Engine, p: Placement, a: seq<string>, b: seq<string>, w: World, v: World)
    requires InGraph(en, Elems(a)) && Elems(a) == Elems(b) && SameButRecords(v, w)
    ensures Aborts(en, p, a, w) <==> Aborts(en, p, b, v)
  {
    OutcomesSame(en, v, w);
    forall n | n in Elems(a)
      ensures Runnable(en, w, n) && DispatchFails(en, p, w, n) <==> Runnable(en, v, n) && DispatchFails(en, p, v, n) {
    }
  }

  /** Beside the input nodes only nodes of the groups done have outputs. */
  ghost predicate OnlyDone(en: Engine, groups: seq<seq<string>>, k: nat, w: World) {
    forall n :: n in w.outputs ==> n in Ids(en.g) && (NodeOf(en.g, n).kind == Input || Before(groups, n, k))
  }

  lemma OnlyDoneKept(en: Engine, groups: seq<seq<string>>, k: nat, w: World, w': World)
    requires WellDesigned(en, groups) && k < |groups| && OnlyDone(en, groups, k, w)
    requires GroupEffect(en, Elems(groups[k]), w, w')
    ensures OnlyDone(en, groups, k + 1, w')
    ensures forall n :: n in Elems(groups[k]) && NodeOf(en.g, n).kind != Input ==> n !in w.outputs
  {
    hide StateAfter, CutAfter, RecordsOf, Outcome;
    NonInputsGrow(en, groups, k, w);
    forall n | n in Elems(groups[k]) && NodeOf(en.g, n).kind != Input ensures n !in w.outputs {
      assert n in RecordedOf(en, w, Elems(groups[k]));
      assert n !in NonInputs(en, groups, k);
    }
    forall n | n in w'.outputs ensures n in Ids(en.g) && (NodeOf(en.g, n).kind == Input || Before(groups, n, k + 1)) {
      if n in w.outputs {
        if NodeOf(en.g, n).kind != Input {
          assert n in NonInputs(en, groups, k);
        }
      } else {
        assert InGroup(groups, n, k);
      }
    }
  }

  /** One more round of the one engine and one more group of the other. */
  lemma RoundMatches(
    lim: Worker.Limits, en: Engine, p: Placement, groups: seq<seq<string>>, k: nat, w: World, w': World, v: World, v': World)
    requires WellDesigned(en, groups) && k < |groups| && Consistent(en, w) && SameButRecords(v, w)
    requires OnlyDone(en, groups, k, w) && GroupEffect(en, Elems(groups[k]), w, w')
    requires RoundDone(lim, en, p, groups[k], v, v')
    ensures SameButRecords(v', w') && !Aborts(en, p, groups[k], v)
  {
    hide Round, FilterRunnable, FanIn, GroupEffect, Ready, Over, Aborts, CanOverreach, Layering, NoInterference, Valid, UniqueEdges;
    var ss: seq<Worker.System> :| Collects(lim, en, p, groups[k], v, v', ss);
    OnlyDoneKept(en, groups, k, w, w');
    GroupReady(en, groups, k, v);
    var v1 := RoundEffect(lim, en, p, groups[k], v, ss);
    EffectsSame(en, Elems(groups[k]), w, w', v, v1);
  }

  lemma {:induction false} PassesMatch(
    lim: Worker.Limits, en: Engine, p: Placement, groups: seq<seq<string>>, ws: seq<World>,
    groups': seq<seq<string>>, vs: seq<World>, k: nat)
    requires WellDesigned(en, groups) && WellDesigned(en, groups')
    requires Pass(en, groups, ws) && DistributedPass(lim, en, p, groups', vs) && k < |vs| && k < |ws|
    requires Consistent(en, ws[0]) && OnlyDone(en, groups, 0, ws[0]) && SameButRecords(vs[0], ws[0])
    ensures |groups| == |groups'| && SameButRecords(vs[k], ws[k]) && Consistent(en, ws[k]) && OnlyDone(en, groups, k, ws[k])
    ensures forall j :: 0 <= j < k ==> !Aborts(en, p, groups[j], ws[j])
  {
    hide CanOverreach, Layering, NoInterference, Valid, UniqueEdges;
    hide RoundDone, RoundAborted, GroupRun, Aborts, OnlyDone, Consistent, SameButRecords;
    SameLength(en, groups, groups');
    if k > 0 {
      var j := k - 1;
      PassesMatch(lim, en, p, groups, ws, groups', vs, j);
      assert GroupRun(en, groups[j], ws[j], ws[k]) && RoundDone(lim, en, p, groups'[j], vs[j], vs[k]);
      GroupMatches(lim, en, p, groups, groups', j, ws[j], ws[k], vs[j], vs[k]);
    }
  }

  lemma SameLength(en: Engine, a: seq<seq<string>>, b: seq<seq<string>>)
    requires WellDesigned(en, a) && WellDesigned(en, b)
    ensures |a| == |b| && forall k :: 0 <= k < |a| ==> Elems(a[k]) == Elems(b[k])
  {
    if |b| < |a| {
      LayeringsAgree(en.g, a, b, |b|);
    } else if |a| < |b| {
      LayeringsAgree(en.g, b, a, |a|);
    }
    forall k | 0 <= k < |a| ensures Elems(a[k]) == Elems(b[k]) {
      LayeringsAgree(en.g, a, b, k);
      LayeringsAgree(en.g, b, a, k);
    }
  }

  lemma GroupMatches(
    lim: Worker.Limits, en: Engine, p: Placement, groups: seq<seq<string>>, groups': seq<seq<string>>, k: nat,
    w: World, w': World, v: World, v': World)
    requires WellDesigned(en, groups) && WellDesigned(en, groups') && k < |groups| && k < |groups'|
    requires Consistent(en, w) && SameButRecords(v, w) && OnlyDone(en, groups, k, w)
    requires GroupRun(en, groups[k], w, w') && RoundDone(lim, en, p, groups'[k], v, v')
    ensures SameButRecords(v', w') && Consistent(en, w') && OnlyDone(en, groups, k + 1, w') && !Aborts(en, p, groups[k], w)
  {
    hide GroupRun, RoundDone, GroupEffect, Consistent, SameButRecords, OnlyDone, Before, Aborts;
    hide CanOverreach, Layering, NoInterference, Valid, UniqueEdges;
    SameLength(en, groups, groups');
    GroupRunEffect(en, groups, k, w, w');
    OnlyDoneKept(en, groups, k, w, w');
    OnlyDoneSame(en, groups, groups', k, w);
    RoundMatches(lim, en, p, groups', k, w, w', v, v');
    AbortsSame(en, p, groups[k], groups'[k], w, v);
  }

  lemma OnlyDoneSame(en: Engine, a: seq<seq<string>>, b: seq<seq<string>>, k: nat, w: World)
    requires |a| == |b| && (forall k :: 0 <= k < |a| ==> Elems(a[k]) == Elems(b[k])) && OnlyDone(en, a, k, w)
    ensures OnlyDone(en, b, k, w)
  {
    forall n | n in w.outputs && Before(a, n, k) ensures Before(b, n, k) {
      var i: nat :| i < k && InGroup(a, n, i);
      assert n in Elems(a[i]);
      assert InGroup(b, n, i);
    }
  }

  /**
   * Confluence across the engines. A distributed pass, with its own layering, interleaving of handlers and order of results,
   * goes through the same worlds as an in-process pass, whatever its schedule; and it gets through all groups if and only if
   * no dispatch fails in any of these worlds.
   */
  lemma DistributedConfluence(
    lim: Worker.Limits, en: Engine, p: Placement, groups: seq<seq<string>>, ws: seq<World>,
    groups': seq<seq<string>>, vs: seq<World>)
    requires WellDesigned(en, groups) && WellDesigned(en, groups')
    requires Pass(en, groups, ws) && DistributedPass(lim, en, p, groups', vs)
    requires Consistent(en, ws[0]) && SameButRecords(vs[0], ws[0])
    requires forall n :: n in ws[0].outputs ==> n in Ids(en.g) && NodeOf(en.g, n).kind == Input
    ensures |vs| <= |ws| && forall k :: 0 <= k < |vs| ==> SameButRecords(vs[k], ws[k])
    ensures |vs| == |ws| <==> forall k :: 0 <= k < |groups| ==> !Aborts(en, p, groups[k], ws[k])
  {
    hide CanOverreach, Layering, NoInterference, Valid, UniqueEdges, RoundDone, RoundAborted, GroupRun, Aborts, Consistent, SameButRecords;
    SameLength(en, groups, groups');
    forall k | 0 <= k < |vs| ensures SameButRecords(vs[k], ws[k]) {
      PassesMatch(lim, en, p, groups, ws, groups', vs, k);
    }
    var last := |vs| - 1;
    PassesMatch(lim, en, p, groups, ws, groups', vs, last);
    if |vs| <= |groups| {
      DistinctGroup(en, groups', last);
      AbortedAborts(lim, en, p, groups'[last], vs[last]);
      AbortsSame(en, p, groups[last], groups'[last], ws[last], vs[last]);
    }
  }

  lemma DistinctGroup(en: Engine, groups: seq<seq<string>>, k: nat)
    requires WellDesigned(en, groups) && k < |groups|
    ensures Distinct(groups[k])
  {
  }

  lemma AbortedAborts(lim: Worker.Limits, en: Engine, p: Placement, group: seq<string>, v: World)
    requires InGraph(en, Elems(group)) && Distinct(group) && RoundAborted(lim, en, p, group, v)
    ensures Aborts(en, p, group, v)
  {
    hide RoundStep, FilterRunnable, Aborts;
    var ss: seq<Worker.System> :|
      Round(lim, en, p, v, FilterRunnable(en, group, v), ss) && ss[|ss| - 1].toDispatch == [] && forall k :: 0 <= k < |ss| ==> !Over(ss[k]);
    ReachesFanInIff(lim, en, p, group, v, ss);
  }
}
