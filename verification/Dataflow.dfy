/** The forward pass leaves no stale value. */
module Dataflow {
  import opened Graphs
  import opened Skips
  import opened NodeRuns
  import opened Layers
  import opened Passes
  import opened LoopSpec

  /** After k groups: outputs are fresh, and belong to input nodes or to nodes of those groups. */
  ghost predicate FreshUpTo(en: Engine, groups: seq<seq<string>>, k: nat, outputs: map<string, Ports>, states: set<Ports>) {
    && DataflowConsistent(en, outputs, states)
    && forall n :: n in outputs && n in Ids(en.g) && NodeOf(en.g, n).kind != Input ==> Before(groups, n, k)
  }

  /** A node's predecessors are in strictly earlier groups. */
  lemma PredecessorsBefore(en: Engine, groups: seq<seq<string>>, k: nat, u: string, n: string)
    requires WellDesigned(en, groups) && k < |groups| && Arc(en.g, u, n)
    requires n in groups[k] || Before(groups, n, k)
    ensures u !in groups[k]
  {
    if u in groups[k] {
      assert InGroup(groups, u, k);
      if n in groups[k] {
        assert InGroup(groups, n, k);
        ArcsCrossGroups(en.g, groups, u, n, k, k);
      } else {
        var i: nat :| i < k && InGroup(groups, n, i);
        ArcsCrossGroups(en.g, groups, u, n, k, i);
      }
    }
  }

  lemma RanFresh(
    en: Engine, groups: seq<seq<string>>, k: nat, w: ForwardPass.World, w': ForwardPass.World, states: set<Ports>, n: string)
    requires WellDesigned(en, groups) && k < |groups|
    requires ForwardPass.InGraph(en, Elems(groups[k])) && ForwardPass.GroupEffect(en, Elems(groups[k]), w, w')
    requires n in ForwardPass.RanOf(en, w, Elems(groups[k]))
    ensures Fresh(en, w'.outputs, states + {w.state}, n) && Before(groups, n, k + 1)
  {
    hide ForwardPass.StateAfter, ForwardPass.CutAfter, ForwardPass.RecordsOf, Forced, LifelessIds, Resolve, WellDesigned;
    assert n in Elems(groups[k]) && InGroup(groups, n, k);
    forall u | Arc(en.g, u, n) ensures SameNode(w.outputs, w'.outputs, u) {
      PredecessorsBefore(en, groups, k, u, n);
    }
    ResolveIsLocal(en.g, NodeOf(en.g, n), w.outputs, w'.outputs, w.state, w.state);
    assert ComputedFrom(en, w'.outputs, n, ForwardPass.InputsOf(en, w, n), w.state);
  }

  lemma KeptFresh(
    en: Engine, groups: seq<seq<string>>, k: nat, w: ForwardPass.World, w': ForwardPass.World, states: set<Ports>, n: string)
    requires WellDesigned(en, groups) && k < |groups|
    requires ForwardPass.InGraph(en, Elems(groups[k])) && ForwardPass.GroupEffect(en, Elems(groups[k]), w, w')
    requires n in Ids(en.g) && n in w.outputs && n in w'.outputs && w.outputs[n] == w'.outputs[n]
    requires Fresh(en, w.outputs, states, n) && Before(groups, n, k)
    ensures Fresh(en, w'.outputs, states + {w.state}, n) && Before(groups, n, k + 1)
  {
    hide ForwardPass.StateAfter, ForwardPass.CutAfter, ForwardPass.RecordsOf, Forced, LifelessIds, Fresh, WellDesigned;
    var i: nat :| i < k && InGroup(groups, n, i);
    assert i < k + 1 && InGroup(groups, n, i);
    forall u | Arc(en.g, u, n) ensures SameNode(w.outputs, w'.outputs, u) {
      PredecessorsBefore(en, groups, k, u, n);
    }
    FreshIsLocal(en, w.outputs, w'.outputs, states, states + {w.state}, n);
  }

  lemma GroupKeepsFresh(en: Engine, groups: seq<seq<string>>, k: nat, w: ForwardPass.World, w': ForwardPass.World, states: set<Ports>)
    requires WellDesigned(en, groups) && k < |groups|
    requires ForwardPass.InGraph(en, Elems(groups[k])) && ForwardPass.GroupEffect(en, Elems(groups[k]), w, w')
    requires FreshUpTo(en, groups, k, w.outputs, states)
    ensures FreshUpTo(en, groups, k + 1, w'.outputs, states + {w.state})
  {
    hide ForwardPass.StateAfter, ForwardPass.CutAfter, ForwardPass.RecordsOf, ForwardPass.Outcome, Fresh, Before, WellDesigned;
    forall n | n in w'.outputs && n in Ids(en.g) && NodeOf(en.g, n).kind != Input
      ensures Fresh(en, w'.outputs, states + {w.state}, n) && Before(groups, n, k + 1)
    {
      if n in ForwardPass.RanOf(en, w, Elems(groups[k])) {
        RanFresh(en, groups, k, w, w', states, n);
      } else {
        assert n in w.outputs && w.outputs[n] == w'.outputs[n];
        KeptFresh(en, groups, k, w, w', states, n);
      }
    }
  }

  lemma OnlyInputsFresh(en: Engine, groups: seq<seq<string>>, outputs: map<string, Ports>)
    requires forall n :: n in outputs && n in Ids(en.g) ==> NodeOf(en.g, n).kind == Input
    ensures FreshUpTo(en, groups, 0, outputs, {})
  {
  }

  /** The states in which the first k groups started. */
  ghost function StartStates(ws: seq<ForwardPass.World>, k: nat): set<Ports>
    requires k <= |ws|
  {
    if k == 0 then {} else StartStates(ws, k - 1) + {ws[k - 1].state}
  }

  /** Whatever the schedules, the forward pass ends with a consistent dataflow, over the states of its groups. */
  lemma {:induction false} ForwardPassConsistent(en: Engine, groups: seq<seq<string>>, ws: seq<ForwardPass.World>, k: nat)
    requires WellDesigned(en, groups) && Pass(en, groups, ws) && Consistent(en, ws[0]) && k <= |groups|
    requires forall n :: n in ws[0].outputs && n in Ids(en.g) ==> NodeOf(en.g, n).kind == Input
    ensures Consistent(en, ws[k]) && FreshUpTo(en, groups, k, ws[k].outputs, StartStates(ws, k))
  {
    hide Consistent, GroupRun, FreshUpTo, ForwardPass.GroupEffect;
    if k == 0 {
      OnlyInputsFresh(en, groups, ws[0].outputs);
    } else {
      ForwardPassConsistent(en, groups, ws, k - 1);
      assert GroupRun(en, groups[k - 1], ws[k - 1], ws[k]);
      GroupRunEffect(en, groups, k - 1, ws[k - 1], ws[k]);
      GroupKeepsFresh(en, groups, k - 1, ws[k - 1], ws[k], StartStates(ws, k - 1));
    }
  }
}
