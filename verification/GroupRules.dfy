/** What a group of nodes does, node by node. */
module GroupRules {
  import opened Options
  import opened Graphs
  import opened PortRules
  import opened Skips
  import opened NodeRuns
  import opened ForwardPass

  // Said of the worlds before and after, with the executors on what the ports hold and without the functions of the pass.

  /** This node runs on these inputs: every port holds what the world before gives it. */
  ghost predicate InputsGiven(en: Engine, w: World, n: string, inputs: Ports)
    requires n in Ids(en.g)
  {
    forall p :: PortGiven(NodeOf(en.g, n), en.g.edges, w.outputs, w.state, inputs, p)
  }

  /** It fails, or its outputs are stored; either way on exactly such inputs, and recorded. */
  ghost predicate NodeRan(en: Engine, w: World, w': World, n: string)
    requires n in Ids(en.g)
  {
    exists inputs: Ports :: InputsGiven(en, w, n, inputs) && NodeRanOn(en, w, w', n, inputs)
  }

  ghost predicate NodeRanOn(en: Engine, w: World, w': World, n: string, inputs: Ports) {
    match en.exec(n, inputs, Restrict(w.state, en.looks(n)))
    case None => Failed(n, inputs) in w'.steps && SameNode(w.outputs, w'.outputs, n)
    case Some(out) => Completed(n, inputs, out) in w'.steps && n in w'.outputs && w'.outputs[n] == out
  }

  /** The node's executor makes this of what its ports hold. */
  ghost predicate Yields(en: Engine, w: World, n: string, out: Ports)
    requires n in Ids(en.g)
  {
    exists inputs: Ports :: InputsGiven(en, w, n, inputs) && en.exec(n, inputs, Restrict(w.state, en.looks(n))) == Some(out)
  }

  /** A conditional of the group that ran left this edge's port null or missing. */
  ghost predicate NotTaken(en: Engine, group: set<string>, w: World, w': World, e: Edge)
    requires InGraph(en, group)
  {
    && e in en.g.edges && e.source in group && NodeOf(en.g, e.source).kind == Conditional && e.source !in w.skipped
    && e.source in w'.outputs && Yields(en, w, e.source, w'.outputs[e.source])
    && (e.sourcePort !in w'.outputs[e.source] || w'.outputs[e.source][e.sourcePort] == Null)
  }

  lemma OnlyInputs(en: Engine, w: World, n: string, inputs: Ports)
    requires n in Ids(en.g)
    ensures InputsGiven(en, w, n, inputs) <==> inputs == InputsOf(en, w, n)
  {
    forall p ensures PortGiven(NodeOf(en.g, n), en.g.edges, w.outputs, w.state, InputsOf(en, w, n), p) {
      ResolvedPort(NodeOf(en.g, n), en.g.edges, w.outputs, w.state, p);
    }
    if InputsGiven(en, w, n, inputs) {
      forall p ensures SameField(inputs, InputsOf(en, w, n), p) {
        PortDetermined(NodeOf(en.g, n), en.g.edges, w.outputs, w.state, inputs, InputsOf(en, w, n), p);
      }
      SameFields(inputs, InputsOf(en, w, n));
    }
  }

  /**
   * What every schedule of a group does. Nodes that are skipped are recorded as such, input nodes are passed over, and every
   * other node runs on what its ports hold; nodes outside the group keep their outputs; exactly the branches that
   * conditionals of the group did not take are cut.
   */
  lemma GroupMeans(en: Engine, group: set<string>, w: World, w': World, n: string)
    requires InGraph(en, group) && GroupEffect(en, group, w, w')
    ensures n !in group ==> SameNode(w.outputs, w'.outputs, n)
    ensures n in group && NodeOf(en.g, n).kind == Input ==> SameNode(w.outputs, w'.outputs, n)
    ensures n in group && NodeOf(en.g, n).kind != Input && n in w.skipped ==>
              SkippedStep(n) in w'.steps && SameNode(w.outputs, w'.outputs, n)
    ensures n in group && NodeOf(en.g, n).kind != Input && n !in w.skipped ==> NodeRan(en, w, w', n)
    ensures w'.cut == w.cut + set e | e in en.g.edges && NotTaken(en, group, w, w', e) :: e.id
  {
    hide Explained, InputsOf, NodeRan, NotTaken, RecordOf;
    if n in group && NodeOf(en.g, n).kind != Input {
      if n in w.skipped {
        SkipRecorded(en, group, w, w', n);
      } else {
        RunRecorded(en, group, w, w', n);
      }
    } else {
      OthersKept(en, group, w, w', n);
    }
    CutMeans(en, group, w, w');
  }

  lemma OthersKept(en: Engine, group: set<string>, w: World, w': World, n: string)
    requires InGraph(en, group) && GroupEffect(en, group, w, w') && (n !in group || NodeOf(en.g, n).kind == Input)
    ensures SameNode(w.outputs, w'.outputs, n)
  {
    hide Forced, LifelessIds, StateAfter, CutAfter, RecordsOf, Outcome;
  }

  lemma SkipRecorded(en: Engine, group: set<string>, w: World, w': World, n: string)
    requires InGraph(en, group) && GroupEffect(en, group, w, w') && n in group && NodeOf(en.g, n).kind != Input && n in w.skipped
    ensures SkippedStep(n) in w'.steps && SameNode(w.outputs, w'.outputs, n)
  {
    hide GroupEffect, Outcome;
    RecordStored(en, group, w, w', n);
  }

  lemma RunRecorded(en: Engine, group: set<string>, w: World, w': World, n: string)
    requires InGraph(en, group) && GroupEffect(en, group, w, w') && n in group && NodeOf(en.g, n).kind != Input && n !in w.skipped
    ensures NodeRan(en, w, w', n)
  {
    hide GroupEffect, InputsGiven, InputsOf;
    RecordStored(en, group, w, w', n);
    OnlyInputs(en, w, n, InputsOf(en, w, n));
    assert NodeRanOn(en, w, w', n, InputsOf(en, w, n));
  }

  lemma RecordStored(en: Engine, group: set<string>, w: World, w': World, n: string)
    requires InGraph(en, group) && GroupEffect(en, group, w, w') && n in group && NodeOf(en.g, n).kind != Input
    ensures RecordOf(en, w, n) in w'.steps
    ensures if n !in w.skipped && Outcome(en, w, n).Some? then n in w'.outputs && w'.outputs[n] == Outcome(en, w, n).value
            else SameNode(w.outputs, w'.outputs, n)
  {
    hide Forced, LifelessIds, StateAfter, CutAfter, Outcome;
    var recorded := RecordedOf(en, w, group);
    assert n in recorded;
    assert RecordOf(en, w, n) in multiset(set m | m in recorded :: RecordOf(en, w, m));
  }

  lemma CutMeans(en: Engine, group: set<string>, w: World, w': World)
    requires InGraph(en, group) && GroupEffect(en, group, w, w')
    ensures w'.cut == w.cut + set e | e in en.g.edges && NotTaken(en, group, w, w', e) :: e.id
  {
    hide Forced, LifelessIds, StateAfter, InputsGiven, RecordsOf;
    var propagated := PropagatedOf(en, w, group);
    forall e | e in en.g.edges
      ensures NotTaken(en, group, w, w', e) <==>
              e.source in propagated && Outcome(en, w, e.source).Some? && Untaken(Outcome(en, w, e.source).value, e)
    {
      if e.source in group {
        forall inputs: Ports ensures InputsGiven(en, w, e.source, inputs) <==> inputs == InputsOf(en, w, e.source) {
          OnlyInputs(en, w, e.source, inputs);
        }
        CutEdge(en, group, w, w', e);
      }
    }
  }

  lemma CutEdge(en: Engine, group: set<string>, w: World, w': World, e: Edge)
    requires InGraph(en, group) && GroupEffect(en, group, w, w') && e in en.g.edges && e.source in group
    requires forall inputs: Ports :: InputsGiven(en, w, e.source, inputs) <==> inputs == InputsOf(en, w, e.source)
    ensures NotTaken(en, group, w, w', e) <==>
            e.source in PropagatedOf(en, w, group) && Outcome(en, w, e.source).Some? && Untaken(Outcome(en, w, e.source).value, e)
  {
    hide Forced, LifelessIds, StateAfter, InputsGiven, RecordsOf, CutAfter, InputsOf;
  }

  /** State fields: what the one member that ran and writes the field gives it; without such a member, what was there. */
  lemma GroupState(en: Engine, group: set<string>, w: World, w': World, n: string, f: string)
    requires InGraph(en, group) && GroupEffect(en, group, w, w') && n in group
    ensures NodeOf(en.g, n).kind != Input && n !in w.skipped && n in w'.outputs && Yields(en, w, n, w'.outputs[n]) &&
            f in Fields(NodeOf(en.g, n).stateWrites) ==>
              FieldGiven(w.state, GivenTo(NodeOf(en.g, n).stateWrites, w'.outputs[n], f), f, w'.state)
    ensures (forall m :: m in group ==> f !in Fields(NodeOf(en.g, m).stateWrites)) ==> SameField(w'.state, w.state, f)
  {
    hide Forced, LifelessIds, RecordsOf, CutAfter, Outcome, InputsGiven, InputsOf;
    var ran, writes := RanOf(en, w, group), NodeOf(en.g, n).stateWrites;
    assert StateAfter(en, w, ran, w'.state);
    if NodeOf(en.g, n).kind != Input && n !in w.skipped && n in w'.outputs && Yields(en, w, n, w'.outputs[n]) && f in Fields(writes) {
      YieldsOutcome(en, w, n, w'.outputs[n]);
      assert n in ran && f in Writes(en, n);
      WrittenField(writes, w'.outputs[n], w.state, f);
      assert SameField(w'.state, Written(writes, w'.outputs[n], w.state), f);
      SameFieldGiven(w.state, GivenTo(writes, w'.outputs[n], f), f, Written(writes, w'.outputs[n], w.state), w'.state);
    }
  }

  lemma YieldsOutcome(en: Engine, w: World, n: string, out: Ports)
    requires n in Ids(en.g) && Yields(en, w, n, out)
    ensures Outcome(en, w, n) == Some(out)
  {
    var inputs: Ports :| InputsGiven(en, w, n, inputs) && en.exec(n, inputs, Restrict(w.state, en.looks(n))) == Some(out);
    OnlyInputs(en, w, n, inputs);
  }
}
