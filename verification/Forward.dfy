/** The forward pass under every interleaving. */
module ForwardPass {
  import opened Options
  import opened Graphs
  import opened Skips
  import opened NodeRuns

  // One parallel group after another, the nodes of a group as goroutines that interleave at their critical sections.
  // Every schedule of every group ends in the same world.

  datatype StepRecord =
    | Completed(node: string, inputs: Ports, outputs: Ports)
    | Failed(node: string, inputs: Ports)
    | SkippedStep(node: string)

  /** Everything the mutex guards. The order of step records depends on the schedule, so they form a multiset. */
  datatype World = World(
    outputs: map<string, Ports>, state: Ports,
    ghost cut: set<string>, skipped: set<string>, dead: set<string>, steps: multiset<StepRecord>)

  /** How far a node's goroutine got. */
  datatype Phase =
    | Started
    | Resolved(inputs: Ports)
    | Snapped(inputs: Ports, snapshot: Ports)
    | Committed(result: Ports)            // a conditional that has yet to propagate skips
    | Done(outcome: Option<Ports>)

  /** The group loop has looked at `launched` nodes of the group. */
  datatype Config = Config(world: World, launched: nat, phases: map<string, Phase>)

  datatype Step = Launch | ResolveStep(n: string) | SnapStep(n: string) | CommitStep(n: string) | PropagateStep(n: string)

  ghost predicate Enabled(en: Engine, group: seq<string>, c: Config, s: Step) {
    match s
    case Launch => c.launched < |group|
    case ResolveStep(n) => n in c.phases && c.phases[n].Started?
    case SnapStep(n) => n in c.phases && c.phases[n].Resolved?
    case CommitStep(n) => n in c.phases && c.phases[n].Snapped?
    case PropagateStep(n) => n in c.phases && c.phases[n].Committed?
  }

  ghost predicate InGraph(en: Engine, ns: set<string>) {
    ns <= Ids(en.g)
  }

  ghost predicate Runs(en: Engine, w: World, n: string)
    requires n in Ids(en.g)
  {
    NodeOf(en.g, n).kind != Input && n !in w.skipped
  }

  ghost function ExecNode(en: Engine, n: string, inputs: Ports, snapshot: Ports): Option<Ports> {
    en.exec(n, inputs, Restrict(snapshot, en.looks(n)))
  }

  ghost function Log(w: World, r: StepRecord): World {
    w.(steps := w.steps + multiset{r})
  }

  /** A completed node: outputs, state writes and step record under one lock. */
  ghost function Store(en: Engine, c: Config, n: string, inputs: Ports, outputs: Ports): Config
    requires n in Ids(en.g)
  {
    var w := c.world.(
      outputs := c.world.outputs[n := outputs],
      state := Written(NodeOf(en.g, n).stateWrites, outputs, c.world.state));
    var phase := if NodeOf(en.g, n).kind == Conditional then Committed(outputs) else Done(Some(outputs));
    Config(Log(w, Completed(n, inputs, outputs)), c.launched, c.phases[n := phase])
  }

  /** One atomic step of the group loop or of a node's goroutine. */
  ghost function Perform(en: Engine, group: seq<string>, c: Config, s: Step): Config
    requires InGraph(en, Elems(group)) && c.phases.Keys <= Elems(group)
    requires Enabled(en, group, c, s)
  {
    match s
    case Launch =>
      var n := group[c.launched];
      var c' := c.(launched := c.launched + 1);
      if NodeOf(en.g, n).kind == Input then c'
      else if n in c.world.skipped then c'.(world := Log(c.world, SkippedStep(n)))
      else c'.(phases := c.phases[n := Started])
    case ResolveStep(n) =>
      var inputs := Resolve(NodeOf(en.g, n), c.world.outputs, EdgesInto(en.g.edges, n), c.world.state);
      c.(phases := c.phases[n := Resolved(inputs)])
    case SnapStep(n) =>
      c.(phases := c.phases[n := Snapped(c.phases[n].inputs, c.world.state)])
    case CommitStep(n) =>
      var inputs := c.phases[n].inputs;
      (match ExecNode(en, n, inputs, c.phases[n].snapshot)
       case None => Config(Log(c.world, Failed(n, inputs)), c.launched, c.phases[n := Done(None)])
       case Some(outputs) => Store(en, c, n, inputs, outputs))
    case PropagateStep(n) =>
      var outputs := c.phases[n].result;
      var cut := c.world.cut + DeadBranches(en.g, n, outputs);
      var skipped := Forced(en.g, cut);
      Config(c.world.(cut := cut, skipped := skipped, dead := LifelessIds(en.g, cut, skipped)),
             c.launched, c.phases[n := Done(Some(outputs))])
  }

  /** wg.Wait returned. */
  ghost predicate Finished(group: seq<string>, c: Config) {
    c.launched == |group| && forall n :: n in c.phases ==> c.phases[n].Done?
  }

  // ---------- What one group does to a world, said without a schedule ----------

  ghost function InputsOf(en: Engine, w: World, n: string): Ports
    requires n in Ids(en.g)
  {
    Resolve(NodeOf(en.g, n), w.outputs, EdgesInto(en.g.edges, n), w.state)
  }

  ghost function Outcome(en: Engine, w: World, n: string): Option<Ports>
    requires n in Ids(en.g)
  {
    ExecNode(en, n, InputsOf(en, w, n), w.state)
  }

  ghost function RecordOf(en: Engine, w: World, n: string): (r: StepRecord)
    requires n in Ids(en.g)
    ensures r.node == n
  {
    if n in w.skipped then SkippedStep(n)
    else match Outcome(en, w, n)
      case None => Failed(n, InputsOf(en, w, n))
      case Some(out) => Completed(n, InputsOf(en, w, n), out)
  }

  ghost function Writes(en: Engine, n: string): set<string>
    requires n in Ids(en.g)
  {
    Fields(NodeOf(en.g, n).stateWrites)
  }

  ghost function Touches(en: Engine, n: string): set<string>
    requires n in Ids(en.g)
  {
    Fields(NodeOf(en.g, n).stateReads) + en.looks(n) + Writes(en, n)
  }

  /** The state after exactly the nodes of `ran` wrote, each field by at most one of them. */
  ghost predicate StateAfter(en: Engine, w: World, ran: set<string>, state: Ports)
    requires InGraph(en, ran)
  {
    && (forall n, f :: n in ran && f in Writes(en, n) && Outcome(en, w, n).Some? ==>
          SameField(state, Written(NodeOf(en.g, n).stateWrites, Outcome(en, w, n).value, w.state), f))
    && (forall f :: (forall n :: n in ran ==> f !in Writes(en, n)) ==> SameField(state, w.state, f))
  }

  ghost function CutAfter(en: Engine, w: World, propagated: set<string>): set<string>
    requires InGraph(en, propagated)
  {
    w.cut + (set e | e in en.g.edges && e.source in propagated && Outcome(en, w, e.source).Some? &&
                     Untaken(Outcome(en, w, e.source).value, e) :: e.id)
  }

  ghost function RecordsOf(en: Engine, w: World, ns: set<string>): multiset<StepRecord>
    requires InGraph(en, ns)
  {
    multiset(set n | n in ns :: RecordOf(en, w, n))
  }

  ghost function OutputsAfter(en: Engine, w: World, ran: set<string>): map<string, Ports>
    requires InGraph(en, ran)
    requires forall n :: n in ran ==> Outcome(en, w, n).Some?
  {
    w.outputs + map n | n in ran :: Outcome(en, w, n).value
  }

  /** The part of `w'` that follows from which nodes ran, which propagated and which were recorded. */
  ghost predicate Explained(en: Engine, w: World, w': World, ran: set<string>, propagated: set<string>, recorded: set<string>)
    requires InGraph(en, ran) && InGraph(en, propagated) && InGraph(en, recorded)
    requires forall n :: n in ran ==> Outcome(en, w, n).Some?
  {
    && w'.outputs == OutputsAfter(en, w, ran)
    && StateAfter(en, w, ran, w'.state)
    && w'.cut == CutAfter(en, w, propagated)
    && w'.skipped == Forced(en.g, w'.cut)
    && w'.dead == LifelessIds(en.g, w'.cut, w'.skipped)
    && w'.steps == w.steps + RecordsOf(en, w, recorded)
  }

  ghost function RanOf(en: Engine, w: World, group: set<string>): set<string>
    requires InGraph(en, group)
  {
    set n | n in group && Runs(en, w, n) && Outcome(en, w, n).Some?
  }

  ghost function PropagatedOf(en: Engine, w: World, group: set<string>): set<string>
    requires InGraph(en, group)
  {
    set n | n in RanOf(en, w, group) && NodeOf(en.g, n).kind == Conditional
  }

  ghost function RecordedOf(en: Engine, w: World, group: set<string>): set<string>
    requires InGraph(en, group)
  {
    set n | n in group && NodeOf(en.g, n).kind != Input
  }

  /** w' is what the group turns w into: a statement about the set of its nodes, with no order in it. */
  ghost predicate GroupEffect(en: Engine, group: set<string>, w: World, w': World)
    requires InGraph(en, group)
  {
    Explained(en, w, w', RanOf(en, w, group), PropagatedOf(en, w, group), RecordedOf(en, w, group))
  }

  /** ... and there is only one such world. */
  lemma EffectIsUnique(en: Engine, group: set<string>, w: World, a: World, b: World)
    requires InGraph(en, group) && GroupEffect(en, group, w, a) && GroupEffect(en, group, w, b)
    ensures a == b
  {
    var ran := RanOf(en, w, group);
    forall f ensures SameField(a.state, b.state, f) {
      if n :| n in ran && f in Writes(en, n) {
        assert SameField(a.state, Written(NodeOf(en.g, n).stateWrites, Outcome(en, w, n).value, w.state), f);
        assert SameField(b.state, Written(NodeOf(en.g, n).stateWrites, Outcome(en, w, n).value, w.state), f);
      } else {
        assert SameField(a.state, w.state, f) && SameField(b.state, w.state, f);
      }
    }
    SameFields(a.state, b.state);
  }

  lemma SameFields(a: Ports, b: Ports)
    requires forall f :: SameField(a, b, f)
    ensures a == b
  {
    forall f ensures f in a <==> f in b {
      assert SameField(a, b, f);
    }
    forall f | f in a ensures a[f] == b[f] {
      assert SameField(a, b, f);
    }
  }

  // ---------- Every schedule has that effect ----------

  /** What the layering and the design rules guarantee when a group starts. */
  ghost predicate Ready(en: Engine, group: seq<string>, w: World) {
    && Valid(en.g) && UniqueEdges(en.g)
    && Distinct(group) && InGraph(en, Elems(group))
    && (forall u, v :: v in group && Arc(en.g, u, v) ==> u !in group)
    && NoInterference(en, group)
    && w.skipped == Forced(en.g, w.cut) && w.dead == LifelessIds(en.g, w.cut, w.skipped)
    && SkipsDecided(en, group, w)
  }

  /** No member of the group touches a state field that another member writes. */
  ghost predicate NoInterference(en: Engine, group: seq<string>)
    requires InGraph(en, Elems(group))
  {
    forall m, n, f :: m in group && n in group && m != n && f in Writes(en, m) ==> f !in Touches(en, n)
  }

  ghost function Conditionals(en: Engine, group: seq<string>): set<string>
    requires InGraph(en, Elems(group))
  {
    set n | n in Elems(group) && NodeOf(en.g, n).kind == Conditional
  }

  /** Conditionals of the group cannot skip a member of the group. */
  ghost predicate SkipsDecided(en: Engine, group: seq<string>, w: World)
    requires InGraph(en, Elems(group))
  {
    forall propagated: set<string>, n :: propagated <= Conditionals(en, group) && n in group ==>
      (n in Forced(en.g, CutAfter(en, w, propagated)) <==> n in w.skipped)
  }

  ghost function Start(w: World): Config {
    Config(w, 0, map[])
  }

  ghost predicate RanOk(p: Phase) {
    p.Committed? || (p.Done? && p.outcome.Some?)
  }

  ghost function Ran(c: Config): set<string> {
    set n | n in c.phases && RanOk(c.phases[n])
  }

  ghost function Propagated(en: Engine, c: Config): set<string>
    requires InGraph(en, c.phases.Keys)
  {
    set n | n in c.phases && c.phases[n].Done? && c.phases[n].outcome.Some? && NodeOf(en.g, n).kind == Conditional
  }

  ghost function Recorded(en: Engine, group: seq<string>, w: World, c: Config): set<string>
    requires c.launched <= |group| && InGraph(en, Elems(group))
  {
    (set n | n in c.phases && (c.phases[n].Committed? || c.phases[n].Done?)) +
    (set n | n in group[..c.launched] && n in w.skipped && NodeOf(en.g, n).kind != Input)
  }

  ghost predicate PhaseExplained(en: Engine, w: World, n: string, p: Phase)
    requires n in Ids(en.g)
  {
    match p
    case Started => true
    case Resolved(inputs) => inputs == InputsOf(en, w, n)
    case Snapped(inputs, snapshot) =>
      inputs == InputsOf(en, w, n) && Restrict(snapshot, en.looks(n)) == Restrict(w.state, en.looks(n))
    case Committed(result) => Outcome(en, w, n) == Some(result) && NodeOf(en.g, n).kind == Conditional
    case Done(outcome) => outcome == Outcome(en, w, n)
  }

  ghost predicate Accounted(en: Engine, group: seq<string>, w: World, c: Config)
    requires InGraph(en, Elems(group))
  {
    && c.launched <= |group|
    && c.phases.Keys == (set n | n in group[..c.launched] && Runs(en, w, n))
    && (forall n :: n in c.phases ==> n in Ids(en.g) && PhaseExplained(en, w, n, c.phases[n]))
  }

  ghost predicate Invariant(en: Engine, group: seq<string>, w: World, c: Config)
    requires InGraph(en, Elems(group))
  {
    Accounted(en, group, w, c) && Explained(en, w, c.world, Ran(c), Propagated(en, c), Recorded(en, group, w, c))
  }

  lemma StartInvariant(en: Engine, group: seq<string>, w: World)
    requires Ready(en, group, w)
    ensures Invariant(en, group, w, Start(w))
  {
    assert CutAfter(en, w, {}) == w.cut;
    assert RecordsOf(en, w, {}) == multiset{};
  }

  lemma MemberSkips(en: Engine, group: seq<string>, w: World, c: Config, n: string)
    requires Ready(en, group, w) && Invariant(en, group, w, c) && n in group
    ensures n in c.world.skipped <==> n in w.skipped
  {
    assert Propagated(en, c) <= Elems(group);
  }

  lemma LaunchKeeps(en: Engine, group: seq<string>, w: World, c: Config)
    requires Ready(en, group, w) && Invariant(en, group, w, c) && Enabled(en, group, c, Launch)
    ensures Invariant(en, group, w, Perform(en, group, c, Launch))
  {
    hide Forced, LifelessIds, StateAfter, CutAfter, RecordsOf, Outcome, InputsOf, Ready, SkipsDecided, Valid, UniqueEdges;
    var n := group[c.launched];
    assert n in Elems(group);
    MemberSkips(en, group, w, c, n);
    NextMember(en, group, w, c.launched);
    var c' := Perform(en, group, c, Launch);
    assert Ran(c') == Ran(c);
    assert Propagated(en, c') == Propagated(en, c);
    if NodeOf(en.g, n).kind != Input && n in w.skipped {
      assert Recorded(en, group, w, c') == Recorded(en, group, w, c) + {n};
      SkippedRecord(en, w, Recorded(en, group, w, c), n);
    } else {
      assert Recorded(en, group, w, c') == Recorded(en, group, w, c);
    }
  }

  lemma NextMember(en: Engine, group: seq<string>, w: World, k: nat)
    requires Ready(en, group, w) && k < |group|
    ensures InGraph(en, Elems(group))
    ensures group[k] !in group[..k] && group[..k + 1] == group[..k] + [group[k]]
  {
  }

  lemma SkippedRecord(en: Engine, w: World, recorded: set<string>, n: string)
    requires InGraph(en, recorded) && n in Ids(en.g) && n !in recorded && n in w.skipped
    ensures RecordsOf(en, w, recorded + {n}) == RecordsOf(en, w, recorded) + multiset{SkippedStep(n)}
  {
    RecordMore(en, w, recorded, n);
  }

  lemma RecordMore(en: Engine, w: World, recorded: set<string>, n: string)
    requires InGraph(en, recorded) && n in Ids(en.g) && n !in recorded
    ensures RecordsOf(en, w, recorded + {n}) == RecordsOf(en, w, recorded) + multiset{RecordOf(en, w, n)}
  {
    var before := set m | m in recorded :: RecordOf(en, w, m);
    var after := set m | m in recorded + {n} :: RecordOf(en, w, m);
    assert after == before + {RecordOf(en, w, n)};
    assert RecordOf(en, w, n) !in before;
  }

  lemma InGroup'(en: Engine, group: seq<string>, w: World, c: Config, n: string)
    requires Ready(en, group, w) && Accounted(en, group, w, c) && n in c.phases
    ensures InGraph(en, Elems(group)) && c.phases.Keys <= Elems(group)
    ensures n in group && n in Ids(en.g) && n !in w.skipped && NodeOf(en.g, n).kind != Input
  {
    assert n in group[..c.launched];
  }

  /** What a running node reads or writes, no other member has written. */
  lemma Untouched(en: Engine, group: seq<string>, w: World, c: Config, n: string, f: string)
    requires Ready(en, group, w) && Invariant(en, group, w, c)
    requires n in c.phases && n !in Ran(c) && f in Touches(en, n)
    ensures SameField(c.world.state, w.state, f)
  {
    forall m | m in Ran(c) ensures f !in Writes(en, m) {
      InGroup'(en, group, w, c, m);
      InGroup'(en, group, w, c, n);
    }
  }

  /** Resolving against the current maps gives what the group's starting world gives. */
  lemma ResolvesAsAtStart(en: Engine, group: seq<string>, w: World, c: Config, n: string)
    requires Ready(en, group, w) && Invariant(en, group, w, c) && n in c.phases && n !in Ran(c)
    ensures Resolve(NodeOf(en.g, n), c.world.outputs, EdgesInto(en.g.edges, n), c.world.state) == InputsOf(en, w, n)
  {
    hide Valid, UniqueEdges, SkipsDecided, Forced, LifelessIds, RecordsOf, CutAfter, StateAfter, Outcome;
    InGroup'(en, group, w, c, n);
    forall u | Arc(en.g, u, n) ensures SameNode(c.world.outputs, w.outputs, u) {
      assert u !in group;
      if u in Ran(c) {
        InGroup'(en, group, w, c, u);
      }
    }
    forall f | f in Fields(NodeOf(en.g, n).stateReads) ensures SameField(c.world.state, w.state, f) {
      Untouched(en, group, w, c, n, f);
    }
    ResolveIsLocal(en.g, NodeOf(en.g, n), c.world.outputs, w.outputs, c.world.state, w.state);
  }

  lemma SnapshotsAsAtStart(en: Engine, group: seq<string>, w: World, c: Config, n: string)
    requires Ready(en, group, w) && Invariant(en, group, w, c) && n in c.phases && n !in Ran(c)
    ensures Restrict(c.world.state, en.looks(n)) == Restrict(w.state, en.looks(n))
  {
    hide Valid, UniqueEdges, SkipsDecided, Forced, LifelessIds, RecordsOf, CutAfter, StateAfter, Outcome;
    InGroup'(en, group, w, c, n);
    forall f | f in en.looks(n) ensures SameField(c.world.state, w.state, f) {
      assert f in Touches(en, n);
      Untouched(en, group, w, c, n, f);
    }
  }

  lemma ReadKeeps(en: Engine, group: seq<string>, w: World, c: Config, s: Step)
    requires Ready(en, group, w) && Invariant(en, group, w, c) && Enabled(en, group, c, s)
    requires s.ResolveStep? || s.SnapStep?
    ensures InGraph(en, Elems(group)) && c.phases.Keys <= Elems(group)
    ensures Invariant(en, group, w, Perform(en, group, c, s))
  {
    hide Forced, LifelessIds, StateAfter, CutAfter, RecordsOf, InputsOf, SkipsDecided, Valid, UniqueEdges, NoInterference, Resolve, Accounted;
    AllInGraph(en, group, w, c);
    ReadAccounted(en, group, w, c, s);
    var c' := Perform(en, group, c, s);
    assert c'.phases.Keys == c.phases.Keys && InGraph(en, c'.phases.Keys) && c'.launched == c.launched <= |group|;
    assert Ran(c') == Ran(c);
    assert Propagated(en, c') == Propagated(en, c);
    assert Recorded(en, group, w, c') == Recorded(en, group, w, c);
  }

  lemma AllInGraph(en: Engine, group: seq<string>, w: World, c: Config)
    requires InGraph(en, Elems(group)) && Accounted(en, group, w, c)
    ensures c.phases.Keys <= Elems(group) && InGraph(en, c.phases.Keys) && c.launched <= |group|
  {
  }

  lemma ReadAccounted(en: Engine, group: seq<string>, w: World, c: Config, s: Step)
    requires Ready(en, group, w) && Invariant(en, group, w, c) && Enabled(en, group, c, s)
    requires s.ResolveStep? || s.SnapStep?
    ensures InGraph(en, Elems(group)) && c.phases.Keys <= Elems(group)
    ensures Accounted(en, group, w, Perform(en, group, c, s))
  {
    hide Explained, InputsOf, SkipsDecided, Valid, UniqueEdges, Resolve, NoInterference;
    InGroup'(en, group, w, c, s.n);
    ResolvesAsAtStart(en, group, w, c, s.n);
    SnapshotsAsAtStart(en, group, w, c, s.n);
  }

  /** One more member's writes on top of the others'. */
  lemma OneMoreWriter(en: Engine, group: seq<string>, w: World, ran: set<string>, state: Ports, n: string)
    requires Ready(en, group, w) && ran <= Elems(group) && n in group && n !in ran
    requires StateAfter(en, w, ran, state) && Outcome(en, w, n).Some?
    ensures StateAfter(en, w, ran + {n}, Written(NodeOf(en.g, n).stateWrites, Outcome(en, w, n).value, state))
  {
    var writes, out := NodeOf(en.g, n).stateWrites, Outcome(en, w, n).value;
    var state' := Written(writes, out, state);
    forall m, f | m in ran + {n} && f in Writes(en, m) && Outcome(en, w, m).Some?
      ensures SameField(state', Written(NodeOf(en.g, m).stateWrites, Outcome(en, w, m).value, w.state), f)
    {
      WrittenIsLocal(writes, out, state, w.state, f);
      if m == n {
        assert forall k :: k in ran ==> f !in Writes(en, k);
        assert SameField(state, w.state, f);
      } else {
        assert f !in Touches(en, n);
      }
    }
    forall f | forall m :: m in ran + {n} ==> f !in Writes(en, m) ensures SameField(state', w.state, f) {
      WrittenIsLocal(writes, out, state, w.state, f);
      assert n in ran + {n};
      assert forall m :: m in ran ==> m in ran + {n};
      assert SameField(state, w.state, f);
    }
  }

  /** The executor sees what it would have seen at the start, so it does what it would have done. */
  lemma ExecutesAsAtStart(en: Engine, group: seq<string>, w: World, c: Config, n: string)
    requires Ready(en, group, w) && Accounted(en, group, w, c) && Enabled(en, group, c, CommitStep(n))
    ensures n in Ids(en.g) && ExecNode(en, n, c.phases[n].inputs, c.phases[n].snapshot) == Outcome(en, w, n)
    ensures c.phases[n].inputs == InputsOf(en, w, n)
  {
    hide Valid, UniqueEdges, SkipsDecided, Resolve, Forced, LifelessIds;
  }

  lemma RecordedGrows(en: Engine, group: seq<string>, w: World, c: Config, n: string, world: World, p: Phase)
    requires Ready(en, group, w) && Accounted(en, group, w, c) && n in c.phases && c.phases[n].Snapped?
    requires p.Committed? || p.Done?
    ensures n in Ids(en.g) && n !in w.skipped
    ensures var c' := Config(world, c.launched, c.phases[n := p]);
            RecordsOf(en, w, Recorded(en, group, w, c')) ==
            RecordsOf(en, w, Recorded(en, group, w, c)) + multiset{RecordOf(en, w, n)}
  {
    hide RecordsOf, InputsOf, Ready, Outcome;
    InGroup'(en, group, w, c, n);
    RecordMore(en, w, Recorded(en, group, w, c), n);
    assert Recorded(en, group, w, Config(world, c.launched, c.phases[n := p])) == Recorded(en, group, w, c) + {n};
  }

  lemma CommitKeeps(en: Engine, group: seq<string>, w: World, c: Config, n: string)
    requires Ready(en, group, w) && Invariant(en, group, w, c) && Enabled(en, group, c, CommitStep(n))
    ensures InGraph(en, Elems(group)) && c.phases.Keys <= Elems(group)
    ensures Invariant(en, group, w, Perform(en, group, c, CommitStep(n)))
  {
    hide Forced, LifelessIds, StateAfter, CutAfter, RecordsOf, InputsOf, Ready, SkipsDecided, Valid, UniqueEdges, Outcome, ExecNode, Store;
    InGroup'(en, group, w, c, n);
    ExecutesAsAtStart(en, group, w, c, n);
    match Outcome(en, w, n)
    case Some(outputs) =>
      CommitSuccess(en, group, w, c, n, outputs);
    case None =>
      var c' := Perform(en, group, c, CommitStep(n));
      RecordedGrows(en, group, w, c, n, c'.world, Done(None));
      assert Ran(c') == Ran(c);
      assert Propagated(en, c') == Propagated(en, c);
  }

  lemma OneMoreOutput(en: Engine, w: World, ran: set<string>, n: string)
    requires InGraph(en, ran) && n in Ids(en.g) && Outcome(en, w, n).Some?
    requires forall m :: m in ran ==> Outcome(en, w, m).Some?
    ensures OutputsAfter(en, w, ran + {n}) == OutputsAfter(en, w, ran)[n := Outcome(en, w, n).value]
  {
    hide Outcome;
    assert forall m :: m in ran + {n} <==> m in ran || m == n;
  }

  lemma PhaseAdvances(en: Engine, group: seq<string>, w: World, c: Config, n: string, world: World, p: Phase)
    requires Ready(en, group, w) && Accounted(en, group, w, c) && n in c.phases
    requires n in Ids(en.g) && PhaseExplained(en, w, n, p)
    ensures Accounted(en, group, w, Config(world, c.launched, c.phases[n := p]))
  {
    hide Ready, PhaseExplained, Runs;
    assert c.phases[n := p].Keys == c.phases.Keys;
  }

  lemma CommitSuccess(en: Engine, group: seq<string>, w: World, c: Config, n: string, outputs: Ports)
    requires Ready(en, group, w) && Invariant(en, group, w, c) && n in c.phases && c.phases[n].Snapped?
    requires n in Ids(en.g) && n !in w.skipped && Outcome(en, w, n) == Some(outputs)
    ensures Invariant(en, group, w, Store(en, c, n, InputsOf(en, w, n), outputs))
  {
    hide Forced, LifelessIds, StateAfter, CutAfter, RecordsOf, InputsOf, Ready, Written, Outcome, OutputsAfter, Accounted, Recorded;
    InGroup'(en, group, w, c, n);
    RanInGroup(en, group, w, c);
    OneMoreWriter(en, group, w, Ran(c), c.world.state, n);
    OneMoreOutput(en, w, Ran(c), n);
    var c' := Store(en, c, n, InputsOf(en, w, n), outputs);
    PhaseAdvances(en, group, w, c, n, c'.world, c'.phases[n]);
    RecordedGrows(en, group, w, c, n, c'.world, c'.phases[n]);
    assert Ran(c') == Ran(c) + {n};
    assert Propagated(en, c') == Propagated(en, c);
  }

  lemma RanInGroup(en: Engine, group: seq<string>, w: World, c: Config)
    requires Ready(en, group, w) && Accounted(en, group, w, c)
    ensures Ran(c) <= Elems(group)
    ensures forall n :: n in Ran(c) ==> n in Ids(en.g) && Outcome(en, w, n).Some?
  {
    hide Outcome;
    forall n | n in Ran(c) ensures n in group && n in Ids(en.g) && Outcome(en, w, n).Some? {
      InGroup'(en, group, w, c, n);
      assert PhaseExplained(en, w, n, c.phases[n]);
    }
  }

  lemma CutMore(en: Engine, w: World, propagated: set<string>, n: string)
    requires InGraph(en, propagated) && n in Ids(en.g) && Outcome(en, w, n).Some?
    ensures CutAfter(en, w, propagated + {n}) == CutAfter(en, w, propagated) + DeadBranches(en.g, n, Outcome(en, w, n).value)
  {
  }

  lemma PropagateKeeps(en: Engine, group: seq<string>, w: World, c: Config, n: string)
    requires Ready(en, group, w) && Invariant(en, group, w, c) && Enabled(en, group, c, PropagateStep(n))
    ensures InGraph(en, Elems(group)) && c.phases.Keys <= Elems(group)
    ensures Invariant(en, group, w, Perform(en, group, c, PropagateStep(n)))
  {
    hide Forced, LifelessIds, StateAfter, CutAfter, RecordsOf, InputsOf, Ready, SkipsDecided, Valid, UniqueEdges, Resolve, Outcome, DeadBranches;
    InGroup'(en, group, w, c, n);
    var c' := Perform(en, group, c, PropagateStep(n));
    assert Ran(c') == Ran(c);
    assert Propagated(en, c') == Propagated(en, c) + {n};
    assert Recorded(en, group, w, c') == Recorded(en, group, w, c);
    CutMore(en, w, Propagated(en, c), n);
  }

  // ---------- Schedules ----------

  /** A schedule, given as the configurations it passes through. */
  ghost predicate Schedule(en: Engine, group: seq<string>, cs: seq<Config>)
    requires InGraph(en, Elems(group))
  {
    && cs != []
    && (forall i, j :: 0 <= i < j < |cs| && j == i + 1 ==> Steps(en, group, cs[i], cs[j]))
  }

  ghost predicate Steps(en: Engine, group: seq<string>, c: Config, c': Config)
    requires InGraph(en, Elems(group))
  {
    exists s :: Enabled(en, group, c, s) && c.phases.Keys <= Elems(group) && c' == Perform(en, group, c, s)
  }

  lemma StepKeeps(en: Engine, group: seq<string>, w: World, c: Config, c': Config)
    requires Ready(en, group, w) && Invariant(en, group, w, c) && Steps(en, group, c, c')
    ensures Invariant(en, group, w, c')
  {
    hide Explained, Accounted, Valid, UniqueEdges, SkipsDecided;
    var s :| Enabled(en, group, c, s) && c.phases.Keys <= Elems(group) && c' == Perform(en, group, c, s);
    match s
    case Launch => LaunchKeeps(en, group, w, c);
    case ResolveStep(n) => ReadKeeps(en, group, w, c, s);
    case SnapStep(n) => ReadKeeps(en, group, w, c, s);
    case CommitStep(n) => CommitKeeps(en, group, w, c, n);
    case PropagateStep(n) => PropagateKeeps(en, group, w, c, n);
  }

  lemma {:induction false} ScheduleKeeps(en: Engine, group: seq<string>, w: World, cs: seq<Config>, k: nat)
    requires Ready(en, group, w) && Schedule(en, group, cs) && cs[0] == Start(w) && k < |cs|
    ensures Invariant(en, group, w, cs[k])
  {
    hide Invariant, Ready, Steps;
    if k == 0 {
      StartInvariant(en, group, w);
    } else {
      ScheduleKeeps(en, group, w, cs, k - 1);
      StepKeeps(en, group, w, cs[k - 1], cs[k]);
    }
  }

  lemma FinishedEffect(en: Engine, group: seq<string>, w: World, c: Config)
    requires Ready(en, group, w) && Invariant(en, group, w, c) && Finished(group, c)
    ensures GroupEffect(en, Elems(group), w, c.world)
  {
    hide Valid, UniqueEdges, SkipsDecided, Forced, LifelessIds, RecordsOf, CutAfter, StateAfter, Resolve, Untaken;
    assert group[..|group|] == group;
    assert Ran(c) == RanOf(en, w, Elems(group));
    assert Propagated(en, c) == PropagatedOf(en, w, Elems(group));
    assert Recorded(en, group, w, c) == RecordedOf(en, w, Elems(group));
  }

  /** However a group's goroutines interleave, the group has its effect. */
  lemma GroupConfluence(en: Engine, group: seq<string>, w: World, cs: seq<Config>)
    requires Ready(en, group, w) && Schedule(en, group, cs)
    requires cs[0] == Start(w) && Finished(group, cs[|cs| - 1])
    ensures GroupEffect(en, Elems(group), w, cs[|cs| - 1].world)
  {
    ScheduleKeeps(en, group, w, cs, |cs| - 1);
    FinishedEffect(en, group, w, cs[|cs| - 1]);
  }

  // ---------- Schedules exist, one node at a time or otherwise, and end ----------

  ghost predicate OneActive(c: Config) {
    forall m, n :: m in c.phases && n in c.phases && !c.phases[m].Done? && !c.phases[n].Done? ==> m == n
  }

  lemma StepFirst(en: Engine, group: seq<string>, c: Config, cs: seq<Config>)
    requires InGraph(en, Elems(group)) && Schedule(en, group, cs) && Steps(en, group, c, cs[0])
    ensures Schedule(en, group, [c] + cs)
  {
    var longer := [c] + cs;
    forall i, j | 0 <= i < j < |longer| && j == i + 1 ensures Steps(en, group, longer[i], longer[j]) {
      if i > 0 {
        assert longer[i] == cs[i - 1] && longer[j] == cs[j - 1];
      }
    }
  }

  ghost function StepsLeft(p: Phase): nat {
    match p
    case Started => 4
    case Resolved(_) => 3
    case Snapped(_, _) => 2
    case Committed(_) => 1
    case Done(_) => 0
  }

  /** From a moment when no goroutine runs, the rest of the group can be run one node at a time. */
  lemma OneAtATime(en: Engine, group: seq<string>, c: Config) returns (cs: seq<Config>)
    requires InGraph(en, Elems(group)) && c.launched <= |group| && c.phases.Keys <= Elems(group)
    requires forall n :: n in c.phases ==> c.phases[n].Done?
    ensures Schedule(en, group, cs) && cs[0] == c && Finished(group, cs[|cs| - 1])
    ensures forall i :: 0 <= i < |cs| ==> OneActive(cs[i])
    decreases |group| - c.launched, 0
  {
    if c.launched == |group| {
      return [c];
    }
    var c' := Perform(en, group, c, Launch);
    assert Enabled(en, group, c, Launch) && Steps(en, group, c, c');
    if c'.phases == c.phases {
      cs := OneAtATime(en, group, c');
    } else {
      cs := DriveNode(en, group, c', group[c.launched]);
    }
    StepFirst(en, group, c, cs);
    cs := [c] + cs;
  }

  ghost function StepOf(p: Phase, n: string): Step
    requires !p.Done?
  {
    match p
    case Started => ResolveStep(n)
    case Resolved(_) => SnapStep(n)
    case Snapped(_, _) => CommitStep(n)
    case Committed(_) => PropagateStep(n)
  }

  lemma DriveNode(en: Engine, group: seq<string>, c: Config, n: string) returns (cs: seq<Config>)
    requires InGraph(en, Elems(group)) && c.launched <= |group| && c.phases.Keys <= Elems(group) && n in c.phases
    requires forall m :: m in c.phases && m != n ==> c.phases[m].Done?
    ensures Schedule(en, group, cs) && cs[0] == c && Finished(group, cs[|cs| - 1])
    ensures forall i :: 0 <= i < |cs| ==> OneActive(cs[i])
    decreases |group| - c.launched, 1 + StepsLeft(c.phases[n])
  {
    hide Resolve, Written, Forced, LifelessIds, DeadBranches, ExecNode;
    if c.phases[n].Done? {
      cs := OneAtATime(en, group, c);
    } else {
      var s := StepOf(c.phases[n], n);
      var c' := Perform(en, group, c, s);
      assert Enabled(en, group, c, s) && Steps(en, group, c, c');
      cs := DriveNode(en, group, c', n);
      StepFirst(en, group, c, cs);
      cs := [c] + cs;
    }
  }

  /** What a member of the group has left to do. */
  ghost function Left(group: seq<string>, c: Config, k: nat): nat
    requires k < |group|
  {
    if k >= c.launched then 5 else if group[k] in c.phases then StepsLeft(c.phases[group[k]]) else 0
  }

  /** An upper bound on the steps the first k nodes of the group can still take. */
  ghost function Work(group: seq<string>, c: Config, k: nat): nat
    requires k <= |group|
  {
    if k == 0 then 0
    else Work(group, c, k - 1) + Left(group, c, k - 1)
  }

  /** The group index whose node a step concerns. */
  ghost predicate Concerns(group: seq<string>, c: Config, s: Step, i: nat) {
    i < |group| && if s.Launch? then i == c.launched else i < c.launched && group[i] == s.n
  }

  lemma {:induction false} WorkDrops(en: Engine, group: seq<string>, c: Config, s: Step, i: nat, k: nat)
    requires InGraph(en, Elems(group)) && Distinct(group) && c.launched <= |group|
    requires c.phases.Keys <= Elems(group[..c.launched]) <= Elems(group)
    requires Enabled(en, group, c, s) && Concerns(group, c, s, i) && k <= |group|
    ensures Work(group, Perform(en, group, c, s), k) <= Work(group, c, k) - if i < k then 1 else 0
  {
    hide Perform, Enabled, Concerns, StepsLeft;
    if k > 0 {
      WorkDrops(en, group, c, s, i, k - 1);
      MemberDrops(en, group, c, s, i, k - 1);
    }
  }

  lemma MemberDrops(en: Engine, group: seq<string>, c: Config, s: Step, i: nat, k: nat)
    requires InGraph(en, Elems(group)) && Distinct(group) && c.launched <= |group|
    requires c.phases.Keys <= Elems(group[..c.launched]) <= Elems(group)
    requires Enabled(en, group, c, s) && Concerns(group, c, s, i) && k < |group|
    ensures Left(group, Perform(en, group, c, s), k) <= Left(group, c, k) - if i == k then 1 else 0
  {
    hide Resolve, Written, Forced, LifelessIds, DeadBranches, ExecNode, InGraph;
  }

  /** No deadlock: until wg.Wait returns, some step can be taken. */
  lemma NoDeadlock(en: Engine, group: seq<string>, c: Config)
    requires c.launched <= |group| && !Finished(group, c)
    ensures exists s :: Enabled(en, group, c, s)
  {
    if c.launched < |group| {
      assert Enabled(en, group, c, Launch);
    } else {
      var n :| n in c.phases && !c.phases[n].Done?;
      assert Enabled(en, group, c, ResolveStep(n)) || Enabled(en, group, c, SnapStep(n)) ||
             Enabled(en, group, c, CommitStep(n)) || Enabled(en, group, c, PropagateStep(n));
    }
  }

  /** Every schedule ends: a group of k nodes takes at most 5k steps. */
  lemma {:induction false} SchedulesEnd(en: Engine, group: seq<string>, w: World, cs: seq<Config>, k: nat)
    requires Ready(en, group, w) && Schedule(en, group, cs) && cs[0] == Start(w) && k < |cs|
    ensures Work(group, cs[k], |group|) + k <= 5 * |group|
  {
    hide Enabled, Perform, Explained, NoInterference, SkipsDecided, Valid, UniqueEdges;
    if k == 0 {
      StartWork(group, w, |group|);
    } else {
      SchedulesEnd(en, group, w, cs, k - 1);
      ScheduleKeeps(en, group, w, cs, k - 1);
      assert Steps(en, group, cs[k - 1], cs[k]);
      StepWork(en, group, w, cs[k - 1], cs[k]);
    }
  }

  lemma {:induction false} StartWork(group: seq<string>, w: World, k: nat)
    requires k <= |group|
    ensures Work(group, Start(w), k) == 5 * k
  {
    if k > 0 {
      StartWork(group, w, k - 1);
    }
  }

  lemma StepWork(en: Engine, group: seq<string>, w: World, c: Config, c': Config)
    requires Ready(en, group, w) && Accounted(en, group, w, c) && Steps(en, group, c, c')
    ensures Work(group, c', |group|) < Work(group, c, |group|)
  {
    hide Perform, PhaseExplained, SkipsDecided, Valid, UniqueEdges, NoInterference, Runs;
    var s :| Enabled(en, group, c, s) && c.phases.Keys <= Elems(group) && c' == Perform(en, group, c, s);
    if s.Launch? {
      WorkDrops(en, group, c, s, c.launched, |group|);
    } else {
      assert s.n in group[..c.launched];
      var i :| 0 <= i < c.launched && group[..c.launched][i] == s.n;
      WorkDrops(en, group, c, s, i, |group|);
    }
  }
}
