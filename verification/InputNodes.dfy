/** What the loop pass does to input nodes. */
module InputNodes {
  import opened Options
  import opened Graphs
  import opened Validation
  import opened NodeRuns
  import opened LoopSpec
  import opened LoopFacts
  import Loops

  // An input node in a body loses its outputs, one downstream of a loop is executed like any other node. Both happen
  // only in loops whose condition holds at least once.

  type Executor = (string, Ports, Ports) -> Option<Ports>

  function With(en: Engine, exec: Executor): (en': Engine)
    ensures en'.g == en.g
  {
    en.(exec := exec)
  }

  /** Some loop runs that has n in its body or downstream of it. */
  ghost predicate Touched(en: Engine, conds: Conditions, r: Run, loops: seq<Loop>, n: string)
    requires KnownLoops(en, loops)
  {
    loops != [] &&
    var prefix, last := loops[..|loops| - 1], loops[|loops| - 1];
    Touched(en, conds, r, prefix, n) ||
    (RunLoops(en, conds, r, prefix).Ok? && Entered(conds, RunLoops(en, conds, r, prefix).run, last) &&
     (n in last.body || n in last.downstream))
  }

  /** n's outputs are gone, or they are these. */
  predicate Lost(outputs: map<string, Ports>, n: string, other: Ports) {
    n !in outputs || outputs[n] == other
  }

  // ---------- Untouched input nodes ----------

  lemma {:induction false} UntouchedKept(en: Engine, conds: Conditions, r: Run, loops: seq<Loop>, n: string)
    requires KnownLoops(en, loops) && RunLoops(en, conds, r, loops).Ok? && !Touched(en, conds, r, loops, n)
    ensures SameNode(r.outputs, RunLoops(en, conds, r, loops).run.outputs, n)
  {
    if loops != [] {
      var prefix, last := loops[..|loops| - 1], loops[|loops| - 1];
      UntouchedKept(en, conds, r, prefix, n);
      var r1 := RunLoops(en, conds, r, prefix).run;
      if Entered(conds, r1, last) {
        LoopLeavesOthers(en, conds, r1, last, 1, n);
        DownstreamLeavesOthers(en, LoopFrom(en, conds, r1, last, 1).run, last.downstream, n);
      } else {
        NotEntered(en, conds, r1, last);
      }
    }
  }

  lemma NotEntered(en: Engine, conds: Conditions, r: Run, loop: Loop)
    requires Known(en, loop.body) && !Entered(conds, r, loop) && LoopFrom(en, conds, r, loop, 1).Ok?
    ensures LoopFrom(en, conds, r, loop, 1) == Ok(r)
  {
  }

  // ---------- An executor that shows the touch ----------

  /** As exec, but n yields `other` and nothing fails. */
  function Altered(exec: Executor, n: string, other: Ports): Executor {
    (m: string, inputs: Ports, state: Ports) =>
      if m == n then Some(other) else if exec(m, inputs, state).Some? then exec(m, inputs, state) else Some(map[])
  }

  ghost predicate Total(conds: Conditions) {
    forall id, outputs, state :: conds(id, outputs, state).Some?
  }

  /** The two engines agree except on n and on failures of the first. */
  ghost predicate Alters(en: Engine, en': Engine, n: string, other: Ports) {
    && en'.g == en.g && en'.looks == en.looks && n in Ids(en.g) && NodeOf(en.g, n).kind == Input
    && (forall m, inputs, state :: en'.exec(m, inputs, state).Some?)
    && (forall inputs, state :: en'.exec(n, inputs, state) == Some(other))
    && (forall m, inputs, state :: m != n && en.exec(m, inputs, state).Some? ==> en'.exec(m, inputs, state) == en.exec(m, inputs, state))
  }

  lemma {:induction false} SameBody(
    en: Engine, en': Engine, n: string, other: Ports, r: Run, ns: seq<string>, edge: Edge, carried: Option<Value>, i: nat)
    requires Alters(en, en', n, other) && Known(en, ns) && Known(en', ns)
    ensures RunBody(en, r, ns, edge, carried, i).Ok? ==>
              RunBody(en', r, ns, edge, carried, i) == RunBody(en, r, ns, edge, carried, i)
    ensures RunBody(en', r, ns, edge, carried, i).Ok?
    ensures n !in r.outputs ==> n !in RunBody(en', r, ns, edge, carried, i).run.outputs
    ensures Lost(r.outputs, n, other) ==> Lost(RunBody(en', r, ns, edge, carried, i).run.outputs, n, other)
  {
    if ns != [] {
      SameBody(en, en', n, other, r, ns[..|ns| - 1], edge, carried, i);
    }
  }

  lemma {:induction false} SameLoop(en: Engine, en': Engine, conds: Conditions, n: string, other: Ports, r: Run, loop: Loop, i: nat)
    requires Alters(en, en', n, other) && Total(conds) && Known(en, loop.body) && Known(en', loop.body)
    ensures LoopFrom(en, conds, r, loop, i).Ok? ==> LoopFrom(en', conds, r, loop, i) == LoopFrom(en, conds, r, loop, i)
    ensures LoopFrom(en', conds, r, loop, i).Ok?
    ensures Lost(r.outputs, n, other) ==> Lost(LoopFrom(en', conds, r, loop, i).run.outputs, n, other)
    ensures i <= loop.maxIter && Check(conds, r, loop.edge) == Some(true) && n in loop.body ==>
              n !in LoopFrom(en', conds, r, loop, i).run.outputs
    decreases loop.maxIter + 1 - i
  {
    hide Alters;
    if i <= loop.maxIter && Check(conds, r, loop.edge) == Some(true) {
      var cleared := Cleared(r, loop, i);
      SameBody(en, en', n, other, cleared, loop.body, loop.edge, Carried(r.outputs, loop.edge), i);
      SameLoop(en, en', conds, n, other, Iteration(en', r, loop, i).run, loop, i + 1);
      if n in loop.body {
        AltersInput(en, en', n, other);
        StaysGone(en', conds, Iteration(en', r, loop, i).run, loop, i + 1, n);
      }
    }
  }

  lemma AltersInput(en: Engine, en': Engine, n: string, other: Ports)
    requires Alters(en, en', n, other)
    ensures en'.g == en.g && n in Ids(en'.g) && NodeOf(en'.g, n).kind == Input
  {
  }

  /** An input node without outputs stays without them through the iterations of a loop. */
  lemma {:induction false} StaysGone(en: Engine, conds: Conditions, r: Run, loop: Loop, i: nat, n: string)
    requires n in Ids(en.g) && NodeOf(en.g, n).kind == Input && Known(en, loop.body)
    requires n !in r.outputs && LoopFrom(en, conds, r, loop, i).Ok?
    ensures n !in LoopFrom(en, conds, r, loop, i).run.outputs
    decreases loop.maxIter + 1 - i
  {
    if i <= loop.maxIter && Check(conds, r, loop.edge) == Some(true) {
      var cleared := Cleared(r, loop, i);
      InputsNeverReturn(en, cleared, loop.body, loop.edge, Carried(r.outputs, loop.edge), i, n);
      StaysGone(en, conds, Iteration(en, r, loop, i).run, loop, i + 1, n);
    }
  }

  lemma {:induction false} SameDownstream(en: Engine, en': Engine, n: string, other: Ports, r: Run, ns: seq<string>)
    requires Alters(en, en', n, other) && Known(en, ns) && Known(en', ns)
    ensures n !in ns && RunDownstream(en, r, ns).Ok? ==> RunDownstream(en', r, ns) == RunDownstream(en, r, ns)
    ensures RunDownstream(en', r, ns).Ok?
    ensures n in ns || Lost(r.outputs, n, other) ==> Lost(RunDownstream(en', r, ns).run.outputs, n, other)
  {
    if ns != [] {
      SameDownstream(en, en', n, other, r, ns[..|ns| - 1]);
    }
  }

  /** One loop under the altered engine: the same if it does not touch n, and n's outputs are lost if it does. */
  lemma OneLoop(en: Engine, en': Engine, conds: Conditions, n: string, other: Ports, r: Run, loop: Loop)
    requires Alters(en, en', n, other) && Total(conds) && KnownLoops(en, [loop]) && KnownLoops(en', [loop])
    requires Known(en, loop.body) && Known(en, loop.downstream) && Known(en', loop.body) && Known(en', loop.downstream)
    requires forall m :: m in loop.downstream ==> m !in loop.body
    ensures RunLoop(en', conds, r, loop).Ok?
    ensures Lost(r.outputs, n, other) ==> Lost(RunLoop(en', conds, r, loop).run.outputs, n, other)
    ensures RunLoop(en, conds, r, loop).Ok? ==>
              if Entered(conds, r, loop) && (n in loop.body || n in loop.downstream)
              then Lost(RunLoop(en', conds, r, loop).run.outputs, n, other)
              else RunLoop(en', conds, r, loop) == RunLoop(en, conds, r, loop)
  {
    hide Alters, LoopFrom, RunDownstream;
    SameLoop(en, en', conds, n, other, r, loop, 1);
    var r1 := LoopFrom(en', conds, r, loop, 1).run;
    SameDownstream(en, en', n, other, r1, loop.downstream);
  }

  lemma {:induction false} AllLoops(en: Engine, en': Engine, conds: Conditions, n: string, other: Ports, r: Run, loops: seq<Loop>)
    requires Alters(en, en', n, other) && Total(conds) && KnownLoops(en, loops) && KnownLoops(en', loops)
    requires forall l :: l in loops ==> forall m :: m in l.downstream ==> m !in l.body
    ensures RunLoops(en', conds, r, loops).Ok?
    ensures RunLoops(en, conds, r, loops).Ok? ==>
              if Touched(en, conds, r, loops, n) then Lost(RunLoops(en', conds, r, loops).run.outputs, n, other)
              else RunLoops(en', conds, r, loops) == RunLoops(en, conds, r, loops)
  {
    hide Alters, RunLoop, Entered;
    if loops != [] {
      var prefix, last := loops[..|loops| - 1], loops[|loops| - 1];
      assert last in loops && forall l :: l in prefix ==> l in loops;
      AllLoops(en, en', conds, n, other, r, prefix);
      OneLoop(en, en', conds, n, other, RunLoops(en', conds, r, prefix).run, last);
    }
  }

  // ---------- Exactly when input nodes keep their outputs ----------

  /** Every executor with which the loops complete leaves n's outputs as they were. */
  ghost predicate Keeps(en: Engine, conds: Conditions, r: Run, loops: seq<Loop>, n: string)
    requires KnownLoops(en, loops)
  {
    forall exec: Executor :: KeptBy(With(en, exec), conds, r, loops, n)
  }

  ghost predicate KeptBy(en: Engine, conds: Conditions, r: Run, loops: seq<Loop>, n: string)
    requires KnownLoops(en, loops)
  {
    RunLoops(en, conds, r, loops).Ok? ==> SameNode(r.outputs, RunLoops(en, conds, r, loops).run.outputs, n)
  }

  /** With every such executor, no loop that runs has n in its body or downstream of it. */
  ghost predicate Avoids(en: Engine, conds: Conditions, r: Run, loops: seq<Loop>, n: string)
    requires KnownLoops(en, loops)
  {
    forall exec: Executor :: AvoidedBy(With(en, exec), conds, r, loops, n)
  }

  ghost predicate AvoidedBy(en: Engine, conds: Conditions, r: Run, loops: seq<Loop>, n: string)
    requires KnownLoops(en, loops)
  {
    RunLoops(en, conds, r, loops).Ok? ==> !Touched(en, conds, r, loops, n)
  }

  ghost predicate Disjoint(loops: seq<Loop>) {
    forall l :: l in loops ==> forall m :: m in l.downstream ==> m !in l.body
  }

  /** An input node keeps its outputs through the loop pass iff it lies in no body and downstream of no loop that runs. */
  lemma InputKeptIff(en: Engine, conds: Conditions, order: seq<string>, r: Run, loops: seq<Loop>, n: string)
    requires KnownLoops(en, loops) && Total(conds) && forall l :: l in loops ==> Planned(en.g, order, l)
    requires n in Ids(en.g) && NodeOf(en.g, n).kind == Input && n in r.outputs
    ensures Keeps(en, conds, r, loops, n) <==> Avoids(en, conds, r, loops, n)
  {
    hide RunLoops, Touched;
    assert Disjoint(loops);
    if Avoids(en, conds, r, loops, n) {
      forall exec: Executor ensures KeptBy(With(en, exec), conds, r, loops, n) {
        assert AvoidedBy(With(en, exec), conds, r, loops, n);
        if RunLoops(With(en, exec), conds, r, loops).Ok? {
          UntouchedKept(With(en, exec), conds, r, loops, n);
        }
      }
    } else {
      var exec: Executor :| !AvoidedBy(With(en, exec), conds, r, loops, n);
      var shown := TouchShows(With(en, exec), conds, r, loops, n);
      assert With(With(en, exec), shown) == With(en, shown);
    }
  }

  /** An executor under which a touched input node's outputs end up changed. */
  lemma TouchShows(en: Engine, conds: Conditions, r: Run, loops: seq<Loop>, n: string) returns (shown: Executor)
    requires KnownLoops(en, loops) && Total(conds) && Disjoint(loops)
    requires n in Ids(en.g) && NodeOf(en.g, n).kind == Input && n in r.outputs
    requires RunLoops(en, conds, r, loops).Ok? && Touched(en, conds, r, loops, n)
    ensures !KeptBy(With(en, shown), conds, r, loops, n)
  {
    hide RunLoops, Touched;
    var other: Ports := if r.outputs[n] == map[] then map["" := Null] else map[];
    assert "" in map["" := Null];
    assert other != r.outputs[n];
    shown := Altered(en.exec, n, other);
    AlteredAlters(en, n, other);
    AllLoops(en, With(en, shown), conds, n, other, r, loops);
  }

  lemma AlteredAlters(en: Engine, n: string, other: Ports)
    requires n in Ids(en.g) && NodeOf(en.g, n).kind == Input
    ensures Alters(en, With(en, Altered(en.exec, n, other)), n, other)
  {
  }

  // ---------- ... said before the run ----------

  predicate InNoLoop(loops: seq<Loop>, n: string) {
    forall l :: l in loops ==> n !in l.body && n !in l.downstream
  }

  lemma {:induction false} InNoneUntouched(en: Engine, conds: Conditions, r: Run, loops: seq<Loop>, n: string)
    requires KnownLoops(en, loops) && InNoLoop(loops, n)
    ensures !Touched(en, conds, r, loops, n)
  {
    hide RunLoops, Entered;
    if loops != [] {
      assert loops[|loops| - 1] in loops && forall l :: l in loops[..|loops| - 1] ==> l in loops;
      InNoneUntouched(en, conds, r, loops[..|loops| - 1], n);
    }
  }

  /** An executor that never fails. */
  const EMPTY: Executor := (m: string, inputs: Ports, state: Ports) => Some(map[])

  lemma {:induction false} InSomeTouched(en: Engine, r: Run, loops: seq<Loop>, n: string)
    requires KnownLoops(en, loops) && Disjoint(loops) && !InNoLoop(loops, n)
    requires n in Ids(en.g) && NodeOf(en.g, n).kind == Input && forall l :: l in loops ==> l.maxIter >= 1
    ensures Touched(With(en, EMPTY), ALWAYS, r, loops, n) && RunLoops(With(en, EMPTY), ALWAYS, r, loops).Ok?
  {
    hide RunLoops;
    var prefix, last := loops[..|loops| - 1], loops[|loops| - 1];
    assert last in loops && forall l :: l in prefix ==> l in loops;
    AllLoops(With(en, EMPTY), With(en, EMPTY), ALWAYS, n, map[], r, loops);
    AllLoops(With(en, EMPTY), With(en, EMPTY), ALWAYS, n, map[], r, prefix);
    if !InNoLoop(prefix, n) {
      InSomeTouched(en, r, prefix, n);
    } else {
      var l :| l in loops && (n in l.body || n in l.downstream);
      assert loops == prefix + [last];
    }
  }

  lemma PlannedLoops(en: Engine, order: seq<string>, loops: seq<Loop>)
    requires Loops.PlanOf(en.g, order, Loops.BackEdges(en.g.edges), loops)
    ensures Disjoint(loops) && forall l :: l in loops ==> l.maxIter >= 1 && Planned(en.g, order, l)
  {
  }

  /** Whatever executors and conditions do, an input node keeps its outputs iff the plan has it in no loop at all. */
  lemma InputKeptPlanned(en: Engine, order: seq<string>, r: Run, loops: seq<Loop>, n: string)
    requires KnownLoops(en, loops) && Loops.PlanOf(en.g, order, Loops.BackEdges(en.g.edges), loops)
    requires n in Ids(en.g) && NodeOf(en.g, n).kind == Input && n in r.outputs
    ensures (forall conds: Conditions :: Total(conds) ==> Keeps(en, conds, r, loops, n)) <==> InNoLoop(loops, n)
  {
    hide Keeps, RunLoops, Touched;
    PlannedLoops(en, order, loops);
    hide Loops.PlanOf, Planned, Disjoint;
    if InNoLoop(loops, n) {
      forall conds: Conditions | Total(conds) ensures Keeps(en, conds, r, loops, n) {
        forall exec: Executor ensures AvoidedBy(With(en, exec), conds, r, loops, n) {
          InNoneUntouched(With(en, exec), conds, r, loops, n);
        }
        InputKeptIff(en, conds, order, r, loops, n);
      }
    } else {
      InSomeTouched(en, r, loops, n);
      assert !AvoidedBy(With(en, EMPTY), ALWAYS, r, loops, n);
      assert Total(ALWAYS);
      InputKeptIff(en, ALWAYS, order, r, loops, n);
    }
  }

  // ---------- A graph on which it happens ----------

  const STEP := Node("step", Other, [Port("in", None)], ["out"], [], [])
  const QUERY := Node("query", Input, [Port("in", None)], ["out"], [], [])
  const AGAIN := Edge("again", "step", "out", "step", "in", true, Some(1))
  const FEED := Edge("feed", "step", "out", "query", "in", false, None)

  /** A node that repeats itself and feeds an input node, which lies downstream of the loop. */
  const FEEDBACK := Graph([STEP, QUERY], [AGAIN, FEED])

  lemma FeedbackAccepted()
    ensures Accepts(FEEDBACK)
  {
    hide WellFormedNode, WellFormedEdge, HasInput, Cyclic, Valid, TopoOrder;
    FeedbackGraph();
    FeedbackPlan();
    TopoOrderIsAcyclic(FEEDBACK, ["step", "query"]);
    FeedbackParts();
    hide FEEDBACK, Planned, First, Past, Covers;
    assert QUERY in FEEDBACK.nodes && QUERY.kind == Input;
    assert AGAIN in FEEDBACK.edges;
  }

  lemma FeedbackParts()
    ensures forall n :: n in FEEDBACK.nodes <==> n == STEP || n == QUERY
    ensures forall e :: e in FEEDBACK.edges <==> e == AGAIN || e == FEED
    ensures WellFormedNode(STEP) && WellFormedNode(QUERY)
    ensures WellFormedEdge(FEEDBACK, AGAIN) && WellFormedEdge(FEEDBACK, FEED)
  {
    assert STEP in FEEDBACK.nodes && QUERY in FEEDBACK.nodes && AGAIN in FEEDBACK.edges && FEED in FEEDBACK.edges;
    assert Port("in", None) in STEP.inputs && Port("in", None) in QUERY.inputs;
    assert HasInput(STEP, "in") && HasInput(QUERY, "in");
  }

  /** Whatever the caller gave, after the loop pass the input node holds what its executor makes of the loop's result. */
  lemma InputOverwritten(given: Ports, made: Ports)
    ensures var en := Engine(FEEDBACK, (m: string, inputs: Ports, state: Ports) => Some(made), _ => {});
            var loop := Loop(AGAIN, ["step"], 1, ["query"]);
            var r := Run(map["query" := given, "step" := made], map[], [], map[], {}, {});
            && Accepts(FEEDBACK) && "query" in Ids(FEEDBACK) && NodeOf(FEEDBACK, "query").kind == Input
            && Planned(FEEDBACK, ["step", "query"], loop) && KnownLoops(en, [loop])
            && var out := RunLoops(en, ALWAYS, r, [loop]);
               out.Ok? && "query" in out.run.outputs && out.run.outputs["query"] == made
  {
    FeedbackGraph();
    FeedbackPlan();
    FeedbackAccepted();
    hide Accepts, Planned, Valid;
    var en := Engine(FEEDBACK, (m: string, inputs: Ports, state: Ports) => Some(made), _ => {});
    var loop := Loop(AGAIN, ["step"], 1, ["query"]);
    var r := Run(map["query" := given, "step" := made], map[], [], map[], {}, {});
    assert KnownLoops(en, [loop]);
    FeedbackRun(en, ALWAYS, r, loop, made);
    assert [loop][..0] == [];
    assert RunLoops(en, ALWAYS, r, []) == Ok(r);
  }

  lemma FeedbackGraph()
    ensures Valid(FEEDBACK) && Ids(FEEDBACK) == {"step", "query"}
    ensures NodeOf(FEEDBACK, "step") == STEP && NodeOf(FEEDBACK, "query") == QUERY
    ensures forall u, v :: Arc(FEEDBACK, u, v) <==> u == "step" && v == "query"
  {
    var g := FEEDBACK;
    assert STEP in g.nodes && QUERY in g.nodes && FEED in g.edges && AGAIN in g.edges;
    assert STEP.id == "step" && QUERY.id == "query";
    assert forall n :: n in g.nodes ==> n == STEP || n == QUERY;
    assert forall e :: e in g.edges ==> e == AGAIN || e == FEED;
  }

  lemma FeedbackPlan()
    ensures Planned(FEEDBACK, ["step", "query"], Loop(AGAIN, ["step"], 1, ["query"]))
  {
    var g, order, loop := FEEDBACK, ["step", "query"], Loop(AGAIN, ["step"], 1, ["query"]);
    FeedbackGraph();
    assert AGAIN in g.edges && |g.nodes| == 2;
    hide FEEDBACK, Valid;
    assert TopoOrder(g, order);
    assert Position(order, "step") == 0;
    assert order[0..1] == ["step"] && order[1..] == ["query"];
    assert Walk(g, ["step", "query"]);
    assert ReachedBy(g, ["step"], "query", ["step", "query"]);
    assert Reached(g, loop.body, "query");
  }

  lemma FeedbackRun(en: Engine, conds: Conditions, r: Run, loop: Loop, made: Ports)
    requires en.g == FEEDBACK && loop == Loop(AGAIN, ["step"], 1, ["query"])
    requires forall m, inputs, state :: en.exec(m, inputs, state) == Some(made)
    requires forall id, outputs, state :: conds(id, outputs, state) == Some(true)
    ensures Known(en, loop.body) && Known(en, loop.downstream)
    ensures var out := RunLoop(en, conds, r, loop);
            out.Ok? && "query" in out.run.outputs && out.run.outputs["query"] == made
  {
    FeedbackGraph();
    assert ["step"][..0] == [] && ["query"][..0] == [];
    var first := Iteration(en, r, loop, 1);
    var cleared := Cleared(r, loop, 1);
    assert RunBody(en, cleared, [], AGAIN, Carried(r.outputs, AGAIN), 1) == Ok(cleared);
    assert first == RunNode(en, cleared, "step", 1, Injected(AGAIN, Carried(r.outputs, AGAIN), "step"));
    assert first.Ok?;
    assert LoopFrom(en, conds, r, loop, 1) == LoopFrom(en, conds, first.run, loop, 2) == first;
    assert RunDownstream(en, first.run, []) == first;
  }
}
