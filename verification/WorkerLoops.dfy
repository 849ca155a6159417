/** The distributed loop pass. */
module WorkerLoops {
  import opened Options
  import opened Graphs
  import opened Validation
  import opened Skips
  import opened NodeRuns
  import opened LoopSpec
  import opened LoopFacts
  import WorkerGroups

  // It plans and iterates as the in-process loop pass does, but dispatches its nodes, one at a time. A step stands for the
  // result it took from a node, or for the failure that ended it.

  type Placement = WorkerGroups.Placement

  // ---------- The pass as functions ----------

  ghost function InputsAt(en: Engine, r: Run, n: string, injected: Option<(string, Value)>): Ports
    requires n in Ids(en.g)
  {
    Inject(Resolve(NodeOf(en.g, n), r.outputs, EdgesInto(en.g.edges, n), r.state), injected)
  }

  ghost predicate Fails(en: Engine, r: Run, n: string, inputs: Ports) {
    en.exec(n, inputs, Restrict(r.state, en.looks(n))).None?
  }

  /**
   * Dispatch and wait. A node that runs in process does what it does there; a task may be impossible to build; and where
   * the status of results is not looked at, a failed task counts as one without outputs.
   */
  ghost function FarNode(
    en: Engine, p: Placement, r: Run, n: string, iteration: nat, injected: Option<(string, Value)>, lenient: bool): Result
    requires n in Ids(en.g)
  {
    var inputs := InputsAt(en, r, n, injected);
    if WorkerGroups.Inline(en, p, n) then RunNode(en, r, n, iteration, injected)
    else if p.rejects(n, inputs, r.state) then
      Err(r.(steps := r.steps + [Failed(n, iteration, inputs)], states := r.states + {r.state}))
    else if lenient && Fails(en, r, n, inputs) then
      Ok(r.(outputs := r.outputs[n := map[]], steps := r.steps + [Completed(n, iteration, inputs, map[])],
            states := r.states + {r.state}))
    else RunNode(en, r, n, iteration, injected)
  }

  ghost function FarBody(
    en: Engine, p: Placement, r: Run, ns: seq<string>, edge: Edge, carried: Option<Value>, iteration: nat): Result
    requires Known(en, ns)
  {
    if ns == [] then Ok(r)
    else
      var n := ns[|ns| - 1];
      match FarBody(en, p, r, ns[..|ns| - 1], edge, carried, iteration)
      case Err(r1) => Err(r1)
      case Ok(r1) =>
        if NodeOf(en.g, n).kind == Input then Ok(r1)
        else FarNode(en, p, r1, n, iteration, Injected(edge, carried, n), false)
  }

  ghost function FarIteration(en: Engine, p: Placement, r: Run, loop: Loop, iteration: nat): Result
    requires Known(en, loop.body)
  {
    FarBody(en, p, Cleared(r, loop, iteration), loop.body, loop.edge, Carried(r.outputs, loop.edge), iteration)
  }

  ghost function FarFrom(en: Engine, p: Placement, conds: Conditions, r: Run, loop: Loop, i: nat): Result
    requires Known(en, loop.body)
    decreases loop.maxIter + 1 - i
  {
    if i > loop.maxIter then Ok(r)
    else match Check(conds, r, loop.edge)
      case None => Err(r)
      case Some(again) =>
        if !again then Ok(r)
        else match FarIteration(en, p, r, loop, i)
          case Err(r1) => Err(r1)
          case Ok(r1) => FarFrom(en, p, conds, r1, loop, i + 1)
  }

  /** Here the status of results is not looked at. */
  ghost function FarDownstream(en: Engine, p: Placement, r: Run, ns: seq<string>): Result
    requires Known(en, ns)
  {
    if ns == [] then Ok(r)
    else match FarDownstream(en, p, r, ns[..|ns| - 1])
      case Err(r1) => Err(r1)
      case Ok(r1) => FarNode(en, p, r1, ns[|ns| - 1], 0, None, true)
  }

  ghost function FarLoop(en: Engine, p: Placement, conds: Conditions, r: Run, loop: Loop): Result
    requires Known(en, loop.body) && Known(en, loop.downstream)
  {
    match FarFrom(en, p, conds, r, loop, 1)
    case Err(r1) => Err(r1)
    case Ok(r1) => if Entered(conds, r, loop) then FarDownstream(en, p, r1, loop.downstream) else Ok(r1)
  }

  ghost function FarLoops(en: Engine, p: Placement, conds: Conditions, r: Run, loops: seq<Loop>): Result
    requires KnownLoops(en, loops)
  {
    if loops == [] then Ok(r)
    else match FarLoops(en, p, conds, r, loops[..|loops| - 1])
      case Err(r1) => Err(r1)
      case Ok(r1) => FarLoop(en, p, conds, r1, loops[|loops| - 1])
  }

  // ---------- Where they part ----------

  /** A task that cannot be built though the node would succeed, or a failed task whose status nobody looks at. */
  ghost predicate Parts(
    en: Engine, p: Placement, r: Run, n: string, injected: Option<(string, Value)>, lenient: bool)
    requires n in Ids(en.g)
  {
    var inputs := InputsAt(en, r, n, injected);
    && !WorkerGroups.Inline(en, p, n)
    && if p.rejects(n, inputs, r.state) then !Fails(en, r, n, inputs) else lenient && Fails(en, r, n, inputs)
  }

  /** No node of the in-process body parts them, up to its end or its failure. */
  ghost predicate BodyAgrees(
    en: Engine, p: Placement, r: Run, ns: seq<string>, edge: Edge, carried: Option<Value>, iteration: nat)
    requires Known(en, ns)
  {
    ns == [] ||
    var n, before := ns[|ns| - 1], RunBody(en, r, ns[..|ns| - 1], edge, carried, iteration);
    && BodyAgrees(en, p, r, ns[..|ns| - 1], edge, carried, iteration)
    && (before.Ok? && NodeOf(en.g, n).kind != Input ==> !Parts(en, p, before.run, n, Injected(edge, carried, n), false))
  }

  ghost predicate IterationsAgree(en: Engine, p: Placement, conds: Conditions, r: Run, loop: Loop, i: nat)
    requires Known(en, loop.body)
    decreases loop.maxIter + 1 - i
  {
    i <= loop.maxIter && Check(conds, r, loop.edge) == Some(true) ==>
      && BodyAgrees(en, p, Cleared(r, loop, i), loop.body, loop.edge, Carried(r.outputs, loop.edge), i)
      && (Iteration(en, r, loop, i).Ok? ==> IterationsAgree(en, p, conds, Iteration(en, r, loop, i).run, loop, i + 1))
  }

  ghost predicate DownstreamAgrees(en: Engine, p: Placement, r: Run, ns: seq<string>)
    requires Known(en, ns)
  {
    ns == [] ||
    var n, before := ns[|ns| - 1], RunDownstream(en, r, ns[..|ns| - 1]);
    && DownstreamAgrees(en, p, r, ns[..|ns| - 1])
    && (before.Ok? ==> !Parts(en, p, before.run, n, None, true))
  }

  ghost predicate LoopAgrees(en: Engine, p: Placement, conds: Conditions, r: Run, loop: Loop)
    requires Known(en, loop.body) && Known(en, loop.downstream)
  {
    && IterationsAgree(en, p, conds, r, loop, 1)
    && (LoopFrom(en, conds, r, loop, 1).Ok? && Entered(conds, r, loop) ==>
          DownstreamAgrees(en, p, LoopFrom(en, conds, r, loop, 1).run, loop.downstream))
  }

  ghost predicate LoopsAgree(en: Engine, p: Placement, conds: Conditions, r: Run, loops: seq<Loop>)
    requires KnownLoops(en, loops)
  {
    loops == [] ||
    var before := RunLoops(en, conds, r, loops[..|loops| - 1]);
    && LoopsAgree(en, p, conds, r, loops[..|loops| - 1])
    && (before.Ok? ==> LoopAgrees(en, p, conds, before.run, loops[|loops| - 1]))
  }

  // ---------- Once parted, they stay parted ----------

  ghost predicate Apart(a: Result, b: Result) {
    exists k :: 0 <= k < |a.run.steps| && k < |b.run.steps| && a.run.steps[k] != b.run.steps[k]
  }

  /** The outcome of the distributed pass when some node parts it from the in-process one. */
  ghost predicate Parted(far: Result, near: Result) {
    Apart(far, near) && (near.Ok? ==> far.Err?)
  }

  lemma StayApart(a: Result, b: Result, a': Result, b': Result)
    requires Apart(a, b) && a.run.steps <= a'.run.steps && b.run.steps <= b'.run.steps
    ensures Apart(a', b')
  {
    var k :| 0 <= k < |a.run.steps| && k < |b.run.steps| && a.run.steps[k] != b.run.steps[k];
    assert a'.run.steps[k] != b'.run.steps[k];
  }

  lemma NodeParts(
    en: Engine, p: Placement, r: Run, n: string, iteration: nat, injected: Option<(string, Value)>, lenient: bool)
    requires n in Ids(en.g)
    ensures var (far, near) := (FarNode(en, p, r, n, iteration, injected, lenient), RunNode(en, r, n, iteration, injected));
            && (if Parts(en, p, r, n, injected, lenient) then Parted(far, near) else far == near)
            && r.steps <= far.run.steps && r.steps <= near.run.steps
  {
    hide Resolve, Written;
    var far, near := FarNode(en, p, r, n, iteration, injected, lenient), RunNode(en, r, n, iteration, injected);
    assert Parts(en, p, r, n, injected, lenient) ==> far.run.steps[|r.steps|] != near.run.steps[|r.steps|];
  }

  lemma {:induction false} BodyParts(
    en: Engine, p: Placement, r: Run, ns: seq<string>, edge: Edge, carried: Option<Value>, iteration: nat)
    requires Known(en, ns)
    ensures var (far, near) := (FarBody(en, p, r, ns, edge, carried, iteration), RunBody(en, r, ns, edge, carried, iteration));
            && (if BodyAgrees(en, p, r, ns, edge, carried, iteration) then far == near else Parted(far, near))
            && r.steps <= far.run.steps && r.steps <= near.run.steps
  {
    hide FarNode, RunNode, Parts, Apart;
    if ns != [] {
      var n, rest := ns[|ns| - 1], ns[..|ns| - 1];
      BodyParts(en, p, r, rest, edge, carried, iteration);
      var far, near := FarBody(en, p, r, rest, edge, carried, iteration), RunBody(en, r, rest, edge, carried, iteration);
      NodeParts(en, p, far.run, n, iteration, Injected(edge, carried, n), false);
      NodeParts(en, p, near.run, n, iteration, Injected(edge, carried, n), false);
      if !BodyAgrees(en, p, r, rest, edge, carried, iteration) {
        StayApart(far, near, FarBody(en, p, r, ns, edge, carried, iteration), RunBody(en, r, ns, edge, carried, iteration));
      }
    }
  }

  lemma {:induction false} IterationsPart(en: Engine, p: Placement, conds: Conditions, r: Run, loop: Loop, i: nat)
    requires Known(en, loop.body)
    ensures var (far, near) := (FarFrom(en, p, conds, r, loop, i), LoopFrom(en, conds, r, loop, i));
            if IterationsAgree(en, p, conds, r, loop, i) then far == near else Parted(far, near)
    decreases loop.maxIter + 1 - i
  {
    hide FarBody, RunBody, BodyAgrees, Apart;
    if i <= loop.maxIter && Check(conds, r, loop.edge) == Some(true) {
      BodyParts(en, p, Cleared(r, loop, i), loop.body, loop.edge, Carried(r.outputs, loop.edge), i);
      var far, near := FarIteration(en, p, r, loop, i), Iteration(en, r, loop, i);
      if BodyAgrees(en, p, Cleared(r, loop, i), loop.body, loop.edge, Carried(r.outputs, loop.edge), i) {
        if near.Ok? {
          IterationsPart(en, p, conds, near.run, loop, i + 1);
        }
      } else {
        IterationsGrow(en, p, conds, far.run, loop, i + 1);
        IterationsGrow(en, p, conds, near.run, loop, i + 1);
        StayApart(far, near, FarFrom(en, p, conds, r, loop, i), LoopFrom(en, conds, r, loop, i));
      }
    }
  }

  lemma {:induction false} IterationsGrow(en: Engine, p: Placement, conds: Conditions, r: Run, loop: Loop, i: nat)
    requires Known(en, loop.body)
    ensures r.steps <= FarFrom(en, p, conds, r, loop, i).run.steps && r.steps <= LoopFrom(en, conds, r, loop, i).run.steps
    decreases loop.maxIter + 1 - i
  {
    hide FarBody, RunBody, Apart, BodyAgrees;
    if i <= loop.maxIter && Check(conds, r, loop.edge) == Some(true) {
      BodyParts(en, p, Cleared(r, loop, i), loop.body, loop.edge, Carried(r.outputs, loop.edge), i);
      IterationsGrow(en, p, conds, FarIteration(en, p, r, loop, i).run, loop, i + 1);
      IterationsGrow(en, p, conds, Iteration(en, r, loop, i).run, loop, i + 1);
    }
  }

  lemma {:induction false} DownstreamParts(en: Engine, p: Placement, r: Run, ns: seq<string>)
    requires Known(en, ns)
    ensures var (far, near) := (FarDownstream(en, p, r, ns), RunDownstream(en, r, ns));
            && (if DownstreamAgrees(en, p, r, ns) then far == near else Parted(far, near))
            && r.steps <= far.run.steps && r.steps <= near.run.steps
  {
    hide FarNode, RunNode, Parts, Apart;
    if ns != [] {
      var n, rest := ns[|ns| - 1], ns[..|ns| - 1];
      DownstreamParts(en, p, r, rest);
      var far, near := FarDownstream(en, p, r, rest), RunDownstream(en, r, rest);
      NodeParts(en, p, far.run, n, 0, None, true);
      NodeParts(en, p, near.run, n, 0, None, true);
      if !DownstreamAgrees(en, p, r, rest) {
        StayApart(far, near, FarDownstream(en, p, r, ns), RunDownstream(en, r, ns));
      }
    }
  }

  lemma LoopParts(en: Engine, p: Placement, conds: Conditions, r: Run, loop: Loop)
    requires Known(en, loop.body) && Known(en, loop.downstream)
    ensures var (far, near) := (FarLoop(en, p, conds, r, loop), RunLoop(en, conds, r, loop));
            && (if LoopAgrees(en, p, conds, r, loop) then far == near else Parted(far, near))
            && r.steps <= far.run.steps && r.steps <= near.run.steps
  {
    hide FarFrom, LoopFrom, IterationsAgree, FarDownstream, RunDownstream, DownstreamAgrees, Apart, Entered;
    IterationsPart(en, p, conds, r, loop, 1);
    IterationsGrow(en, p, conds, r, loop, 1);
    var far, near := FarFrom(en, p, conds, r, loop, 1), LoopFrom(en, conds, r, loop, 1);
    DownstreamParts(en, p, far.run, loop.downstream);
    DownstreamParts(en, p, near.run, loop.downstream);
    if !IterationsAgree(en, p, conds, r, loop, 1) {
      StayApart(far, near, FarLoop(en, p, conds, r, loop), RunLoop(en, conds, r, loop));
    }
  }

  lemma {:induction false} LoopsPart(en: Engine, p: Placement, conds: Conditions, r: Run, loops: seq<Loop>)
    requires KnownLoops(en, loops)
    ensures var (far, near) := (FarLoops(en, p, conds, r, loops), RunLoops(en, conds, r, loops));
            if LoopsAgree(en, p, conds, r, loops) then far == near else Parted(far, near)
  {
    hide FarLoop, RunLoop, LoopAgrees, Apart;
    if loops != [] {
      var last, rest := loops[|loops| - 1], loops[..|loops| - 1];
      assert last in loops && forall l :: l in rest ==> l in loops;
      LoopsPart(en, p, conds, r, rest);
      var far, near := FarLoops(en, p, conds, r, rest), RunLoops(en, conds, r, rest);
      LoopParts(en, p, conds, far.run, last);
      LoopParts(en, p, conds, near.run, last);
      if !LoopsAgree(en, p, conds, r, rest) {
        StayApart(far, near, FarLoops(en, p, conds, r, loops), RunLoops(en, conds, r, loops));
      }
    }
  }

  /**
   * The distributed loop pass does what the in-process one does iff, at no node that the latter runs, a task cannot be
   * built though the node would succeed, nor fails downstream of a body. Otherwise they take different results, and an
   * in-process pass that completes has a distributed one that fails.
   */
  lemma LoopPassAgreesIff(en: Engine, p: Placement, conds: Conditions, r: Run, loops: seq<Loop>)
    requires KnownLoops(en, loops)
    ensures FarLoops(en, p, conds, r, loops) == RunLoops(en, conds, r, loops) <==> LoopsAgree(en, p, conds, r, loops)
    ensures RunLoops(en, conds, r, loops).Ok? ==>
              (FarLoops(en, p, conds, r, loops).Ok? <==> LoopsAgree(en, p, conds, r, loops))
  {
    hide FarLoops, RunLoops, LoopsAgree;
    LoopsPart(en, p, conds, r, loops);
  }

  // ---------- A graph on which they part ----------

  const QUERY := Node("query", Input, [], ["out"], [], [])
  const DRAFT := Node("draft", Other, [Port("in", None), Port("again", None)], ["out"], [], [])
  const REPORT := Node("report", Other, [Port("in", None)], [], [], [])
  const ASKED := Edge("asked", "query", "out", "draft", "in", false, None)
  const REDO := Edge("redo", "draft", "out", "draft", "again", true, Some(1))
  const TELL := Edge("tell", "draft", "out", "report", "in", false, None)

  /** A node that repeats itself, and one downstream that reports on it. */
  const DRAFTING := Graph([QUERY, DRAFT, REPORT], [ASKED, REDO, TELL])

  const ORDER := ["query", "draft", "report"]
  const REDOING := Loop(REDO, ["draft"], 1, ["report"])

  lemma DraftingParts()
    ensures forall n :: n in DRAFTING.nodes <==> n == QUERY || n == DRAFT || n == REPORT
    ensures forall e :: e in DRAFTING.edges <==> e == ASKED || e == REDO || e == TELL
    ensures Valid(DRAFTING) && Ids(DRAFTING) == {"query", "draft", "report"}
    ensures NodeOf(DRAFTING, "draft") == DRAFT && NodeOf(DRAFTING, "report") == REPORT
    ensures WellFormedNode(QUERY) && WellFormedNode(DRAFT) && WellFormedNode(REPORT)
    ensures HasInput(DRAFT, "in") && HasInput(DRAFT, "again") && HasInput(REPORT, "in")
  {
    assert QUERY in DRAFTING.nodes && DRAFT in DRAFTING.nodes && REPORT in DRAFTING.nodes;
    assert ASKED in DRAFTING.edges && REDO in DRAFTING.edges && TELL in DRAFTING.edges;
    assert QUERY.id == "query" && DRAFT.id == "draft" && REPORT.id == "report";
    assert Port("in", None) in DRAFT.inputs && Port("again", None) in DRAFT.inputs && Port("in", None) in REPORT.inputs;
  }

  lemma DraftingArcs()
    ensures forall u, v :: Arc(DRAFTING, u, v) <==> (u == "query" && v == "draft") || (u == "draft" && v == "report")
    ensures TopoOrder(DRAFTING, ORDER)
  {
    hide WellFormedNode, HasInput, Valid, Ids;
    DraftingParts();
    assert |DRAFTING.nodes| == 3;
    assert ASKED in DRAFTING.edges && TELL in DRAFTING.edges;
  }

  lemma DraftingEdges()
    ensures WellFormedEdge(DRAFTING, ASKED) && WellFormedEdge(DRAFTING, REDO) && WellFormedEdge(DRAFTING, TELL)
  {
    hide WellFormedNode, HasInput, Valid, Ids;
    DraftingParts();
    hide DRAFTING;
    assert QUERY in DRAFTING.nodes && DRAFT in DRAFTING.nodes && REPORT in DRAFTING.nodes;
  }

  lemma DraftingAccepted()
    ensures Accepts(DRAFTING)
  {
    hide WellFormedNode, WellFormedEdge, HasInput, TopoOrder, Cyclic, Valid;
    DraftingParts();
    DraftingEdges();
    DraftingArcs();
    TopoOrderIsAcyclic(DRAFTING, ORDER);
    hide DRAFTING;
    assert QUERY in DRAFTING.nodes && QUERY.kind == Input;
    assert ASKED in DRAFTING.edges && REDO in DRAFTING.edges && TELL in DRAFTING.edges;
  }

  lemma DraftingPlan()
    ensures Planned(DRAFTING, ORDER, REDOING)
  {
    hide WellFormedNode, HasInput, Valid;
    DraftingParts();
    DraftingArcs();
    hide DRAFTING;
    assert REDO in DRAFTING.edges;
    assert Position(ORDER, "draft") == 1;
    assert ORDER[1..2] == ["draft"] && ORDER[2..] == ["report"];
    assert Walk(DRAFTING, ["draft", "report"]);
    assert ReachedBy(DRAFTING, ["draft"], "report", ["draft", "report"]);
    assert Reached(DRAFTING, REDOING.body, "report");
  }

  function Drafting(made: Ports): Engine {
    Engine(DRAFTING, (n: string, inputs: Ports, state: Ports) => if n == "report" then None else Some(made), _ => {})
  }

  /** The report fails. In process so does the execution; distributed, the report counts as one without outputs. */
  lemma FailureTaken(given: Ports, made: Ports)
    ensures var (en, r) := (Drafting(made), Run(map["query" := given, "draft" := made], map[], [], map[], {}, {}));
            && Accepts(en.g) && Planned(en.g, ORDER, REDOING) && KnownLoops(en, [REDOING])
            && RunLoops(en, ALWAYS, r, [REDOING]).Err?
            && var far := FarLoops(en, WorkerGroups.PLAIN, ALWAYS, r, [REDOING]);
               far.Ok? && "report" in far.run.outputs && far.run.outputs["report"] == map[]
  {
    hide Accepts, Planned, WellFormedNode, HasInput, Valid;
    DraftingAccepted();
    DraftingPlan();
    DraftingParts();
    hide DRAFTING, Resolve;
    var en, r := Drafting(made), Run(map["query" := given, "draft" := made], map[], [], map[], {}, {});
    assert KnownLoops(en, [REDOING]);
    assert [REDOING][..0] == [];
    assert RunLoops(en, ALWAYS, r, []) == Ok(r) && FarLoops(en, WorkerGroups.PLAIN, ALWAYS, r, []) == Ok(r);
    RedoOnce(made, r);
    var r1 := LoopFrom(en, ALWAYS, r, REDOING, 1).run;
    assert ["report"][..0] == [];
    assert RunDownstream(en, r1, []) == Ok(r1) && FarDownstream(en, WorkerGroups.PLAIN, r1, []) == Ok(r1);
  }

  /** Both redo the draft once. */
  lemma RedoOnce(made: Ports, r: Run)
    ensures Ids(DRAFTING) == {"query", "draft", "report"}
    ensures var en := Drafting(made);
            LoopFrom(en, ALWAYS, r, REDOING, 1).Ok? &&
            FarFrom(en, WorkerGroups.PLAIN, ALWAYS, r, REDOING, 1) == LoopFrom(en, ALWAYS, r, REDOING, 1)
  {
    hide WellFormedNode, HasInput, Valid;
    DraftingParts();
    hide DRAFTING, Resolve;
    var en := Drafting(made);
    var cleared := Cleared(r, REDOING, 1);
    assert ["draft"][..0] == [];
    assert RunBody(en, cleared, [], REDO, Carried(r.outputs, REDO), 1) == Ok(cleared);
    assert FarBody(en, WorkerGroups.PLAIN, cleared, [], REDO, Carried(r.outputs, REDO), 1) == Ok(cleared);
    var first := Iteration(en, r, REDOING, 1);
    assert first == RunNode(en, cleared, "draft", 1, Injected(REDO, Carried(r.outputs, REDO), "draft")) && first.Ok?;
    assert FarIteration(en, WorkerGroups.PLAIN, r, REDOING, 1) == first;
    assert LoopFrom(en, ALWAYS, first.run, REDOING, 2) == first;
    assert FarFrom(en, WorkerGroups.PLAIN, ALWAYS, first.run, REDOING, 2) == first;
  }
}
