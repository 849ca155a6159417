/** When back-edges make the code skip too much. */
module Overreach {
  import opened Options
  import opened Graphs
  import opened Validation
  import opened Skips
  import opened Layers
  import opened Passes

  // Cuts that executions make: whole ports of conditionals that the forward rule does not skip themselves.

  ghost predicate RealCut(g: Graph, cut: set<string>) {
    && ConditionalCut(g, cut)
    && (forall e :: e in g.edges && e.id in cut ==> e.source !in ForcedForward(g, cut))
    && (forall e, f :: e in g.edges && f in g.edges && e.id in cut && f.source == e.source && f.sourcePort == e.sourcePort ==> f.id in cut)
  }

  /** Every conditional that is not skipped cuts all its branches. */
  ghost function LiveBranches(g: Graph): set<string> {
    set e | e in g.edges && IsConditional(g, e.source) && e.source !in ForcedForward(g, EveryBranch(g)) :: e.id
  }

  /** Conditionals that are skipped do not have to cut anything for it: their edges are lifeless as it is. */
  lemma {:induction false} LiveBranchesSuffice(g: Graph, groups: seq<seq<string>>, n: string, m: nat)
    requires Valid(g) && UniqueEdges(g) && Layering(g, groups) && InGroup(groups, n, m)
    ensures n in ForcedForward(g, LiveBranches(g)) <==> n in ForcedForward(g, EveryBranch(g))
    decreases m
  {
    var live, all := LiveBranches(g), EveryBranch(g);
    var s, f := ForcedForward(g, live), ForcedForward(g, all);
    assert n in Ids(g);
    ForcedForwardFixedPoint(g, live, n);
    ForcedForwardFixedPoint(g, all, n);
    forall e | e in g.edges && !e.back && e.target == n ensures Lifeless(live, s, e) <==> Lifeless(all, f, e) {
      assert e.source in Ids(g) && Arc(g, e.source, n);
      var j: nat :| InGroup(groups, e.source, j);
      ArcsCrossGroups(g, groups, e.source, n, j, m);
      LiveBranchesSuffice(g, groups, e.source, j);
      LiveOrSkipped(g, e);
    }
  }

  lemma LiveOrSkipped(g: Graph, e: Edge)
    requires UniqueEdges(g) && e in g.edges
    ensures e.id in EveryBranch(g) <==> IsConditional(g, e.source)
    ensures e.id in LiveBranches(g) <==> IsConditional(g, e.source) && e.source !in ForcedForward(g, EveryBranch(g))
  {
  }

  lemma LiveBranchesAreReal(g: Graph, groups: seq<seq<string>>)
    requires Valid(g) && UniqueEdges(g) && Layering(g, groups)
    ensures ForcedForward(g, LiveBranches(g)) == ForcedForward(g, EveryBranch(g))
    ensures RealCut(g, LiveBranches(g))
  {
    var live := LiveBranches(g);
    forall n | n in Ids(g) ensures n in ForcedForward(g, live) <==> n in ForcedForward(g, EveryBranch(g)) {
      var m: nat :| InGroup(groups, n, m);
      LiveBranchesSuffice(g, groups, n, m);
    }
    assert ForcedForward(g, live) == ForcedForward(g, EveryBranch(g));
    forall e | e in g.edges ensures e.id in live <==> IsConditional(g, e.source) && e.source !in ForcedForward(g, live) {
      LiveOrSkipped(g, e);
    }
  }

  ghost predicate HarmlessFor(g: Graph, cut: set<string>) {
    Forced(g, cut) == ForcedForward(g, cut)
  }

  /**
   * Back-edges never make an execution skip more than the forward rule iff none of them leads from a conditional, or
   * from a node that conditionals can skip, into a node without forward in-edges.
   */
  lemma BackEdgesHarmlessIff(g: Graph, groups: seq<seq<string>>)
    requires Valid(g) && UniqueEdges(g) && Layering(g, groups)
    ensures (forall cut :: RealCut(g, cut) ==> HarmlessFor(g, cut)) <==> !CanOverreach(g)
  {
    if CanOverreach(g) {
      var live := LiveBranches(g);
      LiveBranchesAreReal(g, groups);
      var e :| e in g.edges && e.back && !Fed(g, e.target) &&
               (IsConditional(g, e.source) || e.source in ForcedForward(g, EveryBranch(g)));
      LiveOrSkipped(g, e);
      assert Lifeless(live, ForcedForward(g, live), e);
      BackEdgeOverreach(g, live);
      assert RealCut(g, live) && !HarmlessFor(g, live);
    } else {
      forall cut | RealCut(g, cut) ensures HarmlessFor(g, cut) {
        BackEdgesHarmless(g, cut);
      }
    }
  }

  /** In particular a graph in which every back-edge target has a forward in-edge is safe, and so is one without conditionals. */
  lemma SafeGraphs(g: Graph)
    requires Valid(g)
    ensures (forall e :: e in g.edges && e.back ==> Fed(g, e.target)) ==> !CanOverreach(g)
    ensures (forall n :: n in g.nodes ==> n.kind != Conditional) ==> !CanOverreach(g)
  {
    if forall n :: n in g.nodes ==> n.kind != Conditional {
      assert EveryBranch(g) == {};
      forall n | Fed(g, n) ensures !Starved(g, {}, {}, n) {
        var e :| e in g.edges && !e.back && e.target == n;
        assert !Lifeless({}, {}, e);
      }
      assert ClosedForward(g, {}, {});
    }
  }

  // ---------- A run on which it happens ----------

  const ASKED := Node("asked", Input, [], ["out"], [], [])
  const CHOICE := Node("choice", Conditional, [Port("in", None)], ["yes", "no"], [], [])
  const START := Node("start", Other, [Port("in", None)], ["out"], [], [])
  const WORK := Node("work", Other, [Port("in", None)], [], [], [])
  const BEGIN := Edge("begin", "asked", "out", "choice", "in", false, None)
  const RETRY := Edge("retry", "choice", "no", "start", "in", true, Some(1))
  const PROCEED := Edge("proceed", "start", "out", "work", "in", false, None)

  /** A conditional may go back to a node that nothing leads to, and which leads on. */
  const RETRYING := Graph([ASKED, CHOICE, START, WORK], [BEGIN, RETRY, PROCEED])

  lemma RetryingParts()
    ensures forall n :: n in RETRYING.nodes <==> n == ASKED || n == CHOICE || n == START || n == WORK
    ensures forall e :: e in RETRYING.edges <==> e == BEGIN || e == RETRY || e == PROCEED
    ensures Valid(RETRYING) && UniqueEdges(RETRYING)
    ensures Ids(RETRYING) == {"asked", "choice", "start", "work"}
  {
    var g := RETRYING;
    assert ASKED in g.nodes && CHOICE in g.nodes && START in g.nodes && WORK in g.nodes;
    assert BEGIN in g.edges && RETRY in g.edges && PROCEED in g.edges;
    assert ASKED.id == "asked" && CHOICE.id == "choice" && START.id == "start" && WORK.id == "work";
  }

  lemma RetryingNodes()
    ensures WellFormedNode(ASKED) && WellFormedNode(CHOICE) && WellFormedNode(START) && WellFormedNode(WORK)
    ensures HasInput(CHOICE, "in") && HasInput(START, "in") && HasInput(WORK, "in")
  {
    assert Port("in", None) in CHOICE.inputs && Port("in", None) in START.inputs && Port("in", None) in WORK.inputs;
  }

  lemma RetryingEdges()
    ensures WellFormedEdge(RETRYING, BEGIN) && WellFormedEdge(RETRYING, RETRY) && WellFormedEdge(RETRYING, PROCEED)
  {
    hide WellFormedNode, HasInput, Valid, UniqueEdges, Ids;
    RetryingParts();
    RetryingNodes();
    hide RETRYING;
    assert ASKED in RETRYING.nodes && CHOICE in RETRYING.nodes && START in RETRYING.nodes && WORK in RETRYING.nodes;
  }

  lemma RetryingOrder()
    ensures TopoOrder(RETRYING, ["asked", "choice", "start", "work"])
  {
    RetryingParts();
    hide Valid, UniqueEdges, Ids;
    assert |RETRYING.nodes| == 4;
  }

  lemma RetryingAccepted()
    ensures Accepts(RETRYING)
  {
    hide WellFormedNode, WellFormedEdge, HasInput, TopoOrder, Cyclic, Valid, UniqueEdges;
    RetryingParts();
    RetryingNodes();
    RetryingEdges();
    RetryingOrder();
    TopoOrderIsAcyclic(RETRYING, ["asked", "choice", "start", "work"]);
    hide RETRYING;
    assert ASKED in RETRYING.nodes && ASKED.kind == Input;
    assert BEGIN in RETRYING.edges && RETRY in RETRYING.edges && PROCEED in RETRYING.edges;
  }

  /** When the conditional takes another branch, the code skips that node and what follows it. */
  method SkipTheStart(yes: Value) returns (table: SkipTable)
    requires yes != Null
    ensures table.g == RETRYING && Accepts(RETRYING) && table.Settled()
    ensures "start" in table.skipped && "work" in table.skipped
    ensures ForcedForward(RETRYING, table.cut) == {}
  {
    hide Accepts, WellFormedNode, WellFormedEdge, Forced, ForcedForward;
    RetryingAccepted();
    RetryingParts();
    table := new SkipTable(RETRYING);
    table.PropagateSkips("choice", map["yes" := yes]);
    assert table.cut == {"retry"} by {
      assert RETRY.id == "retry" && Untaken(map["yes" := yes], RETRY);
    }
    NoneForcedForward();
    RetrySkips();
  }

  /** By the forward rule nothing is skipped: the branch not taken is a back-edge. */
  lemma NoneForcedForward()
    ensures ForcedForward(RETRYING, {"retry"}) == {}
  {
    RetryingParts();
    hide RETRYING, Valid, UniqueEdges, Ids;
    assert ClosedForward(RETRYING, {"retry"}, {}) by {
      assert !Fed(RETRYING, "asked") && !Fed(RETRYING, "start");
      assert !Lifeless({"retry"}, {}, BEGIN) && !Lifeless({"retry"}, {}, PROCEED);
    }
  }

  lemma RetrySkips()
    ensures "start" in Forced(RETRYING, {"retry"}) && "work" in Forced(RETRYING, {"retry"})
  {
    RetryingParts();
    hide RETRYING, Valid, UniqueEdges, Ids, Forced;
    var skipped := Forced(RETRYING, {"retry"});
    ForcedIsClosed(RETRYING, {"retry"});
    assert Lifeless({"retry"}, skipped, RETRY);
    assert Triggered(RETRYING, {"retry"}, skipped, "start") && Starved(RETRYING, {"retry"}, skipped, "start");
    assert Lifeless({"retry"}, skipped, PROCEED);
    assert Triggered(RETRYING, {"retry"}, skipped, "work") && Starved(RETRYING, {"retry"}, skipped, "work");
  }
}
