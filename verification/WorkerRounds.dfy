/** One distributed group as a round of the protocol. */
module WorkerRounds {
  import opened Options
  import opened Graphs
  import opened Validation
  import opened Skips
  import opened NodeRuns
  import opened ForwardPass
  import opened WorkerGroups
  import Worker

  /** filterRunnable, in the order of the group. */
  ghost function FilterRunnable(en: Engine, group: seq<string>, w: World): seq<string>
    requires InGraph(en, Elems(group))
  {
    if group == [] then []
    else
      var n := group[|group| - 1];
      assert n in Elems(group) && Elems(group[..|group| - 1]) <= Elems(group);
      FilterRunnable(en, group[..|group| - 1], w) + if Runnable(en, w, n) then [n] else []
  }

  lemma {:induction false} Filtered(en: Engine, group: seq<string>, w: World)
    requires InGraph(en, Elems(group)) && Distinct(group)
    ensures Distinct(FilterRunnable(en, group, w))
    ensures forall n :: n in FilterRunnable(en, group, w) <==> n in Elems(group) && Runnable(en, w, n)
  {
    if group != [] {
      var n := group[|group| - 1];
      assert n in Elems(group) && Elems(group) == Elems(group[..|group| - 1]) + {n};
      Filtered(en, group[..|group| - 1], w);
    }
  }

  // ---------- Dispatching ----------

  /** What the orchestrator may do in this round: dispatch each node where it runs, and give up exactly when a dispatch fails. */
  ghost predicate Follows(en: Engine, p: Placement, w: World, s: Worker.System, a: Worker.Step)
    requires InGraph(en, Elems(s.toDispatch))
  {
    match a
    case NextRound(_) => false
    case Dispatch => s.toDispatch != [] && Sent(en, p, w, s.toDispatch[0], false)
    case DispatchInline(_) => s.toDispatch != [] && Sent(en, p, w, s.toDispatch[0], true)
    case FailDispatch => s.toDispatch != [] && Refused(en, p, w, s.toDispatch[0])
    case _ => true
  }

  ghost predicate Sent(en: Engine, p: Placement, w: World, n: string, inline: bool) {
    n in Ids(en.g) && (Inline(en, p, n) <==> inline) && !DispatchFails(en, p, w, n)
  }

  ghost predicate Refused(en: Engine, p: Placement, w: World, n: string) {
    n in Ids(en.g) && DispatchFails(en, p, w, n)
  }

  ghost predicate RoundStep(lim: Worker.Limits, en: Engine, p: Placement, w: World, s: Worker.System, s': Worker.System) {
    && InGraph(en, Elems(s.toDispatch))
    && exists a :: Worker.Enabled(lim, s, a) && Follows(en, p, w, s, a) && s' == Worker.Perform(lim, s, a)
  }

  /** A round for these nodes from any state the protocol can be in, interleaved with all handlers in any way. */
  ghost predicate Round(lim: Worker.Limits, en: Engine, p: Placement, w: World, nodes: seq<string>, ss: seq<Worker.System>) {
    && ss != [] && Worker.Invariant(lim, ss[0])
    && ss[0].toDispatch == nodes && ss[0].current == multiset{} && !ss[0].closed
    && forall i, j :: 0 <= i < j < |ss| && j == i + 1 ==> RoundStep(lim, en, p, w, ss[i], ss[j])
  }

  /** The first `m` nodes were dispatched, and no dispatch of theirs failed. */
  ghost predicate DispatchedTo(en: Engine, p: Placement, w: World, nodes: seq<string>, s: Worker.System, m: nat) {
    m <= |nodes| && s.current == multiset(nodes[..m]) && forall i :: 0 <= i < m ==> !Refused(en, p, w, nodes[i])
  }

  ghost predicate Dispatching(en: Engine, p: Placement, w: World, nodes: seq<string>, s: Worker.System, m: nat) {
    !s.closed && DispatchedTo(en, p, w, nodes, s, m) && s.toDispatch == nodes[m..]
  }

  /** The orchestrator gave up at node `m`. */
  ghost predicate GaveUpAt(en: Engine, p: Placement, w: World, nodes: seq<string>, s: Worker.System, m: nat) {
    s.closed && DispatchedTo(en, p, w, nodes, s, m) && m < |nodes| && Refused(en, p, w, nodes[m])
  }

  ghost predicate Over(s: Worker.System) {
    !s.closed && s.toDispatch == []
  }

  ghost predicate Standing(en: Engine, p: Placement, w: World, nodes: seq<string>, s: Worker.System) {
    || (exists m: nat :: Dispatching(en, p, w, nodes, s, m))
    || (exists m: nat :: GaveUpAt(en, p, w, nodes, s, m))
    || (s.closed && DispatchedTo(en, p, w, nodes, s, |nodes|))
  }

  lemma StepStands(
    lim: Worker.Limits, en: Engine, p: Placement, w: World, nodes: seq<string>, s: Worker.System, s': Worker.System)
    requires Standing(en, p, w, nodes, s) && RoundStep(lim, en, p, w, s, s')
    ensures Standing(en, p, w, nodes, s')
    ensures s'.closed && !s.closed ==> Over(s) || exists m: nat :: GaveUpAt(en, p, w, nodes, s', m)
  {
    hide DispatchFails, Inline;
    var a :| Worker.Enabled(lim, s, a) && Follows(en, p, w, s, a) && s' == Worker.Perform(lim, s, a);
    if m: nat :| Dispatching(en, p, w, nodes, s, m) {
      DispatchStep(lim, en, p, w, nodes, s, a, m);
    } else if m: nat :| GaveUpAt(en, p, w, nodes, s, m) {
      assert GaveUpAt(en, p, w, nodes, s', m);
    }
  }

  lemma DispatchStep(
    lim: Worker.Limits, en: Engine, p: Placement, w: World, nodes: seq<string>, s: Worker.System, a: Worker.Step, m: nat)
    requires Dispatching(en, p, w, nodes, s, m) && InGraph(en, Elems(s.toDispatch))
    requires Worker.Enabled(lim, s, a) && Follows(en, p, w, s, a)
    ensures var s' := Worker.Perform(lim, s, a);
            || Dispatching(en, p, w, nodes, s', m) || Dispatching(en, p, w, nodes, s', m + 1)
            || GaveUpAt(en, p, w, nodes, s', m)
            || (Over(s) && s'.closed && DispatchedTo(en, p, w, nodes, s', |nodes|))
  {
    hide DispatchFails, Inline;
    var s' := Worker.Perform(lim, s, a);
    match a
    case NextRound(_) =>
    case Dispatch => SendStep(lim, en, p, w, nodes, s, a, m);
    case DispatchInline(r) => SendStep(lim, en, p, w, nodes, s, a, m);
    case FailDispatch =>
      assert GaveUpAt(en, p, w, nodes, s', m);
    case Close =>
      assert m == |nodes|;
    case _ =>
      assert Dispatching(en, p, w, nodes, s', m);
  }

  lemma SendStep(
    lim: Worker.Limits, en: Engine, p: Placement, w: World, nodes: seq<string>, s: Worker.System, a: Worker.Step, m: nat)
    requires Dispatching(en, p, w, nodes, s, m) && InGraph(en, Elems(s.toDispatch))
    requires Worker.Enabled(lim, s, a) && Follows(en, p, w, s, a) && (a.Dispatch? || a.DispatchInline?)
    ensures Dispatching(en, p, w, nodes, Worker.Perform(lim, s, a), m + 1)
  {
    hide DispatchFails, Inline;
    assert nodes[..m + 1] == nodes[..m] + [nodes[m]];
    assert s.toDispatch[0] == nodes[m] && s.toDispatch[1..] == nodes[m + 1..];
  }

  lemma {:induction false} RoundStands(
    lim: Worker.Limits, en: Engine, p: Placement, w: World, nodes: seq<string>, ss: seq<Worker.System>, k: nat)
    requires Round(lim, en, p, w, nodes, ss) && k < |ss|
    ensures Standing(en, p, w, nodes, ss[k]) && Worker.Invariant(lim, ss[k])
    ensures ss[k].closed ==> (exists j :: 0 <= j < k && Over(ss[j])) || exists m: nat :: GaveUpAt(en, p, w, nodes, ss[k], m)
  {
    hide Standing, Worker.Invariant, RoundStep, GaveUpAt;
    if k == 0 {
      StartStands(lim, en, p, w, nodes, ss);
    } else {
      RoundStands(lim, en, p, w, nodes, ss, k - 1);
      assert RoundStep(lim, en, p, w, ss[k - 1], ss[k]);
      StepStands(lim, en, p, w, nodes, ss[k - 1], ss[k]);
      StepInvariant(lim, en, p, w, ss[k - 1], ss[k]);
      if ss[k - 1].closed {
        StaysGivenUp(lim, en, p, w, nodes, ss[k - 1], ss[k]);
      }
    }
  }

  lemma StartStands(lim: Worker.Limits, en: Engine, p: Placement, w: World, nodes: seq<string>, ss: seq<Worker.System>)
    requires Round(lim, en, p, w, nodes, ss)
    ensures Standing(en, p, w, nodes, ss[0])
  {
    assert nodes[..0] == [] && nodes[0..] == nodes;
    assert Dispatching(en, p, w, nodes, ss[0], 0);
  }

  lemma StepInvariant(lim: Worker.Limits, en: Engine, p: Placement, w: World, s: Worker.System, s': Worker.System)
    requires Worker.Invariant(lim, s) && RoundStep(lim, en, p, w, s, s')
    ensures Worker.Invariant(lim, s')
  {
    hide Worker.Invariant;
    var a :| Worker.Enabled(lim, s, a) && Follows(en, p, w, s, a) && s' == Worker.Perform(lim, s, a);
    Worker.StepKeeps(lim, s, a);
  }

  lemma StaysGivenUp(
    lim: Worker.Limits, en: Engine, p: Placement, w: World, nodes: seq<string>, s: Worker.System, s': Worker.System)
    requires RoundStep(lim, en, p, w, s, s') && s.closed
    ensures s'.closed
    ensures (exists m: nat :: GaveUpAt(en, p, w, nodes, s, m)) ==> exists m: nat :: GaveUpAt(en, p, w, nodes, s', m)
  {
    hide DispatchFails, Inline;
    var a :| Worker.Enabled(lim, s, a) && Follows(en, p, w, s, a) && s' == Worker.Perform(lim, s, a);
    if m: nat :| GaveUpAt(en, p, w, nodes, s, m) {
      assert GaveUpAt(en, p, w, nodes, s', m);
    }
  }

  lemma OverMeansSent(en: Engine, p: Placement, w: World, nodes: seq<string>, s: Worker.System)
    requires Standing(en, p, w, nodes, s) && Over(s)
    ensures s.current == multiset(nodes) && forall n :: n in nodes ==> !Refused(en, p, w, n)
  {
    hide Refused;
    var m: nat :| Dispatching(en, p, w, nodes, s, m);
    assert |nodes[m..]| == 0;
    assert nodes[..m] == nodes;
    forall n | n in nodes ensures !Refused(en, p, w, n) {
      var i :| 0 <= i < |nodes| && nodes[i] == n;
    }
  }

  lemma RefusedIff(en: Engine, p: Placement, group: seq<string>, w: World)
    requires InGraph(en, Elems(group)) && Distinct(group)
    ensures Aborts(en, p, group, w) <==> exists n :: n in FilterRunnable(en, group, w) && Refused(en, p, w, n)
  {
    hide DispatchFails, FilterRunnable, Runnable;
    Filtered(en, group, w);
    var nodes := FilterRunnable(en, group, w);
    if Aborts(en, p, group, w) {
      var n :| n in Elems(group) && Runnable(en, w, n) && DispatchFails(en, p, w, n);
      assert n in nodes && Refused(en, p, w, n);
    }
  }

  /** A round that has nothing left to dispatch got to its fan-in if and only if no dispatch of its nodes fails. */
  lemma ReachesFanInIff(
    lim: Worker.Limits, en: Engine, p: Placement, group: seq<string>, w: World, ss: seq<Worker.System>)
    requires InGraph(en, Elems(group)) && Distinct(group)
    requires Round(lim, en, p, w, FilterRunnable(en, group, w), ss) && ss[|ss| - 1].toDispatch == []
    ensures (exists k :: 0 <= k < |ss| && Over(ss[k])) <==> !Aborts(en, p, group, w)
  {
    hide Refused, RoundStep, FilterRunnable, Standing, GaveUpAt, Aborts;
    var nodes := FilterRunnable(en, group, w);
    RefusedIff(en, p, group, w);
    if k :| 0 <= k < |ss| && Over(ss[k]) {
      RoundStands(lim, en, p, w, nodes, ss, k);
      OverMeansSent(en, p, w, nodes, ss[k]);
    } else {
      var last := ss[|ss| - 1];
      RoundStands(lim, en, p, w, nodes, ss, |ss| - 1);
      assert last.closed;
      var m: nat :| GaveUpAt(en, p, w, nodes, last, m);
      AtNode(en, p, w, nodes, last, m);
    }
  }

  lemma AtNode(en: Engine, p: Placement, w: World, nodes: seq<string>, s: Worker.System, m: nat)
    requires GaveUpAt(en, p, w, nodes, s, m)
    ensures |s.current| == m && exists n :: n in nodes && Refused(en, p, w, n)
  {
    hide Refused;
    assert nodes[m] in nodes;
  }

  lemma LeftOver(lim: Worker.Limits, s: Worker.System)
    requires Worker.Invariant(lim, s)
    ensures |s.tasks| + |s.list| + |s.held| + |s.lost| + |s.collected| == |s.current|
  {
    Worker.Outstanding(lim, s);
  }

  /**
   * What an abort leaves behind: exactly the nodes before the first one whose dispatch fails were dispatched, and the tasks
   * and results that the fan-in did not live to collect are as many as these nodes.
   */
  lemma AbortLeaves(
    lim: Worker.Limits, en: Engine, p: Placement, group: seq<string>, w: World, ss: seq<Worker.System>) returns (m: nat)
    requires InGraph(en, Elems(group)) && Distinct(group) && Aborts(en, p, group, w)
    requires Round(lim, en, p, w, FilterRunnable(en, group, w), ss) && ss[|ss| - 1].toDispatch == []
    ensures var nodes, s := FilterRunnable(en, group, w), ss[|ss| - 1];
            && GaveUpAt(en, p, w, nodes, s, m)
            && |s.tasks| + |s.list| + |s.held| + |s.lost| + |s.collected| == m
  {
    hide Refused, RoundStep, FilterRunnable, Standing, GaveUpAt, Aborts, Worker.Invariant;
    var nodes, last := FilterRunnable(en, group, w), ss[|ss| - 1];
    ReachesFanInIff(lim, en, p, group, w, ss);
    RoundStands(lim, en, p, w, nodes, ss, |ss| - 1);
    assert !Over(last);
    m :| GaveUpAt(en, p, w, nodes, last, m);
    AtNode(en, p, w, nodes, last, m);
    LeftOver(lim, last);
  }

  // ---------- Collecting ----------

  ghost function Nodes(rs: seq<Worker.Result>): seq<string> {
    seq(|rs|, i requires 0 <= i < |rs| => rs[i].node)
  }

  lemma {:induction false} NodesCounted(rs: seq<Worker.Result>)
    ensures multiset(Nodes(rs)) == Worker.NodesOf(rs)
  {
    if rs == [] {
      assert Nodes(rs) == [];
    } else {
      NodesCounted(rs[..|rs| - 1]);
      assert Nodes(rs) == Nodes(rs[..|rs| - 1]) + [rs[|rs| - 1].node];
    }
  }

  lemma SameMembers(a: seq<string>, b: seq<string>)
    requires Distinct(a) && multiset(a) == multiset(b)
    ensures Distinct(b) && forall n :: n in a <==> n in b
  {
    forall n ensures n in a <==> n in b {
      assert n in multiset(a) <==> n in multiset(b);
    }
    forall i, j | 0 <= i < j < |b| ensures b[i] != b[j] {
      if b[i] == b[j] {
        CountTwice(b, i, j);
        DistinctOnce(a, b[i]);
      }
    }
  }

  lemma CountTwice(b: seq<string>, i: nat, j: nat)
    requires i < j < |b| && b[i] == b[j]
    ensures multiset(b)[b[i]] >= 2
  {
    assert b == b[..j] + [b[j]] + b[j + 1..];
    assert b[i] == b[..j][i];
    assert b[i] in multiset(b[..j]);
  }

  lemma {:induction false} DistinctOnce(a: seq<string>, x: string)
    requires Distinct(a)
    ensures multiset(a)[x] <= 1
  {
    if a != [] {
      var rest, last := a[..|a| - 1], a[|a| - 1];
      assert a == rest + [last];
      DistinctOnce(rest, x);
      if x == last {
        assert x !in rest;
        assert x !in multiset(rest);
      }
    }
  }

  /**
   * A round that collected everything has the group's effect: its results came one from each runnable node, and applying
   * them in the order in which they were popped does what the in-process group does.
   */
  lemma RoundEffect(
    lim: Worker.Limits, en: Engine, p: Placement, group: seq<string>, w: World, ss: seq<Worker.System>) returns (w': World)
    requires Ready(en, group, w)
    requires forall n :: n in Elems(group) && NodeOf(en.g, n).kind != Input ==> n !in w.outputs
    requires Round(lim, en, p, w, FilterRunnable(en, group, w), ss) && Over(ss[|ss| - 1]) && ss[|ss| - 1].pending == 0
    ensures InGraph(en, Elems(group)) && GroupEffect(en, Elems(group), w, w')
    ensures var arrivals := Nodes(ss[|ss| - 1].collected);
            Arrivals(en, group, w, arrivals) && ExecuteGroup(en, p, group, w, arrivals) == Some(w'.(steps := w.steps))
  {
    hide FilterRunnable, GroupEffect, Ready, Aborts, FanIn, RoundStep, Standing, Runnable, Worker.Invariant;
    var s := ss[|ss| - 1];
    ReadyGroup(en, group, w);
    ReachesFanInIff(lim, en, p, group, w, ss);
    RoundStands(lim, en, p, w, FilterRunnable(en, group, w), ss, |ss| - 1);
    Collected(lim, en, p, group, w, s);
    w' := DistributedGroupEffect(en, p, group, w, Nodes(s.collected));
  }

  lemma Collected(lim: Worker.Limits, en: Engine, p: Placement, group: seq<string>, w: World, s: Worker.System)
    requires InGraph(en, Elems(group)) && Distinct(group)
    requires Standing(en, p, w, FilterRunnable(en, group, w), s) && Worker.Invariant(lim, s) && Over(s) && s.pending == 0
    ensures Arrivals(en, group, w, Nodes(s.collected))
  {
    hide FilterRunnable, Standing, Runnable;
    var nodes := FilterRunnable(en, group, w);
    Filtered(en, group, w);
    OverMeansSent(en, p, w, nodes, s);
    Worker.RoundComplete(lim, s);
    NodesCounted(s.collected);
    SameMembers(nodes, Nodes(s.collected));
  }

  lemma ReadyGroup(en: Engine, group: seq<string>, w: World)
    requires Ready(en, group, w)
    ensures InGraph(en, Elems(group)) && Distinct(group)
  {
  }

  // ---------- A group on which they differ ----------

  const QUESTION := Node("question", Input, [], ["out"], [], [])
  const ASK := Node("ask", Other, [Port("in", None)], [], [], [])
  const PICK := Node("pick", Conditional, [Port("in", None)], [], [], [])
  const TO_ASK := Edge("to_ask", "question", "out", "ask", "in", false, None)
  const TO_PICK := Edge("to_pick", "question", "out", "pick", "in", false, None)

  /** A node that runs as a task beside a conditional, which fails on its inputs. */
  const ASKING := Graph([QUESTION, ASK, PICK], [TO_ASK, TO_PICK])

  /** The world after the group of the input node, which holds what the caller gave. */
  function Given(given: Ports): World {
    World(map["question" := given], map[], {}, {}, {}, multiset{})
  }

  function Asking(made: Ports): Engine {
    Engine(ASKING, (n: string, inputs: Ports, state: Ports) => if n == "pick" then None else Some(made), _ => {})
  }

  lemma AskingParts()
    ensures forall n :: n in ASKING.nodes <==> n == QUESTION || n == ASK || n == PICK
    ensures forall e :: e in ASKING.edges <==> e == TO_ASK || e == TO_PICK
    ensures Valid(ASKING) && Ids(ASKING) == {"question", "ask", "pick"}
    ensures NodeOf(ASKING, "ask") == ASK && NodeOf(ASKING, "pick") == PICK
    ensures WellFormedNode(QUESTION) && WellFormedNode(ASK) && WellFormedNode(PICK)
    ensures HasInput(ASK, "in") && HasInput(PICK, "in")
  {
    assert QUESTION in ASKING.nodes && ASK in ASKING.nodes && PICK in ASKING.nodes;
    assert TO_ASK in ASKING.edges && TO_PICK in ASKING.edges;
    assert QUESTION.id == "question" && ASK.id == "ask" && PICK.id == "pick";
    assert Port("in", None) in ASK.inputs && Port("in", None) in PICK.inputs;
  }

  lemma AskingEdges()
    ensures WellFormedEdge(ASKING, TO_ASK) && WellFormedEdge(ASKING, TO_PICK)
  {
    hide WellFormedNode, HasInput, Valid, Ids;
    AskingParts();
    hide ASKING;
    assert QUESTION in ASKING.nodes && ASK in ASKING.nodes && PICK in ASKING.nodes;
  }

  lemma AskingAccepted()
    ensures Accepts(ASKING)
  {
    hide WellFormedNode, WellFormedEdge, HasInput, TopoOrder, Cyclic, Valid;
    AskingParts();
    AskingEdges();
    AskingOrder();
    TopoOrderIsAcyclic(ASKING, ["question", "ask", "pick"]);
    hide ASKING;
    assert QUESTION in ASKING.nodes && QUESTION.kind == Input;
    assert TO_ASK in ASKING.edges && TO_PICK in ASKING.edges;
  }

  lemma AskingOrder()
    ensures TopoOrder(ASKING, ["question", "ask", "pick"])
  {
    AskingParts();
    hide WellFormedNode, HasInput, Valid, Ids;
    assert |ASKING.nodes| == 3;
  }

  lemma AskingGroup(given: Ports, made: Ports)
    ensures Ids(ASKING) == {"question", "ask", "pick"} && Elems(["ask", "pick"]) == {"ask", "pick"}
    ensures NodeOf(ASKING, "ask") == ASK && NodeOf(ASKING, "pick") == PICK
    ensures FilterRunnable(Asking(made), ["ask", "pick"], Given(given)) == ["ask", "pick"]
    ensures Outcome(Asking(made), Given(given), "ask") == Some(made) && Outcome(Asking(made), Given(given), "pick") == None
  {
    hide WellFormedNode, HasInput, Valid;
    AskingParts();
    hide ASKING, Resolve;
    var group := ["ask", "pick"];
    assert group[..1] == ["ask"] && ["ask"][..0] == [];
    assert Elems(["ask"]) == {"ask"};
    assert FilterRunnable(Asking(made), ["ask"], Given(given)) == ["ask"];
  }

  /** Distributed, the execution ends and deletes the list's key while the task lives. */
  lemma AskThenPick(lim: Worker.Limits, given: Ports, made: Ports)
    ensures var (en, w, group) := (Asking(made), Given(given), ["ask", "pick"]);
            && Accepts(en.g) && InGraph(en, Elems(group)) && Aborts(en, PLAIN, group, w)
            && exists ss: seq<Worker.System> ::
                 && Round(lim, en, PLAIN, w, FilterRunnable(en, group, w), ss)
                 && ss[|ss| - 1].closed && ss[|ss| - 1].tasks == [Worker.Task("ask", 0, 0)]
  {
    hide FilterRunnable, Outcome, Worker.Invariant, Accepts;
    AskingAccepted();
    AskingGroup(given, made);
    hide ASKING;
    var en, w := Asking(made), Given(given);
    assert DispatchFails(en, PLAIN, w, "pick") && !DispatchFails(en, PLAIN, w, "ask");
    assert "pick" in Elems(["ask", "pick"]) && Runnable(en, w, "pick");
    var s0 := Worker.Initial().(toDispatch := ["ask", "pick"]);
    InitialRound(lim, s0);
    var s1 := Worker.Perform(lim, s0, Worker.Dispatch);
    var s2 := Worker.Perform(lim, s1, Worker.FailDispatch);
    assert Follows(en, PLAIN, w, s0, Worker.Dispatch) && Follows(en, PLAIN, w, s1, Worker.FailDispatch);
    assert RoundStep(lim, en, PLAIN, w, s0, s1) && RoundStep(lim, en, PLAIN, w, s1, s2);
    assert Round(lim, en, PLAIN, w, ["ask", "pick"], [s0, s1, s2]);
    assert [s0, s1, s2][2].tasks == [Worker.Task("ask", 0, 0)];
  }

  lemma InitialRound(lim: Worker.Limits, s: Worker.System)
    requires s == Worker.Initial().(toDispatch := s.toDispatch)
    ensures Worker.Invariant(lim, s)
  {
  }

  /** In process, the same group records a failure and keeps the other node's outputs. */
  lemma AskAndPick(given: Ports, made: Ports) returns (w': World)
    ensures var (en, w, group) := (Asking(made), Given(given), ["ask", "pick"]);
            && Accepts(en.g) && InGraph(en, Elems(group)) && GroupEffect(en, Elems(group), w, w')
            && w'.outputs == map["question" := given, "ask" := made]
            && Failed("pick", InputsOf(en, w, "pick")) in w'.steps
  {
    hide FilterRunnable, Outcome, InputsOf, Forced, Accepts, LifelessIds;
    AskingAccepted();
    AskingGroup(given, made);
    AskingUncut(given, made);
    hide ASKING;
    var en, w, group := Asking(made), Given(given), {"ask", "pick"};
    var records := RecordsOf(en, w, group);
    assert RecordOf(en, w, "pick") == Failed("pick", InputsOf(en, w, "pick"));
    w' := World(map["question" := given, "ask" := made], map[], {}, {}, {}, records);
    assert RanOf(en, w, group) == {"ask"} && PropagatedOf(en, w, group) == {} && RecordedOf(en, w, group) == group;
  }

  /** Nothing is cut, so nothing is skipped. */
  lemma AskingUncut(given: Ports, made: Ports)
    ensures CutAfter(Asking(made), Given(given), {}) == {} && Forced(ASKING, {}) == {} && LifelessIds(ASKING, {}, {}) == {}
  {
    hide Forced, Outcome;
    AskingParts();
    hide ASKING;
    LeastIsForced(ASKING, {}, {});
  }
}
