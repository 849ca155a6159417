/** The distributed executeGroup. */
module WorkerGroups {
  import opened Options
  import opened Graphs
  import opened Skips
  import opened NodeRuns
  import opened ForwardPass
  import opened GroupRules

  // Every runnable node is resolved and dispatched first; results are applied in the order in which they arrive. A group
  // that gets to its fan-in has the effect of the in-process goroutines.

  /** filterRunnable: neither input nodes nor skipped nodes nor nodes that already hold outputs. */
  ghost predicate Runnable(en: Engine, w: World, n: string)
    requires n in Ids(en.g)
  {
    NodeOf(en.g, n).kind != Input && n !in w.skipped && n !in w.outputs
  }

  /**
   * Where nodes run. `local` names what the orchestrator runs itself beside input, conditional and output nodes (transforms);
   * `rejects` says when a task cannot be built from its inputs and state, as when a prompt does not render.
   */
  datatype Placement = Placement(local: string -> bool, rejects: (string, Ports, Ports) -> bool)

  /** Only what has to run in process does, and every task can be built. */
  const PLAIN := Placement(_ => false, (n: string, inputs: Ports, state: Ports) => false)

  ghost predicate Inline(en: Engine, p: Placement, n: string)
    requires n in Ids(en.g)
  {
    NodeOf(en.g, n).kind != Other || p.local(n)
  }

  /** dispatchNode returns an error: a node run in process failed, or a task could not be built. */
  ghost predicate DispatchFails(en: Engine, p: Placement, w: World, n: string)
    requires n in Ids(en.g)
  {
    if Inline(en, p, n) then Outcome(en, w, n).None? else p.rejects(n, InputsOf(en, w, n), w.state)
  }

  /** A dispatch of this group fails, so its fan-in is not reached. */
  ghost predicate Aborts(en: Engine, p: Placement, group: seq<string>, w: World)
    requires InGraph(en, Elems(group))
  {
    exists n :: n in Elems(group) && Runnable(en, w, n) && DispatchFails(en, p, w, n)
  }

  /**
   * So a runnable node makes its group abort in two ways: it runs in process, as input, conditional, output and other local
   * nodes do, and its executor fails on what its ports hold; or no task can be built from what its ports hold.
   */
  lemma AbortsMean(en: Engine, p: Placement, group: seq<string>, w: World)
    requires InGraph(en, Elems(group))
    ensures Aborts(en, p, group, w) <==> exists n, inputs: Ports :: n in group && CannotRun(en, p, w, n, inputs)
  {
    hide InputsOf, InputsGiven;
    if Aborts(en, p, group, w) {
      var n :| n in Elems(group) && Runnable(en, w, n) && DispatchFails(en, p, w, n);
      OnlyInputs(en, w, n, InputsOf(en, w, n));
      assert CannotRun(en, p, w, n, InputsOf(en, w, n));
    }
    if n, inputs: Ports :| n in group && CannotRun(en, p, w, n, inputs) {
      assert n in Elems(group);
      OnlyInputs(en, w, n, inputs);
      assert Runnable(en, w, n) && DispatchFails(en, p, w, n);
    }
  }

  ghost predicate CannotRun(en: Engine, p: Placement, w: World, n: string, inputs: Ports) {
    && n in Ids(en.g) && NodeOf(en.g, n).kind != Input && n !in w.skipped && n !in w.outputs
    && InputsGiven(en, w, n, inputs)
    && if NodeOf(en.g, n).kind == Conditional || NodeOf(en.g, n).kind == Output || p.local(n)
       then en.exec(n, inputs, Restrict(w.state, en.looks(n))) == None
       else p.rejects(n, inputs, w.state)
  }

  /** processNodeResult: store outputs, apply state writes, propagate a conditional's skips; a failed task changes nothing. */
  ghost function ProcessResult(en: Engine, w: World, n: string, answer: Option<Ports>): World
    requires n in Ids(en.g)
  {
    match answer
    case None => w
    case Some(outputs) =>
      var node := NodeOf(en.g, n);
      var stored := w.(outputs := w.outputs[n := outputs], state := Written(node.stateWrites, outputs, w.state));
      if node.kind != Conditional then stored
      else
        var cut := w.cut + DeadBranches(en.g, n, outputs);
        var skipped := Forced(en.g, cut);
        stored.(cut := cut, skipped := skipped, dead := LifelessIds(en.g, cut, skipped))
  }

  /** The fan-in, results arriving in this order. */
  ghost function FanIn(en: Engine, dispatched: World, arrivals: seq<string>): World
    requires InGraph(en, Elems(arrivals))
  {
    if arrivals == [] then dispatched
    else
      var n := arrivals[|arrivals| - 1];
      assert n in Elems(arrivals) && Elems(arrivals[..|arrivals| - 1]) <= Elems(arrivals);
      ProcessResult(en, FanIn(en, dispatched, arrivals[..|arrivals| - 1]), n, Outcome(en, dispatched, n))
  }

  /** The in-process configuration in which every runnable node has resolved, and the arrived ones are done. */
  ghost function Simulating(en: Engine, group: seq<string>, w: World, c: Config, arrivals: seq<string>): bool
    requires InGraph(en, Elems(group))
  {
    && Invariant(en, group, w, c) && c.launched == |group|
    && c.phases.Keys <= Elems(group)
    && (forall n :: n in c.phases ==> if n in arrivals then c.phases[n].Done? else c.phases[n].Snapped?)
    && InGraph(en, Elems(arrivals))
    && FanIn(en, w, arrivals) == c.world.(steps := w.steps)
  }

  ghost function Dispatched(en: Engine, group: seq<string>, w: World): Config
    requires InGraph(en, Elems(group))
  {
    Config(w.(steps := w.steps + RecordsOf(en, w, set n | n in Elems(group) && n in w.skipped && NodeOf(en.g, n).kind != Input)),
           |group|,
           map n | n in Elems(group) && Runs(en, w, n) :: Snapped(InputsOf(en, w, n), w.state))
  }

  lemma DispatchedSimulates(en: Engine, group: seq<string>, w: World)
    requires Ready(en, group, w)
    ensures Simulating(en, group, w, Dispatched(en, group, w), [])
  {
    hide Accounted, Explained, Valid, UniqueEdges, SkipsDecided, NoInterference, RecordsOf, Forced, LifelessIds, InputsOf;
    DispatchedAccounted(en, group, w);
    DispatchedExplained(en, group, w);
  }

  lemma DispatchedAccounted(en: Engine, group: seq<string>, w: World)
    requires InGraph(en, Elems(group))
    ensures Accounted(en, group, w, Dispatched(en, group, w))
  {
    hide RecordsOf, Resolve;
    assert group[..|group|] == group;
  }

  /** All inputs are resolved, and nothing has run. */
  lemma DispatchedExplained(en: Engine, group: seq<string>, w: World)
    requires Ready(en, group, w)
    ensures var c := Dispatched(en, group, w);
            c.phases.Keys <= Elems(group) && Explained(en, w, c.world, Ran(c), Propagated(en, c), Recorded(en, group, w, c))
  {
    hide Forced, LifelessIds, RecordsOf, InputsOf, SkipsDecided, NoInterference, Valid, UniqueEdges, Untaken;
    var c := Dispatched(en, group, w);
    assert group[..|group|] == group;
    assert Ran(c) == {} && Propagated(en, c) == {};
    assert CutAfter(en, w, {}) == w.cut;
    assert Recorded(en, group, w, c) == set n | n in Elems(group) && n in w.skipped && NodeOf(en.g, n).kind != Input;
  }

  lemma FanInMore(en: Engine, w: World, arrivals: seq<string>, n: string)
    requires InGraph(en, Elems(arrivals)) && n in Ids(en.g)
    ensures InGraph(en, Elems(arrivals + [n]))
    ensures FanIn(en, w, arrivals + [n]) == ProcessResult(en, FanIn(en, w, arrivals), n, Outcome(en, w, n))
  {
    hide ProcessResult, Outcome;
    assert (arrivals + [n])[..|arrivals|] == arrivals;
    assert Elems(arrivals + [n]) == Elems(arrivals) + {n};
  }

  lemma ArrivalSimulates(en: Engine, group: seq<string>, w: World, c: Config, arrivals: seq<string>, n: string) returns (c': Config)
    requires Ready(en, group, w) && Simulating(en, group, w, c, arrivals)
    requires n in c.phases && n !in arrivals
    ensures c'.phases.Keys == c.phases.Keys && Simulating(en, group, w, c', arrivals + [n])
  {
    hide Explained, Accounted, Forced, LifelessIds, DeadBranches, Resolve, Written, Ready, ExecNode, FanIn;
    InGroup'(en, group, w, c, n);
    FanInMore(en, w, arrivals, n);
    ExecutesAsAtStart(en, group, w, c, n);
    CommitKeeps(en, group, w, c, n);
    c' := Perform(en, group, c, CommitStep(n));
    if c'.phases[n].Committed? {
      PropagateKeeps(en, group, w, c', n);
      c' := Perform(en, group, c', PropagateStep(n));
    }
  }

  lemma {:induction false} FanInSimulates(en: Engine, group: seq<string>, w: World, arrivals: seq<string>) returns (c: Config)
    requires Ready(en, group, w) && Distinct(arrivals)
    requires forall n :: n in arrivals ==> n in group && Runs(en, w, n)
    ensures Simulating(en, group, w, c, arrivals)
    ensures c.phases.Keys == set n | n in Elems(group) && Runs(en, w, n)
  {
    hide Explained, Simulating;
    if arrivals == [] {
      DispatchedSimulates(en, group, w);
      c := Dispatched(en, group, w);
    } else {
      var prefix, n := arrivals[..|arrivals| - 1], arrivals[|arrivals| - 1];
      var c0 := FanInSimulates(en, group, w, prefix);
      assert n in Elems(group) && n in c0.phases;
      c := ArrivalSimulates(en, group, w, c0, prefix, n);
      assert prefix + [n] == arrivals;
    }
  }

  /** The results of the group's tasks and of the nodes run in process, one each, in some order. */
  ghost predicate Arrivals(en: Engine, group: seq<string>, w: World, arrivals: seq<string>)
    requires InGraph(en, Elems(group))
  {
    && Distinct(arrivals) && InGraph(en, Elems(arrivals))
    && forall n :: n in Elems(arrivals) <==> n in Elems(group) && Runnable(en, w, n)
  }

  /** executeGroup: None when a dispatch fails, otherwise what the fan-in makes of the results. */
  ghost function ExecuteGroup(en: Engine, p: Placement, group: seq<string>, w: World, arrivals: seq<string>): Option<World>
    requires InGraph(en, Elems(group)) && Arrivals(en, group, w, arrivals)
  {
    if Aborts(en, p, group, w) then None else Some(FanIn(en, w, arrivals))
  }

  /**
   * In whatever order the results arrive, a distributed group either does what the in-process group does, or the execution
   * ends; it ends exactly when a node the orchestrator runs itself fails or a task cannot be built, where the in-process
   * group records a failure and goes on.
   */
  lemma DistributedGroupEffect(en: Engine, p: Placement, group: seq<string>, w: World, arrivals: seq<string>) returns (w': World)
    requires Ready(en, group, w) && Arrivals(en, group, w, arrivals)
    requires forall n :: n in Elems(group) && NodeOf(en.g, n).kind != Input ==> n !in w.outputs
    ensures InGraph(en, Elems(group)) && GroupEffect(en, Elems(group), w, w')
    ensures ExecuteGroup(en, p, group, w, arrivals) == if Aborts(en, p, group, w) then None else Some(w'.(steps := w.steps))
  {
    hide Explained, DispatchFails, FanIn;
    forall n | n in group ensures Runnable(en, w, n) <==> Runs(en, w, n) {
      assert n in Elems(group);
    }
    forall n | n in arrivals ensures n in group && Runs(en, w, n) {
      assert n in Elems(arrivals);
    }
    var c := FanInSimulates(en, group, w, arrivals);
    forall n | n in c.phases ensures c.phases[n].Done? {
      assert n in Elems(arrivals);
    }
    FinishedEffect(en, group, w, c);
    w' := c.world;
  }
}
