/** The loop pass as functions. */
module LoopSpec {
  import opened Options
  import opened Graphs
  import opened Skips
  import opened NodeRuns

  // Re-running a body, iterating on a back-edge condition, and re-running what lies downstream, as functions of the maps
  // they update. And the dataflow invariant that the pass keeps.

  datatype LoopStep =
    | Completed(node: string, iteration: nat, inputs: Ports, outputs: Ports)
    | Failed(node: string, iteration: nat, inputs: Ports)

  /** The maps shared with the forward pass, step records and iteration counts, and the states that nodes were given. */
  datatype Run = Run(
    outputs: map<string, Ports>, state: Ports, steps: seq<LoopStep>, counts: map<string, nat>, skipped: set<string>,
    states: set<Ports>)

  datatype Result = Ok(run: Run) | Err(run: Run)

  /** A back-edge, its body in topological order, its iteration limit and the nodes downstream of the body. */
  datatype Loop = Loop(edge: Edge, body: seq<string>, maxIter: nat, downstream: seq<string>)

  /** A condition evaluated on (edge ID, source outputs, state); None is an evaluation error. */
  type Conditions = (string, Option<Ports>, Ports) -> Option<bool>

  const ALWAYS: Conditions := (id: string, outputs: Option<Ports>, state: Ports) => Some(true)

  function Inject(inputs: Ports, injected: Option<(string, Value)>): Ports {
    if injected.Some? then inputs[injected.value.0 := injected.value.1] else inputs
  }

  /** Resolve, execute, and on success store outputs and state writes. */
  ghost function RunNode(en: Engine, r: Run, n: string, iteration: nat, injected: Option<(string, Value)>): Result
    requires n in Ids(en.g)
  {
    var node := NodeOf(en.g, n);
    var inputs := Inject(Resolve(node, r.outputs, EdgesInto(en.g.edges, n), r.state), injected);
    match en.exec(n, inputs, Restrict(r.state, en.looks(n)))
    case None => Err(r.(steps := r.steps + [Failed(n, iteration, inputs)], states := r.states + {r.state}))
    case Some(out) =>
      Ok(r.(outputs := r.outputs[n := out],
            state := Written(node.stateWrites, out, r.state),
            steps := r.steps + [Completed(n, iteration, inputs, out)],
            states := r.states + {r.state}))
  }

  ghost predicate Known(en: Engine, ns: seq<string>) {
    forall n :: n in ns ==> n in Ids(en.g)
  }

  /** Body nodes in order; input nodes are passed over; the target gets the value carried by the back-edge. */
  ghost function RunBody(en: Engine, r: Run, ns: seq<string>, edge: Edge, carried: Option<Value>, iteration: nat): Result
    requires Known(en, ns)
  {
    if ns == [] then Ok(r)
    else
      var n := ns[|ns| - 1];
      match RunBody(en, r, ns[..|ns| - 1], edge, carried, iteration)
      case Err(r1) => Err(r1)
      case Ok(r1) =>
        if NodeOf(en.g, n).kind == Input then Ok(r1)
        else RunNode(en, r1, n, iteration, Injected(edge, carried, n))
  }

  /** The back-edge's target gets the value it carries. */
  function Injected(edge: Edge, carried: Option<Value>, n: string): Option<(string, Value)> {
    if n == edge.target && carried.Some? then Some((edge.targetPort, carried.value)) else None
  }

  function Carried(outputs: map<string, Ports>, edge: Edge): Option<Value> {
    if edge.source in outputs && edge.sourcePort in outputs[edge.source]
    then Some(outputs[edge.source][edge.sourcePort]) else None
  }

  function Without(outputs: map<string, Ports>, ns: seq<string>): map<string, Ports> {
    map n | n in outputs && n !in ns :: outputs[n]
  }

  /** The body's outputs and skip flags are forgotten. */
  ghost function Cleared(r: Run, loop: Loop, iteration: nat): Run {
    r.(counts := r.counts[loop.edge.id := iteration],
       outputs := Without(r.outputs, loop.body),
       skipped := r.skipped - Elems(loop.body))
  }

  /** One iteration: remember the back-edge value, clear the body, run it again. */
  ghost function Iteration(en: Engine, r: Run, loop: Loop, iteration: nat): Result
    requires Known(en, loop.body)
  {
    RunBody(en, Cleared(r, loop, iteration), loop.body, loop.edge, Carried(r.outputs, loop.edge), iteration)
  }

  function Check(conds: Conditions, r: Run, edge: Edge): Option<bool> {
    conds(edge.id, if edge.source in r.outputs then Some(r.outputs[edge.source]) else None, r.state)
  }

  /** Iterations from number i on. */
  ghost function LoopFrom(en: Engine, conds: Conditions, r: Run, loop: Loop, i: nat): Result
    requires Known(en, loop.body)
    decreases loop.maxIter + 1 - i
  {
    if i > loop.maxIter then Ok(r)
    else match Check(conds, r, loop.edge)
      case None => Err(r)
      case Some(again) =>
        if !again then Ok(r)
        else match Iteration(en, r, loop, i)
          case Err(r1) => Err(r1)
          case Ok(r1) => LoopFrom(en, conds, r1, loop, i + 1)
  }

  ghost function RunDownstream(en: Engine, r: Run, ns: seq<string>): Result
    requires Known(en, ns)
  {
    if ns == [] then Ok(r)
    else match RunDownstream(en, r, ns[..|ns| - 1])
      case Err(r1) => Err(r1)
      case Ok(r1) => RunNode(en, r1, ns[|ns| - 1], 0, None)
  }

  /** The first condition held, so the body ran at least once. */
  predicate Entered(conds: Conditions, r: Run, loop: Loop) {
    loop.maxIter >= 1 && Check(conds, r, loop.edge) == Some(true)
  }

  ghost function RunLoop(en: Engine, conds: Conditions, r: Run, loop: Loop): Result
    requires Known(en, loop.body) && Known(en, loop.downstream)
  {
    match LoopFrom(en, conds, r, loop, 1)
    case Err(r1) => Err(r1)
    case Ok(r1) => if Entered(conds, r, loop) then RunDownstream(en, r1, loop.downstream) else Ok(r1)
  }

  ghost predicate KnownLoops(en: Engine, loops: seq<Loop>) {
    forall l :: l in loops ==> Known(en, l.body) && Known(en, l.downstream)
  }

  ghost function RunLoops(en: Engine, conds: Conditions, r: Run, loops: seq<Loop>): Result
    requires KnownLoops(en, loops)
  {
    if loops == [] then Ok(r)
    else match RunLoops(en, conds, r, loops[..|loops| - 1])
      case Err(r1) => Err(r1)
      case Ok(r1) => RunLoop(en, conds, r1, loops[|loops| - 1])
  }

  // ---------- Which nodes a loop covers ----------

  /** Body: a stretch of the topological order; downstream: what forward edges reach from it. */
  ghost predicate Covers(g: Graph, order: seq<string>, loop: Loop, lo: nat, hi: nat) {
    && TopoOrder(g, order)
    && lo <= hi <= |order|
    && loop.body == order[lo..hi]
    && Increasing(order, loop.downstream)
    && (forall n :: n in loop.downstream ==> n !in loop.body)
    && (forall u, v :: Arc(g, u, v) && (u in loop.body || u in loop.downstream) ==> v in loop.body || v in loop.downstream)
    && (forall n :: n in loop.downstream ==> n in order[hi..] && Reached(g, loop.body, n))
  }

  /** A forward path from the body, outside it after its first node, ends at n. */
  ghost predicate Reached(g: Graph, body: seq<string>, n: string) {
    exists p :: ReachedBy(g, body, n, p)
  }

  ghost predicate ReachedBy(g: Graph, body: seq<string>, n: string, p: seq<string>) {
    && Walk(g, p) && |p| >= 2 && p[0] in body && p[|p| - 1] == n
    && forall i :: 1 <= i < |p| ==> p[i] !in body
  }

  /** ns lists nodes in the order in which `order` has them. */
  ghost predicate Increasing(order: seq<string>, ns: seq<string>) {
    && (forall n :: n in ns ==> n in order)
    && (forall i, j, a, b :: 0 <= i < j < |ns| && 0 <= a < |order| && 0 <= b < |order| && order[a] == ns[i] && order[b] == ns[j] ==> a < b)
  }

  // ---------- The dataflow invariant ----------

  /** A port that a back-edge of the graph feeds. */
  ghost predicate BackPort(g: Graph, n: string, p: string) {
    exists e :: e in g.edges && e.back && e.target == n && e.targetPort == p
  }

  /**
   * n's outputs come from its executor, given a state that the run went through, on inputs that today's outputs still
   * resolve to (back-edge ports aside).
   */
  ghost predicate Fresh(en: Engine, outputs: map<string, Ports>, states: set<Ports>, n: string)
    requires n in Ids(en.g) && n in outputs
  {
    exists inputs: Ports, seen: Ports :: seen in states && ComputedFrom(en, outputs, n, inputs, seen)
  }

  ghost predicate ComputedFrom(en: Engine, outputs: map<string, Ports>, n: string, inputs: Ports, seen: Ports)
    requires n in Ids(en.g) && n in outputs
  {
    && en.exec(n, inputs, Restrict(seen, en.looks(n))) == Some(outputs[n])
    && (forall p :: !BackPort(en.g, n, p) ==>
          SameField(inputs, Resolve(NodeOf(en.g, n), outputs, EdgesInto(en.g.edges, n), seen), p))
  }

  /** Every node outside `stale` that holds outputs is fresh; input nodes hold what the caller gave. */
  ghost predicate FreshExcept(en: Engine, outputs: map<string, Ports>, states: set<Ports>, stale: set<string>) {
    forall n :: n in outputs && n in Ids(en.g) && n !in stale && NodeOf(en.g, n).kind != Input ==> Fresh(en, outputs, states, n)
  }

  ghost predicate DataflowConsistent(en: Engine, outputs: map<string, Ports>, states: set<Ports>) {
    FreshExcept(en, outputs, states, {})
  }

  /** Freshness of n only depends on n's own outputs and those of its forward predecessors. */
  lemma FreshIsLocal(en: Engine, a: map<string, Ports>, b: map<string, Ports>, states: set<Ports>, more: set<Ports>, n: string)
    requires n in Ids(en.g) && n in a && n in b && a[n] == b[n] && states <= more
    requires forall u :: Arc(en.g, u, n) ==> SameNode(a, b, u)
    ensures Fresh(en, a, states, n) ==> Fresh(en, b, more, n)
  {
    if Fresh(en, a, states, n) {
      var inputs: Ports, seen: Ports :| seen in states && ComputedFrom(en, a, n, inputs, seen);
      ResolveIsLocal(en.g, NodeOf(en.g, n), a, b, seen, seen);
      assert ComputedFrom(en, b, n, inputs, seen);
    }
  }

  /** A node that has just run is fresh, and only its forward successors may have become stale. */
  lemma RunNodeFresh(en: Engine, r: Run, n: string, iteration: nat, injected: Option<(string, Value)>, stale: set<string>)
    requires Valid(en.g) && n in Ids(en.g) && !Arc(en.g, n, n)
    requires injected.Some? ==> BackPort(en.g, n, injected.value.0)
    requires FreshExcept(en, r.outputs, r.states, stale)
    requires forall v :: Arc(en.g, n, v) && v in r.outputs ==> v in stale
    requires RunNode(en, r, n, iteration, injected).Ok?
    ensures var r' := RunNode(en, r, n, iteration, injected).run; FreshExcept(en, r'.outputs, r'.states, stale - {n})
  {
    var outputs, states := RunNode(en, r, n, iteration, injected).run.outputs, r.states + {r.state};
    var node := NodeOf(en.g, n);
    var resolved := Resolve(node, r.outputs, EdgesInto(en.g.edges, n), r.state);
    ResolveIsLocal(en.g, node, r.outputs, outputs, r.state, r.state);
    assert ComputedFrom(en, outputs, n, Inject(resolved, injected), r.state);
    forall m | m in outputs && m in Ids(en.g) && m != n && m !in stale && NodeOf(en.g, m).kind != Input
      ensures Fresh(en, outputs, states, m)
    {
      assert Fresh(en, r.outputs, r.states, m);
      FreshIsLocal(en, r.outputs, outputs, r.states, states, m);
    }
  }
}
