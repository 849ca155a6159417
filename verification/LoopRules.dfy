/** What loops do, node by node. */
module LoopRules {
  import opened Options
  import opened Graphs
  import opened PortRules
  import opened Skips
  import opened NodeRuns
  import opened LoopSpec
  import opened LoopFacts

  // Said of the runs between the nodes, with the executors on what the ports hold and without the functions of the pass.

  /** These ports are given; every other port holds what the run gives it. */
  ghost predicate PortsHold(en: Engine, r: Run, n: string, given: Ports, inputs: Ports)
    requires n in Ids(en.g)
  {
    forall p :: if p in given then Holds(inputs, p, given[p])
                else PortGiven(NodeOf(en.g, n), en.g.edges, r.outputs, r.state, inputs, p)
  }

  ghost predicate Executes(en: Engine, r: Run, n: string, inputs: Ports, answer: Option<Ports>) {
    en.exec(n, inputs, Restrict(r.state, en.looks(n))) == answer
  }

  /** n ran on `inputs`: its outputs and state writes are stored and its record is appended, and nothing else is changed. */
  ghost predicate RanOn(en: Engine, r: Run, r': Run, n: string, iteration: nat, inputs: Ports, out: Ports)
    requires n in Ids(en.g)
  {
    && r'.steps == r.steps + [Completed(n, iteration, inputs, out)]
    && r'.outputs == r.outputs[n := out]
    && (forall f :: FieldGiven(r.state, GivenTo(NodeOf(en.g, n).stateWrites, out, f), f, r'.state))
    && r'.counts == r.counts && r'.skipped == r.skipped
  }

  ghost predicate NodeRan(en: Engine, r: Run, r': Run, n: string, iteration: nat, given: Ports)
    requires n in Ids(en.g)
  {
    exists inputs: Ports, out: Ports ::
      PortsHold(en, r, n, given, inputs) && Executes(en, r, n, inputs, Some(out)) && RanOn(en, r, r', n, iteration, inputs, out)
  }

  ghost predicate FailedOn(r: Run, r': Run, n: string, iteration: nat, inputs: Ports) {
    r'.steps == r.steps + [Failed(n, iteration, inputs)] && r'.outputs == r.outputs && r'.state == r.state
  }

  ghost predicate NodeFailed(en: Engine, r: Run, r': Run, n: string, iteration: nat, given: Ports)
    requires n in Ids(en.g)
  {
    exists inputs: Ports ::
      PortsHold(en, r, n, given, inputs) && Executes(en, r, n, inputs, None) && FailedOn(r, r', n, iteration, inputs)
  }

  // ---------- One node ----------

  lemma NodeMeans(en: Engine, r: Run, n: string, iteration: nat, injected: Option<(string, Value)>, given: Ports)
    requires n in Ids(en.g)
    requires given == if injected.Some? then map[injected.value.0 := injected.value.1] else map[]
    ensures var out := RunNode(en, r, n, iteration, injected);
            if out.Ok? then NodeRan(en, r, out.run, n, iteration, given) else NodeFailed(en, r, out.run, n, iteration, given)
  {
    hide Resolve, Written, Restrict;
    var node := NodeOf(en.g, n);
    var resolved := Resolve(node, r.outputs, EdgesInto(en.g.edges, n), r.state);
    var inputs := Inject(resolved, injected);
    InputsMean(en, r, n, injected, given);
    var answer := en.exec(n, inputs, Restrict(r.state, en.looks(n)));
    var r' := RunNode(en, r, n, iteration, injected).run;
    assert Executes(en, r, n, inputs, answer);
    if answer.Some? {
      forall f ensures FieldGiven(r.state, GivenTo(node.stateWrites, answer.value, f), f, r'.state) {
        WrittenField(node.stateWrites, answer.value, r.state, f);
      }
      assert RanOn(en, r, r', n, iteration, inputs, answer.value);
    } else {
      assert FailedOn(r, r', n, iteration, inputs);
    }
  }

  lemma InputsMean(en: Engine, r: Run, n: string, injected: Option<(string, Value)>, given: Ports)
    requires n in Ids(en.g)
    requires given == if injected.Some? then map[injected.value.0 := injected.value.1] else map[]
    ensures PortsHold(en, r, n, given, Inject(Resolve(NodeOf(en.g, n), r.outputs, EdgesInto(en.g.edges, n), r.state), injected))
  {
    hide Resolve, PortGiven;
    var resolved := Resolve(NodeOf(en.g, n), r.outputs, EdgesInto(en.g.edges, n), r.state);
    var inputs := Inject(resolved, injected);
    forall p | p !in given ensures PortGiven(NodeOf(en.g, n), en.g.edges, r.outputs, r.state, inputs, p) {
      ResolvedPort(NodeOf(en.g, n), en.g.edges, r.outputs, r.state, p);
      SamePortGiven(NodeOf(en.g, n), en.g.edges, r.outputs, r.state, resolved, inputs, p);
    }
  }

  lemma SamePortGiven(
    node: Node, edges: seq<Edge>, outputs: map<string, Ports>, state: Ports, a: Ports, b: Ports, p: string)
    requires PortGiven(node, edges, outputs, state, a, p) && SameField(a, b, p)
    ensures PortGiven(node, edges, outputs, state, b, p)
  {
    hide LastEdge, NoEdge, LastRead, NoRead, LastDefault, NoDefault;
  }

  // ---------- One iteration ----------

  /** What the back-edge delivers to n in an iteration: the port it left from, as it was when the iteration began. */
  ghost function DeliveredTo(begun: map<string, Ports>, e: Edge, n: string): Ports {
    if n == e.target && e.source in begun && e.sourcePort in begun[e.source]
    then map[e.targetPort := begun[e.source][e.sourcePort]] else map[]
  }

  lemma {:induction false} ExecutedKnown(en: Engine, ns: seq<string>)
    requires Known(en, ns)
    ensures Known(en, Executed(en, ns))
  {
    if ns != [] {
      ExecutedKnown(en, ns[..|ns| - 1]);
    }
  }

  /** rs are the runs between the nodes of `ns`; all but the last node ran, and so did it if `ok`. */
  ghost predicate Trace(
    en: Engine, rs: seq<Run>, ns: seq<string>, iteration: nat, begun: map<string, Ports>, e: Edge, ok: bool)
    requires Known(en, ns)
  {
    && (if ok then |rs| == |ns| + 1 else 2 <= |rs| <= |ns| + 1)
    && (forall k: nat, m: nat :: m == k + 1 && m < |rs| && (ok || m < |rs| - 1) ==>
          NodeRan(en, rs[k], rs[m], ns[k], iteration, DeliveredTo(begun, e, ns[k])))
    && (!ok ==> NodeFailed(en, rs[|rs| - 2], rs[|rs| - 1], ns[|rs| - 2], iteration, DeliveredTo(begun, e, ns[|rs| - 2])))
  }

  lemma {:induction false} BodyTrace(
    en: Engine, r: Run, ns: seq<string>, begun: map<string, Ports>, e: Edge, iteration: nat) returns (rs: seq<Run>)
    requires Known(en, ns)
    ensures Known(en, Executed(en, ns))
    ensures var out := RunBody(en, r, ns, e, Carried(begun, e), iteration);
            Trace(en, rs, Executed(en, ns), iteration, begun, e, out.Ok?) && rs[0] == r && rs[|rs| - 1] == out.run
  {
    hide NodeRan, NodeFailed, RunNode;
    ExecutedKnown(en, ns);
    if ns == [] {
      rs := [r];
    } else {
      var rest, n := ns[..|ns| - 1], ns[|ns| - 1];
      rs := BodyTrace(en, r, rest, begun, e, iteration);
      var before := RunBody(en, r, rest, e, Carried(begun, e), iteration);
      if before.Ok? && NodeOf(en.g, n).kind != Input {
        NodeMeans(en, before.run, n, iteration, Injected(e, Carried(begun, e), n), DeliveredTo(begun, e, n));
        var after := RunNode(en, before.run, n, iteration, Injected(e, Carried(begun, e), n));
        TraceMore(en, rs, Executed(en, rest), iteration, begun, e, n, after);
        rs := rs + [after.run];
      } else if before.Err? {
        TraceStays(en, rs, Executed(en, rest), Executed(en, ns), iteration, begun, e);
      } else {
        assert Executed(en, ns) == Executed(en, rest);
      }
    }
  }

  lemma TraceMore(
    en: Engine, rs: seq<Run>, ns: seq<string>, iteration: nat, begun: map<string, Ports>, e: Edge, n: string, after: Result)
    requires Known(en, ns) && Known(en, ns + [n]) && Trace(en, rs, ns, iteration, begun, e, true)
    requires var r := rs[|rs| - 1];
             if after.Ok? then NodeRan(en, r, after.run, n, iteration, DeliveredTo(begun, e, n))
             else NodeFailed(en, r, after.run, n, iteration, DeliveredTo(begun, e, n))
    ensures Trace(en, rs + [after.run], ns + [n], iteration, begun, e, after.Ok?)
  {
    hide NodeRan, NodeFailed, DeliveredTo;
    var rs', ns' := rs + [after.run], ns + [n];
    forall k: nat, m: nat | m == k + 1 && m < |rs'| && (after.Ok? || m < |rs'| - 1)
      ensures NodeRan(en, rs'[k], rs'[m], ns'[k], iteration, DeliveredTo(begun, e, ns'[k]))
    {
      if m < |rs| {
        assert NodeRan(en, rs[k], rs[m], ns[k], iteration, DeliveredTo(begun, e, ns[k]));
      }
    }
  }

  lemma TraceStays(
    en: Engine, rs: seq<Run>, ns: seq<string>, more: seq<string>, iteration: nat, begun: map<string, Ports>, e: Edge)
    requires Known(en, ns) && Known(en, more) && ns <= more && Trace(en, rs, ns, iteration, begun, e, false)
    ensures Trace(en, rs, more, iteration, begun, e, false)
  {
    hide NodeRan, NodeFailed, DeliveredTo;
    assert forall k :: 0 <= k < |ns| ==> ns[k] == more[k];
  }

  /**
   * An iteration. The body's outputs and skip flags are forgotten and the count is set; then the body's nodes run in order,
   * input nodes apart, until one fails. Of each node the target port of the back-edge holds what the source held when the
   * iteration began, if it held it; every other port holds what the outputs so far, the state and the defaults give it.
   */
  lemma IterationMeans(en: Engine, r: Run, loop: Loop, i: nat) returns (rs: seq<Run>)
    requires Known(en, loop.body)
    ensures Known(en, Executed(en, loop.body))
    ensures var out := Iteration(en, r, loop, i);
            && Trace(en, rs, Executed(en, loop.body), i, r.outputs, loop.edge, out.Ok?) && rs[|rs| - 1] == out.run
            && (forall n :: if n in loop.body then n !in rs[0].outputs else SameNode(r.outputs, rs[0].outputs, n))
            && (forall n :: n in rs[0].skipped <==> n in r.skipped && n !in loop.body)
            && rs[0].counts == r.counts[loop.edge.id := i] && rs[0].state == r.state && rs[0].steps == r.steps
  {
    hide Trace;
    rs := BodyTrace(en, Cleared(r, loop, i), loop.body, r.outputs, loop.edge, i);
    TraceStarts(en, rs, Executed(en, loop.body), i, r.outputs, loop.edge, Iteration(en, r, loop, i).Ok?);
  }

  lemma TraceStarts(
    en: Engine, rs: seq<Run>, ns: seq<string>, iteration: nat, begun: map<string, Ports>, e: Edge, ok: bool)
    requires Known(en, ns) && Trace(en, rs, ns, iteration, begun, e, ok)
    ensures rs != []
  {
  }

  // ---------- One loop ----------

  /** The back-edge's condition on its source's outputs, if it has any, and the state. */
  ghost predicate Condition(conds: Conditions, r: Run, e: Edge, answer: Option<bool>) {
    conds(e.id, if e.source in r.outputs then Some(r.outputs[e.source]) else None, r.state) == answer
  }

  /** rs are runs between iterations, the first of them number i: the condition held before each, and each went well. */
  ghost predicate Iterated(en: Engine, conds: Conditions, loop: Loop, i: nat, rs: seq<Run>)
    requires Known(en, loop.body)
  {
    rs != [] && forall k: nat, m: nat :: m == k + 1 && m < |rs| ==> IteratesTo(en, conds, loop, i + k, rs[k], rs[m])
  }

  ghost predicate IteratesTo(en: Engine, conds: Conditions, loop: Loop, i: nat, r: Run, r': Run)
    requires Known(en, loop.body)
  {
    Condition(conds, r, loop.edge, Some(true)) && Iteration(en, r, loop, i) == Ok(r')
  }

  /** After n iterations a loop ends well when the limit is reached or the condition is false, and fails when either fails. */
  ghost predicate Ended(en: Engine, conds: Conditions, loop: Loop, n: nat, last: Run, out: Result)
    requires Known(en, loop.body)
  {
    if out.Ok? then out.run == last && (n == loop.maxIter || Condition(conds, last, loop.edge, Some(false)))
    else
      n < loop.maxIter &&
      ((Condition(conds, last, loop.edge, None) && out.run == last) ||
       (Condition(conds, last, loop.edge, Some(true)) && Iteration(en, last, loop, n + 1) == Err(out.run)))
  }

  /** A loop iterates while its condition holds and its limit allows. */
  lemma IterationsMean(en: Engine, conds: Conditions, r: Run, loop: Loop) returns (rs: seq<Run>)
    requires Known(en, loop.body)
    ensures Iterated(en, conds, loop, 1, rs) && rs[0] == r && |rs| - 1 <= loop.maxIter
    ensures Ended(en, conds, loop, |rs| - 1, rs[|rs| - 1], LoopFrom(en, conds, r, loop, 1))
  {
    rs := IterationsFrom(en, conds, r, loop, 1);
  }

  lemma {:induction false} IterationsFrom(en: Engine, conds: Conditions, r: Run, loop: Loop, i: nat) returns (rs: seq<Run>)
    requires Known(en, loop.body) && 1 <= i <= loop.maxIter + 1
    ensures rs != [] && Iterated(en, conds, loop, i, rs) && rs[0] == r && i + |rs| - 2 <= loop.maxIter
    ensures Ended(en, conds, loop, i + |rs| - 2, rs[|rs| - 1], LoopFrom(en, conds, r, loop, i))
    decreases loop.maxIter + 1 - i
  {
    hide Iteration, Iterated;
    rs := [r];
    NoneIterated(en, conds, loop, i, r);
    if i <= loop.maxIter && Condition(conds, r, loop.edge, Some(true)) {
      var first := Iteration(en, r, loop, i);
      if first.Ok? {
        var rest := IterationsFrom(en, conds, first.run, loop, i + 1);
        OneMoreIterated(en, conds, loop, i, r, rest);
        rs := [r] + rest;
        assert rs[|rs| - 1] == rest[|rest| - 1] && i + |rs| - 2 == (i + 1) + |rest| - 2;
      }
    }
  }

  lemma NoneIterated(en: Engine, conds: Conditions, loop: Loop, i: nat, r: Run)
    requires Known(en, loop.body)
    ensures Iterated(en, conds, loop, i, [r])
  {
  }

  lemma OneMoreIterated(en: Engine, conds: Conditions, loop: Loop, i: nat, r: Run, rest: seq<Run>)
    requires Known(en, loop.body) && Iterated(en, conds, loop, i + 1, rest) && IteratesTo(en, conds, loop, i, r, rest[0])
    ensures Iterated(en, conds, loop, i, [r] + rest)
  {
    hide IteratesTo;
    var rs := [r] + rest;
    forall k: nat, m: nat | m == k + 1 && m < |rs| ensures IteratesTo(en, conds, loop, i + k, rs[k], rs[m]) {
      if k == 0 {
        assert rs[m] == rest[0];
      } else {
        var k', m' := k - 1, m - 1;
        assert IteratesTo(en, conds, loop, (i + 1) + k', rest[k'], rest[m']);
        assert (i + 1) + k' == i + k;
      }
    }
  }

  /** What lies downstream runs after the iterations iff they ended well and there was at least one. */
  lemma LoopMeans(en: Engine, conds: Conditions, r: Run, loop: Loop)
    requires Known(en, loop.body) && Known(en, loop.downstream)
    ensures var looped := LoopFrom(en, conds, r, loop, 1);
            RunLoop(en, conds, r, loop) ==
            if looped.Ok? && loop.maxIter >= 1 && Condition(conds, r, loop.edge, Some(true))
            then RunDownstream(en, looped.run, loop.downstream) else looped
  {
    hide LoopFrom, RunDownstream;
  }

  /** Downstream nodes run once each, in order, input nodes among them, on what their ports hold, until one fails. */
  lemma {:induction false} DownstreamMeans(en: Engine, r: Run, ns: seq<string>) returns (rs: seq<Run>)
    requires Known(en, ns)
    ensures rs != [] && rs[0] == r && rs[|rs| - 1] == RunDownstream(en, r, ns).run
    ensures var ok := RunDownstream(en, r, ns).Ok?;
            && (if ok then |rs| == |ns| + 1 else 2 <= |rs| <= |ns| + 1)
            && (forall k: nat, m: nat :: m == k + 1 && m < |rs| && (ok || m < |rs| - 1) ==> NodeRan(en, rs[k], rs[m], ns[k], 0, map[]))
            && (!ok ==> NodeFailed(en, rs[|rs| - 2], rs[|rs| - 1], ns[|rs| - 2], 0, map[]))
  {
    hide NodeRan, NodeFailed, RunNode;
    if ns == [] {
      rs := [r];
    } else {
      var rest, n := ns[..|ns| - 1], ns[|ns| - 1];
      rs := DownstreamMeans(en, r, rest);
      var before := RunDownstream(en, r, rest);
      if before.Ok? {
        NodeMeans(en, before.run, n, 0, None, map[]);
        var rs' := rs + [RunNode(en, before.run, n, 0, None).run];
        var ok := RunNode(en, before.run, n, 0, None).Ok?;
        forall k: nat, m: nat | m == k + 1 && m < |rs'| && (ok || m < |rs'| - 1)
          ensures NodeRan(en, rs'[k], rs'[m], ns[k], 0, map[])
        {
          if m < |rs| {
            assert NodeRan(en, rs[k], rs[m], rest[k], 0, map[]);
          }
        }
        rs := rs';
      }
    }
  }
}
