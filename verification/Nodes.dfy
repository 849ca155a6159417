/** Running one node. */
module NodeRuns {
  import opened Options
  import opened Graphs
  import opened Skips
  import opened PortRules

  // Port resolution, state writes, and the executors as uninterpreted functions.

  /**
   * Executors seen from the scheduler: a function of the node, its resolved inputs and the state fields
   * the node looks at. None is an execution error.
   */
  datatype Engine = Engine(g: Graph, exec: (string, Ports, Ports) -> Option<Ports>, looks: string -> set<string>)

  ghost function NodeOf(g: Graph, id: string): (n: Node)
    requires id in Ids(g)
    ensures n in g.nodes && n.id == id
  {
    var n :| n in g.nodes && n.id == id;
    n
  }

  // ---------- resolveInputs ----------

  function Defaults(ports: seq<Port>): Ports {
    if ports == [] then map[]
    else
      var p := ports[|ports| - 1];
      var before := Defaults(ports[..|ports| - 1]);
      if p.default.Some? then before[p.name := p.default.value] else before
  }

  function WithReads(inputs: Ports, stateReads: seq<Binding>, state: Ports): Ports {
    if stateReads == [] then inputs
    else
      var b := stateReads[|stateReads| - 1];
      var before := WithReads(inputs, stateReads[..|stateReads| - 1], state);
      if b.field in state then before[b.port := state[b.field]] else before
  }

  function WithEdges(inputs: Ports, incoming: seq<Edge>, outputs: map<string, Ports>): Ports {
    if incoming == [] then inputs
    else
      var e := incoming[|incoming| - 1];
      var before := WithEdges(inputs, incoming[..|incoming| - 1], outputs);
      if !e.back && e.source in outputs && e.sourcePort in outputs[e.source]
      then before[e.targetPort := outputs[e.source][e.sourcePort]]
      else before
  }

  /** Defaults, overridden by state reads, overridden by forward edges. */
  function Resolve(node: Node, outputs: map<string, Ports>, incoming: seq<Edge>, state: Ports): Ports {
    WithEdges(WithReads(Defaults(node.inputs), node.stateReads, state), incoming, outputs)
  }

  method ResolveInputs(node: Node, nodeOutputs: map<string, Ports>, incoming: seq<Edge>, state: Ports) returns (inputs: Ports)
    ensures inputs == Resolve(node, nodeOutputs, incoming, state)
    ensures forall edges, p :: incoming == EdgesInto(edges, node.id) ==> PortGiven(node, edges, nodeOutputs, state, inputs, p)
  {
    inputs := map[];
    for i := 0 to |node.inputs|
      invariant inputs == Defaults(node.inputs[..i])
    {
      assert node.inputs[..i + 1][..i] == node.inputs[..i];
      if node.inputs[i].default.Some? {
        inputs := inputs[node.inputs[i].name := node.inputs[i].default.value];
      }
    }
    assert node.inputs[..|node.inputs|] == node.inputs;
    ghost var defaults := inputs;
    for i := 0 to |node.stateReads|
      invariant inputs == WithReads(defaults, node.stateReads[..i], state)
    {
      var sr := node.stateReads[i];
      assert node.stateReads[..i + 1][..i] == node.stateReads[..i];
      if sr.field in state {
        inputs := inputs[sr.port := state[sr.field]];
      }
    }
    assert node.stateReads[..|node.stateReads|] == node.stateReads;
    ghost var withReads := inputs;
    for i := 0 to |incoming|
      invariant inputs == WithEdges(withReads, incoming[..i], nodeOutputs)
    {
      var edge := incoming[i];
      assert incoming[..i + 1][..i] == incoming[..i];
      if edge.back || edge.source !in nodeOutputs {
        continue;
      }
      var srcOutputs := nodeOutputs[edge.source];
      if edge.sourcePort in srcOutputs {
        inputs := inputs[edge.targetPort := srcOutputs[edge.sourcePort]];
      }
    }
    assert incoming[..|incoming|] == incoming;
    forall edges, p | incoming == EdgesInto(edges, node.id) ensures PortGiven(node, edges, nodeOutputs, state, inputs, p) {
      ResolvedPort(node, edges, nodeOutputs, state, p);
    }
  }

  // ---------- Which value a port gets ----------

  lemma LastEdgeMore(edges: seq<Edge>, n: string, p: string, outputs: map<string, Ports>)
    requires edges != []
    ensures var k := |edges| - 1;
            && (NoEdge(edges, n, p, outputs) <==> NoEdge(edges[..k], n, p, outputs) && !Carries(edges[k], n, p, outputs))
            && forall i: nat :: LastEdge(edges, i, n, p, outputs) <==>
                 if Carries(edges[k], n, p, outputs) then i == k else LastEdge(edges[..k], i, n, p, outputs)
  {
    hide Carries;
  }

  lemma {:induction false} EdgesArrive(inputs: Ports, edges: seq<Edge>, n: string, outputs: map<string, Ports>, p: string)
    ensures var r := WithEdges(inputs, EdgesInto(edges, n), outputs);
            && (forall i: nat :: LastEdge(edges, i, n, p, outputs) ==> Holds(r, p, outputs[edges[i].source][edges[i].sourcePort]))
            && (NoEdge(edges, n, p, outputs) ==> SameField(r, inputs, p))
  {
    if edges != [] {
      var k := |edges| - 1;
      EdgesArrive(inputs, edges[..k], n, outputs, p);
      OneMoreEdge(inputs, edges, n, outputs);
      LastEdgeMore(edges, n, p, outputs);
      hide EdgesInto, WithEdges, LastEdge, NoEdge;
      forall i: nat | LastEdge(edges, i, n, p, outputs)
        ensures Holds(WithEdges(inputs, EdgesInto(edges, n), outputs), p, outputs[edges[i].source][edges[i].sourcePort])
      {
        LastEdgeCarries(edges, i, n, p, outputs);
      }
    }
  }

  lemma LastEdgeCarries(edges: seq<Edge>, i: nat, n: string, p: string, outputs: map<string, Ports>)
    requires LastEdge(edges, i, n, p, outputs)
    ensures i < |edges| && Carries(edges[i], n, p, outputs)
  {
  }

  lemma OneMoreEdge(inputs: Ports, edges: seq<Edge>, n: string, outputs: map<string, Ports>)
    requires edges != []
    ensures var e := edges[|edges| - 1];
            var before := WithEdges(inputs, EdgesInto(edges[..|edges| - 1], n), outputs);
            WithEdges(inputs, EdgesInto(edges, n), outputs) ==
            if e.target == n && !e.back && e.source in outputs && e.sourcePort in outputs[e.source]
            then before[e.targetPort := outputs[e.source][e.sourcePort]] else before
  {
    hide EdgesInto;
    IntoMore(edges, n);
    var e, into := edges[|edges| - 1], EdgesInto(edges[..|edges| - 1], n);
    if e.target == n {
      assert (into + [e])[|into|] == e;
    } else {
      assert into + [] == into;
    }
  }

  lemma IntoMore(edges: seq<Edge>, n: string)
    requires edges != []
    ensures var e, before := edges[|edges| - 1], EdgesInto(edges[..|edges| - 1], n);
            && EdgesInto(edges, n) == before + (if e.target == n then [e] else [])
            && (e.target == n ==> EdgesInto(edges, n)[..|before|] == before)
  {
  }

  lemma LastReadMore(bindings: seq<Binding>, p: string, state: Ports)
    requires bindings != []
    ensures var k := |bindings| - 1;
            var hit := bindings[k].port == p && bindings[k].field in state;
            && (NoRead(bindings, p, state) <==> NoRead(bindings[..k], p, state) && !hit)
            && forall i: nat :: LastRead(bindings, i, p, state) <==> if hit then i == k else LastRead(bindings[..k], i, p, state)
  {
  }

  lemma LastReadReads(bindings: seq<Binding>, i: nat, p: string, state: Ports)
    requires LastRead(bindings, i, p, state)
    ensures i < |bindings| && bindings[i].field in state
  {
  }

  lemma {:induction false} ReadsArrive(inputs: Ports, bindings: seq<Binding>, state: Ports, p: string)
    ensures var r := WithReads(inputs, bindings, state);
            && (forall i: nat :: LastRead(bindings, i, p, state) ==> Holds(r, p, state[bindings[i].field]))
            && (NoRead(bindings, p, state) ==> SameField(r, inputs, p))
  {
    if bindings != [] {
      ReadsArrive(inputs, bindings[..|bindings| - 1], state, p);
      LastReadMore(bindings, p, state);
      hide LastRead, NoRead;
      forall i: nat | LastRead(bindings, i, p, state)
        ensures Holds(WithReads(inputs, bindings, state), p, state[bindings[i].field])
      {
        LastReadReads(bindings, i, p, state);
      }
    }
  }

  lemma LastDefaultMore(ports: seq<Port>, p: string)
    requires ports != []
    ensures var k := |ports| - 1;
            var hit := ports[k].name == p && ports[k].default.Some?;
            && (NoDefault(ports, p) <==> NoDefault(ports[..k], p) && !hit)
            && forall i: nat :: LastDefault(ports, i, p) <==> if hit then i == k else LastDefault(ports[..k], i, p)
  {
  }

  lemma LastDefaultDeclared(ports: seq<Port>, i: nat, p: string)
    requires LastDefault(ports, i, p)
    ensures i < |ports| && ports[i].default.Some?
  {
  }

  lemma {:induction false} DefaultsArrive(ports: seq<Port>, p: string)
    ensures var r := Defaults(ports);
            && (forall i: nat :: LastDefault(ports, i, p) ==> Holds(r, p, ports[i].default.value))
            && (NoDefault(ports, p) ==> p !in r)
  {
    if ports != [] {
      DefaultsArrive(ports[..|ports| - 1], p);
      LastDefaultMore(ports, p);
      hide LastDefault, NoDefault;
      forall i: nat | LastDefault(ports, i, p) ensures Holds(Defaults(ports), p, ports[i].default.value) {
        LastDefaultDeclared(ports, i, p);
      }
    }
  }

  /** Every port of a node: the last forward edge that carries something, else the last state read, else the default. */
  lemma ResolvedPort(node: Node, edges: seq<Edge>, outputs: map<string, Ports>, state: Ports, p: string)
    ensures PortGiven(node, edges, outputs, state, Resolve(node, outputs, EdgesInto(edges, node.id), state), p)
  {
    hide WithEdges, WithReads, Defaults, EdgesInto;
    DefaultsArrive(node.inputs, p);
    ReadsArrive(Defaults(node.inputs), node.stateReads, state, p);
    EdgesArrive(WithReads(Defaults(node.inputs), node.stateReads, state), edges, node.id, outputs, p);
  }

  // ---------- applyStateWrites ----------

  /** An array field is appended to, any other field replaced. */
  function Reduce(state: Ports, field: string, val: Value): Value {
    if field in state && state[field].Array? then Array(state[field].items + [val]) else val
  }

  function Written(writes: seq<Binding>, outputs: Ports, state: Ports): Ports {
    if writes == [] then state
    else
      var w := writes[|writes| - 1];
      var before := Written(writes[..|writes| - 1], outputs, state);
      if w.port in outputs then before[w.field := Reduce(before, w.field, outputs[w.port])] else before
  }

  method ApplyStateWrites(writes: seq<Binding>, outputs: Ports, state: Ports) returns (state': Ports)
    ensures state' == Written(writes, outputs, state)
    ensures forall f :: FieldGiven(state, GivenTo(writes, outputs, f), f, state')
  {
    state' := state;
    for i := 0 to |writes|
      invariant state' == Written(writes[..i], outputs, state)
    {
      var sw := writes[i];
      assert writes[..i + 1][..i] == writes[..i];
      if sw.port !in outputs {
        continue;
      }
      state' := state'[sw.field := Reduce(state', sw.field, outputs[sw.port])];
    }
    assert writes[..|writes|] == writes;
    forall f ensures FieldGiven(state, GivenTo(writes, outputs, f), f, state') {
      WrittenField(writes, outputs, state, f);
    }
  }

  /** Every field after the writes, in closed form. */
  lemma {:induction false} WrittenField(writes: seq<Binding>, outputs: Ports, state: Ports, f: string)
    ensures FieldGiven(state, GivenTo(writes, outputs, f), f, Written(writes, outputs, state))
  {
    hide FieldGiven, Reduce;
    if writes == [] {
      NothingGiven(state, f);
    } else {
      var k := |writes| - 1;
      WrittenField(writes[..k], outputs, state, f);
      if writes[k].field == f && writes[k].port in outputs {
        FieldGivenMore(state, GivenTo(writes[..k], outputs, f), f, Written(writes[..k], outputs, state), outputs[writes[k].port]);
      } else {
        assert GivenTo(writes, outputs, f) == GivenTo(writes[..k], outputs, f);
        SameFieldGiven(state, GivenTo(writes[..k], outputs, f), f, Written(writes[..k], outputs, state), Written(writes, outputs, state));
      }
    }
  }

  lemma NothingGiven(state: Ports, f: string)
    ensures FieldGiven(state, [], f, state)
  {
  }

  lemma SameFieldGiven(state: Ports, vs: seq<Value>, f: string, a: Ports, b: Ports)
    requires FieldGiven(state, vs, f, a) && SameField(a, b, f)
    ensures FieldGiven(state, vs, f, b)
  {
  }

  lemma FirstArrayMore(vs: seq<Value>, v: Value)
    ensures forall i: nat :: FirstArray(vs + [v], i) <==>
              if i < |vs| then FirstArray(vs, i)
              else i == |vs| && v.Array? && forall j :: 0 <= j < |vs| ==> !vs[j].Array?
  {
    assert forall j :: 0 <= j < |vs| ==> (vs + [v])[j] == vs[j];
  }

  lemma {:induction false} SomeArrayFirst(vs: seq<Value>)
    ensures (exists i: nat :: FirstArray(vs, i)) || forall j :: 0 <= j < |vs| ==> !vs[j].Array?
  {
    if vs != [] {
      var k := |vs| - 1;
      SomeArrayFirst(vs[..k]);
      FirstArrayMore(vs[..k], vs[k]);
      assert vs[..k] + [vs[k]] == vs;
      if i: nat :| FirstArray(vs[..k], i) {
        assert FirstArray(vs, i);
      } else if vs[k].Array? {
        assert FirstArray(vs, k);
      }
    }
  }

  lemma FieldGivenMore(state: Ports, vs: seq<Value>, f: string, state1: Ports, v: Value)
    requires FieldGiven(state, vs, f, state1)
    ensures FieldGiven(state, vs + [v], f, state1[f := Reduce(state1, f, v)])
  {
    var more, state2 := vs + [v], state1[f := Reduce(state1, f, v)];
    if f in state && state[f].Array? {
      assert state[f].items + vs + [v] == state[f].items + more;
      assert vs == [] ==> more == [v];
    } else {
      FirstArrayMore(vs, v);
      SomeArrayFirst(vs);
      if i: nat :| FirstArray(vs, i) {
        GrowsOn(vs, i, v);
      }
      forall i: nat | FirstArray(more, i)
        ensures Holds(state2, f, if i == |more| - 1 then more[i] else Array(more[i].items + more[i + 1..]))
      {
        if i < |vs| {
          GrowsOn(vs, i, v);
        }
      }
    }
  }

  lemma GrowsOn(vs: seq<Value>, i: nat, v: Value)
    requires FirstArray(vs, i)
    ensures var more := vs + [v];
            && (if i == |vs| - 1 then vs[i] else Array(vs[i].items + vs[i + 1..])).items + [v] == more[i].items + more[i + 1..]
            && (more[|more| - 1] == v)
  {
    var more := vs + [v];
    assert more[i] == vs[i] && more[i + 1..] == vs[i + 1..] + [v];
    if i < |vs| - 1 {
      assert vs[i].items + vs[i + 1..] + [v] == vs[i].items + (vs[i + 1..] + [v]);
    } else {
      assert more[i + 1..] == [v];
    }
  }

  // ---------- What these depend on ----------

  /** Both states agree on one field. */
  ghost predicate SameField(a: Ports, b: Ports, f: string) {
    (f in a <==> f in b) && (f in a ==> a[f] == b[f])
  }

  ghost function Fields(bindings: seq<Binding>): set<string> {
    set b | b in bindings :: b.field
  }

  function Restrict(state: Ports, fields: set<string>): Ports {
    map f | f in state && f in fields :: state[f]
  }

  lemma {:induction false} WrittenIsLocal(writes: seq<Binding>, outputs: Ports, a: Ports, b: Ports, f: string)
    ensures SameField(a, b, f) ==> SameField(Written(writes, outputs, a), Written(writes, outputs, b), f)
    ensures f !in Fields(writes) ==> SameField(Written(writes, outputs, a), a, f)
  {
    if writes != [] {
      WrittenIsLocal(writes[..|writes| - 1], outputs, a, b, f);
      assert writes[|writes| - 1] in writes;
      assert forall w :: w in writes[..|writes| - 1] ==> w in writes;
    }
  }

  lemma {:induction false} ReadsAreLocal(inputs: Ports, stateReads: seq<Binding>, a: Ports, b: Ports)
    requires forall f :: f in Fields(stateReads) ==> SameField(a, b, f)
    ensures WithReads(inputs, stateReads, a) == WithReads(inputs, stateReads, b)
  {
    if stateReads != [] {
      assert forall w :: w in stateReads[..|stateReads| - 1] ==> w in stateReads;
      ReadsAreLocal(inputs, stateReads[..|stateReads| - 1], a, b);
      assert stateReads[|stateReads| - 1].field in Fields(stateReads);
    }
  }

  /** Both output maps agree on one node. */
  ghost predicate SameNode(a: map<string, Ports>, b: map<string, Ports>, n: string) {
    (n in a <==> n in b) && (n in a ==> a[n] == b[n])
  }

  lemma {:induction false} EdgesAreLocal(inputs: Ports, incoming: seq<Edge>, a: map<string, Ports>, b: map<string, Ports>)
    requires forall e :: e in incoming && !e.back ==> SameNode(a, b, e.source)
    ensures WithEdges(inputs, incoming, a) == WithEdges(inputs, incoming, b)
  {
    if incoming != [] {
      assert forall e :: e in incoming[..|incoming| - 1] ==> e in incoming;
      EdgesAreLocal(inputs, incoming[..|incoming| - 1], a, b);
      assert incoming[|incoming| - 1] in incoming;
    }
  }

  /** A node's inputs depend only on its forward predecessors' outputs and the state fields it reads. */
  lemma ResolveIsLocal(g: Graph, node: Node, a: map<string, Ports>, b: map<string, Ports>, s: Ports, t: Ports)
    requires forall u :: Arc(g, u, node.id) ==> SameNode(a, b, u)
    requires forall f :: f in Fields(node.stateReads) ==> SameField(s, t, f)
    ensures Resolve(node, a, EdgesInto(g.edges, node.id), s) == Resolve(node, b, EdgesInto(g.edges, node.id), t)
  {
    EdgesIntoMeaning(g.edges, node.id);
    ReadsAreLocal(Defaults(node.inputs), node.stateReads, s, t);
    forall e | e in EdgesInto(g.edges, node.id) && !e.back ensures SameNode(a, b, e.source) {
      assert Arc(g, e.source, node.id);
    }
    EdgesAreLocal(WithReads(Defaults(node.inputs), node.stateReads, s), EdgesInto(g.edges, node.id), a, b);
  }
}
