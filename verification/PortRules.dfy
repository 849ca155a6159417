/** What node inputs and state writes amount to. */
module PortRules {
  import opened Options
  import opened Graphs

  // Said over the graph's edges and the node's own lists, port by port and field by field.

  /** A forward edge into port p of n whose source holds its source port. */
  ghost predicate Carries(e: Edge, n: string, p: string, outputs: map<string, Ports>) {
    e.target == n && e.targetPort == p && !e.back && e.source in outputs && e.sourcePort in outputs[e.source]
  }

  /** The last edge that carries something to p is edges[i]. */
  ghost predicate LastEdge(edges: seq<Edge>, i: nat, n: string, p: string, outputs: map<string, Ports>) {
    i < |edges| && Carries(edges[i], n, p, outputs) && forall j :: i < j < |edges| ==> !Carries(edges[j], n, p, outputs)
  }

  ghost predicate NoEdge(edges: seq<Edge>, n: string, p: string, outputs: map<string, Ports>) {
    forall j :: 0 <= j < |edges| ==> !Carries(edges[j], n, p, outputs)
  }

  /** The last state read on p whose field is present is bindings[i]. */
  ghost predicate LastRead(bindings: seq<Binding>, i: nat, p: string, state: Ports) {
    i < |bindings| && bindings[i].port == p && bindings[i].field in state &&
    forall j :: i < j < |bindings| ==> !(bindings[j].port == p && bindings[j].field in state)
  }

  ghost predicate NoRead(bindings: seq<Binding>, p: string, state: Ports) {
    forall j :: 0 <= j < |bindings| ==> !(bindings[j].port == p && bindings[j].field in state)
  }

  /** The last default declared for p is that of ports[i]. */
  ghost predicate LastDefault(ports: seq<Port>, i: nat, p: string) {
    i < |ports| && ports[i].name == p && ports[i].default.Some? &&
    forall j :: i < j < |ports| ==> !(ports[j].name == p && ports[j].default.Some?)
  }

  ghost predicate NoDefault(ports: seq<Port>, p: string) {
    forall j :: 0 <= j < |ports| ==> !(ports[j].name == p && ports[j].default.Some?)
  }

  ghost predicate Holds(inputs: Ports, p: string, v: Value) {
    p in inputs && inputs[p] == v
  }

  /** Edges before state reads before defaults; of each the last; and nothing else. */
  ghost predicate PortGiven(
    node: Node, edges: seq<Edge>, outputs: map<string, Ports>, state: Ports, inputs: Ports, p: string)
  {
    && (forall i: nat :: LastEdge(edges, i, node.id, p, outputs) ==>
          Holds(inputs, p, outputs[edges[i].source][edges[i].sourcePort]))
    && (NoEdge(edges, node.id, p, outputs) ==>
          && (forall i: nat :: LastRead(node.stateReads, i, p, state) ==> Holds(inputs, p, state[node.stateReads[i].field]))
          && (NoRead(node.stateReads, p, state) ==>
                && (forall i: nat :: LastDefault(node.inputs, i, p) ==> Holds(inputs, p, node.inputs[i].default.value))
                && (NoDefault(node.inputs, p) ==> p !in inputs)))
  }

  /** One of the cases applies: what arrives last, or nothing does. */
  lemma {:induction false} SomeEdgeLast(edges: seq<Edge>, n: string, p: string, outputs: map<string, Ports>)
    ensures NoEdge(edges, n, p, outputs) || exists i: nat :: LastEdge(edges, i, n, p, outputs)
  {
    if edges != [] {
      var k := |edges| - 1;
      if Carries(edges[k], n, p, outputs) {
        assert LastEdge(edges, k, n, p, outputs);
      } else {
        SomeEdgeLast(edges[..k], n, p, outputs);
        if i: nat :| LastEdge(edges[..k], i, n, p, outputs) {
          assert LastEdge(edges, i, n, p, outputs);
        }
      }
    }
  }

  lemma {:induction false} SomeReadLast(bindings: seq<Binding>, p: string, state: Ports)
    ensures NoRead(bindings, p, state) || exists i: nat :: LastRead(bindings, i, p, state)
  {
    if bindings != [] {
      var k := |bindings| - 1;
      if bindings[k].port == p && bindings[k].field in state {
        assert LastRead(bindings, k, p, state);
      } else {
        SomeReadLast(bindings[..k], p, state);
        if i: nat :| LastRead(bindings[..k], i, p, state) {
          assert LastRead(bindings, i, p, state);
        }
      }
    }
  }

  lemma {:induction false} SomeDefaultLast(ports: seq<Port>, p: string)
    ensures NoDefault(ports, p) || exists i: nat :: LastDefault(ports, i, p)
  {
    if ports != [] {
      var k := |ports| - 1;
      if ports[k].name == p && ports[k].default.Some? {
        assert LastDefault(ports, k, p);
      } else {
        SomeDefaultLast(ports[..k], p);
        if i: nat :| LastDefault(ports[..k], i, p) {
          assert LastDefault(ports, i, p);
        }
      }
    }
  }

  /** So the rules leave no choice. */
  lemma PortDetermined(
    node: Node, edges: seq<Edge>, outputs: map<string, Ports>, state: Ports, a: Ports, b: Ports, p: string)
    requires PortGiven(node, edges, outputs, state, a, p) && PortGiven(node, edges, outputs, state, b, p)
    ensures (p in a <==> p in b) && (p in a ==> a[p] == b[p])
  {
    hide LastEdge, NoEdge, LastRead, NoRead, LastDefault, NoDefault;
    SomeEdgeLast(edges, node.id, p, outputs);
    SomeReadLast(node.stateReads, p, state);
    SomeDefaultLast(node.inputs, p);
  }

  // ---------- State writes ----------

  /** What the bindings write to f, in order. */
  ghost function GivenTo(writes: seq<Binding>, outputs: Ports, f: string): seq<Value> {
    if writes == [] then []
    else
      var w := writes[|writes| - 1];
      GivenTo(writes[..|writes| - 1], outputs, f) + if w.field == f && w.port in outputs then [outputs[w.port]] else []
  }

  /**
   * The field after these values were written to it: an array grows by them at its end; any other value is replaced,
   * until one of them is an array, which then grows by the rest.
   */
  ghost predicate FieldGiven(state: Ports, vs: seq<Value>, f: string, state': Ports) {
    && (vs == [] ==> (f in state' <==> f in state) && (f in state ==> state'[f] == state[f]))
    && (vs != [] && f in state && state[f].Array? ==> Holds(state', f, Array(state[f].items + vs)))
    && (vs != [] && !(f in state && state[f].Array?) ==>
          && (forall i: nat :: FirstArray(vs, i) ==> Holds(state', f, if i == |vs| - 1 then vs[i] else Array(vs[i].items + vs[i + 1..])))
          && ((forall i :: 0 <= i < |vs| ==> !vs[i].Array?) ==> Holds(state', f, vs[|vs| - 1])))
  }

  ghost predicate FirstArray(vs: seq<Value>, i: nat) {
    i < |vs| && vs[i].Array? && forall j :: 0 <= j < i ==> !vs[j].Array?
  }
}
