/** What validation accepts. */
module Validation {
  import opened Graphs

  // The checks that Execute and the worker make before anything runs, as far as a graph of the model has what they look
  // at: schemas, configurations, node names and condition texts are not part of it, and every input port is required.

  ghost predicate HasInput(n: Node, port: string) {
    exists p :: p in n.inputs && p.name == port
  }

  ghost predicate WellFormedNode(n: Node) {
    && n.id != ""
    && (forall p :: p in n.inputs ==> p.name != "")
    && (forall i, j :: 0 <= i < j < |n.inputs| ==> n.inputs[i].name != n.inputs[j].name)
    && "" !in n.outputs && Distinct(n.outputs)
    && (forall b :: b in n.stateReads ==> HasInput(n, b.port))
    && (forall b :: b in n.stateWrites ==> b.port in n.outputs)
  }

  /** Endpoints and both ports exist; only back-edges may lead to their source; back-edges have a limit. */
  ghost predicate WellFormedEdge(g: Graph, e: Edge) {
    && e.id != ""
    && (exists n :: n in g.nodes && n.id == e.source && e.sourcePort in n.outputs)
    && (exists n :: n in g.nodes && n.id == e.target && HasInput(n, e.targetPort))
    && (e.source == e.target ==> e.back)
    && (e.back ==> e.maxIterations.Some? && e.maxIterations.value > 0)
  }

  /** An edge, a state read or a default gives the port a value. */
  ghost predicate Wired(g: Graph, n: Node, p: Port) {
    || p.default.Some?
    || (exists e :: e in g.edges && e.target == n.id && e.targetPort == p.name)
    || (exists b :: b in n.stateReads && b.port == p.name)
  }

  ghost predicate Accepts(g: Graph) {
    && Valid(g) && !Cyclic(g)
    && (exists n :: n in g.nodes && n.kind == Input)
    && (forall n :: n in g.nodes ==> WellFormedNode(n))
    && (forall e :: e in g.edges ==> WellFormedEdge(g, e))
    && (forall n, p :: n in g.nodes && n.kind != Input && p in n.inputs ==> Wired(g, n, p))
  }
}
