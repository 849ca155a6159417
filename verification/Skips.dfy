/** Skip propagation is a least fixpoint. */
module Skips {
  import opened Graphs

  // An untaken conditional branch marks edges dead, and markSkipped re-enters itself through out-edges. Its result is
  // the least set closed under one rule, whatever the order of calls.

  /** Edge IDs identify edges; validation only rejects empty ones. */
  ghost predicate UniqueEdges(g: Graph) {
    forall e, f :: e in g.edges && f in g.edges && e.id == f.id ==> e == f
  }

  /** The edge carries nothing: marked dead by a conditional, or leaving a skipped node. */
  ghost predicate Lifeless(cut: set<string>, skipped: set<string>, e: Edge) {
    e.id in cut || e.source in skipped
  }

  /** Some edge into n (a back-edge counts) is lifeless, so markSkipped is called on n. */
  ghost predicate Triggered(g: Graph, cut: set<string>, skipped: set<string>, n: string) {
    exists e :: e in g.edges && e.target == n && Lifeless(cut, skipped, e)
  }

  /** Every forward edge into n is lifeless. */
  ghost predicate Starved(g: Graph, cut: set<string>, skipped: set<string>, n: string) {
    forall e :: e in g.edges && !e.back && e.target == n ==> Lifeless(cut, skipped, e)
  }

  /** The skip rule, except at the nodes of `pending` whose calls are still outstanding. */
  ghost predicate ClosedExcept(g: Graph, cut: set<string>, skipped: set<string>, pending: set<string>) {
    forall n :: n in Ids(g) && n !in pending && Triggered(g, cut, skipped, n) && Starved(g, cut, skipped, n) ==> n in skipped
  }

  ghost predicate Closed(g: Graph, cut: set<string>, skipped: set<string>) {
    ClosedExcept(g, cut, skipped, {})
  }

  /** The least closed set: what the cut edges force to be skipped. */
  ghost function Forced(g: Graph, cut: set<string>): set<string> {
    set n | n in Ids(g) && forall s: set<string> :: Closed(g, cut, s) ==> n in s
  }

  lemma MoreSkipped(g: Graph, cut: set<string>, cut': set<string>, s: set<string>, s': set<string>, n: string)
    requires s <= s' && cut <= cut'
    ensures Triggered(g, cut, s, n) ==> Triggered(g, cut', s', n)
    ensures Starved(g, cut, s, n) ==> Starved(g, cut', s', n)
  {
    if Triggered(g, cut, s, n) {
      var e :| e in g.edges && e.target == n && Lifeless(cut, s, e);
      assert Lifeless(cut', s', e);
    }
    assert forall e :: Lifeless(cut, s, e) ==> Lifeless(cut', s', e);
  }

  lemma ForcedIsClosed(g: Graph, cut: set<string>)
    ensures Closed(g, cut, Forced(g, cut))
  {
    var f := Forced(g, cut);
    forall n | n in Ids(g) && Triggered(g, cut, f, n) && Starved(g, cut, f, n) ensures n in f {
      forall s: set<string> | Closed(g, cut, s) ensures n in s {
        MoreSkipped(g, cut, cut, f, s, n);
      }
    }
  }

  /**
   * The rule written out: a node is skipped when some edge into it is cut or leaves a skipped node, and so is or does every
   * forward edge into it.
   */
  ghost predicate SkipRule(g: Graph, cut: set<string>, s: set<string>) {
    forall n ::
      && n in Ids(g)
      && (exists e :: e in g.edges && e.target == n && (e.id in cut || e.source in s))
      && (forall e :: e in g.edges && e.target == n && !e.back ==> e.id in cut || e.source in s)
      ==> n in s
  }

  /** The nodes skipped obey it, and are no more than they have to be. */
  lemma SkipsMean(g: Graph, cut: set<string>)
    ensures SkipRule(g, cut, Forced(g, cut)) && Forced(g, cut) <= Ids(g)
    ensures forall s: set<string> :: SkipRule(g, cut, s) ==> Forced(g, cut) <= s
  {
    hide Forced;
    forall s: set<string> ensures SkipRule(g, cut, s) <==> Closed(g, cut, s) {
      RuleIsClosed(g, cut, s);
    }
    ForcedInside(g, cut);
    ForcedIsClosed(g, cut);
  }

  lemma RuleIsClosed(g: Graph, cut: set<string>, s: set<string>)
    ensures SkipRule(g, cut, s) <==> Closed(g, cut, s)
  {
    forall n ensures (exists e :: e in g.edges && e.target == n && (e.id in cut || e.source in s)) <==> Triggered(g, cut, s, n) {
      if e :| e in g.edges && e.target == n && (e.id in cut || e.source in s) {
        assert Lifeless(cut, s, e);
      }
      if Triggered(g, cut, s, n) {
        var e :| e in g.edges && e.target == n && Lifeless(cut, s, e);
        assert e in g.edges && e.target == n && (e.id in cut || e.source in s);
      }
    }
  }

  lemma ForcedInside(g: Graph, cut: set<string>)
    ensures Forced(g, cut) <= Ids(g) && forall s: set<string> :: Closed(g, cut, s) ==> Forced(g, cut) <= s
  {
  }

  /** A set that is closed and lies inside every closed set is the least one. */
  lemma LeastIsForced(g: Graph, cut: set<string>, s: set<string>)
    requires s <= Ids(g) && Closed(g, cut, s)
    requires forall c: set<string> :: Closed(g, cut, c) ==> s <= c
    ensures s == Forced(g, cut)
  {
    ForcedIsClosed(g, cut);
  }

  lemma ForcedGrows(g: Graph, cut: set<string>, cut': set<string>)
    requires cut <= cut'
    ensures Forced(g, cut) <= Forced(g, cut')
  {
    forall s: set<string> | Closed(g, cut', s) ensures Closed(g, cut, s) {
      forall n | n in Ids(g) && Triggered(g, cut, s, n) && Starved(g, cut, s, n) ensures n in s {
        MoreSkipped(g, cut, cut', s, s, n);
      }
    }
  }

  ghost function LifelessIds(g: Graph, cut: set<string>, skipped: set<string>): set<string> {
    set e | e in g.edges && Lifeless(cut, skipped, e) :: e.id
  }

  /** The edges with a given source or target, in graph order: the maps outEdges and inEdges. */
  function EdgesFrom(edges: seq<Edge>, n: string): seq<Edge> {
    if edges == [] then []
    else
      var e := edges[|edges| - 1];
      EdgesFrom(edges[..|edges| - 1], n) + if e.source == n then [e] else []
  }

  function EdgesInto(edges: seq<Edge>, n: string): seq<Edge> {
    if edges == [] then []
    else
      var e := edges[|edges| - 1];
      EdgesInto(edges[..|edges| - 1], n) + if e.target == n then [e] else []
  }

  lemma {:induction false} EdgesFromMeaning(edges: seq<Edge>, n: string)
    ensures forall e :: e in EdgesFrom(edges, n) <==> e in edges && e.source == n
  {
    if edges != [] {
      EdgesFromMeaning(edges[..|edges| - 1], n);
      assert edges == edges[..|edges| - 1] + [edges[|edges| - 1]];
    }
  }

  lemma {:induction false} EdgesIntoMeaning(edges: seq<Edge>, n: string)
    ensures forall e :: e in EdgesInto(edges, n) <==> e in edges && e.target == n
  {
    if edges != [] {
      EdgesIntoMeaning(edges[..|edges| - 1], n);
      assert edges == edges[..|edges| - 1] + [edges[|edges| - 1]];
    }
  }

  /** Only forced nodes are skipped, and only what was cut or leaves them is dead. */
  ghost predicate Justified(g: Graph, cut: set<string>, skipped: set<string>, dead: set<string>) {
    skipped <= Forced(g, cut) && cut <= dead && dead <= LifelessIds(g, cut, skipped)
  }

  /** Every edge out of these nodes is dead. */
  ghost predicate Marked(g: Graph, ns: set<string>, dead: set<string>) {
    forall e :: e in g.edges && e.source in ns ==> e.id in dead
  }

  /** The shared maps that the mutex guards: `skipped` and `deadEdges`. */
  class SkipTable {
    const g: Graph
    var skipped: set<string>
    var deadEdges: set<string>
    ghost var cut: set<string>  // edges marked dead by a conditional rather than by a skipped source

    constructor (g: Graph)
      requires Valid(g) && UniqueEdges(g)
      ensures this.g == g && cut == {} && Settled()
    {
      this.g := g;
      skipped, deadEdges, cut := {}, {}, {};
      new;
      assert forall n :: !Triggered(g, {}, {}, n) by {
        assert forall e :: !Lifeless({}, {}, e);
      }
      LeastIsForced(g, {}, {});
    }

    /** What holds at every moment, also in the middle of the recursion. */
    ghost predicate Sound()
      reads this
    {
      Valid(g) && UniqueEdges(g) && Justified(g, cut, skipped, deadEdges)
    }

    /** Between calls: exactly the forced nodes are skipped, exactly the lifeless edges are dead. */
    ghost predicate Settled()
      reads this
    {
      && Sound()
      && skipped == Forced(g, cut)
      && deadEdges == LifelessIds(g, cut, skipped)
    }

    /** Out-edges of skipped nodes are marked, except for the nodes on the recursion stack. */
    ghost predicate MarkedExcept(stack: set<string>)
      reads this
    {
      Marked(g, skipped - stack, deadEdges)
    }

    /** Only skip a node when all its non-back-edge in-edges are dead or come from skipped nodes. */
    method HasLiveInput(nodeID: string) returns (live: bool)
      requires Sound()
      ensures live <==> !Starved(g, cut, skipped, nodeID)
    {
      var incoming := EdgesInto(g.edges, nodeID);
      EdgesIntoMeaning(g.edges, nodeID);
      for i := 0 to |incoming|
        invariant forall j :: 0 <= j < i && !incoming[j].back ==> Lifeless(cut, skipped, incoming[j])
      {
        var inEdge := incoming[i];
        assert inEdge in incoming;
        if inEdge.back {
          continue;
        }
        if inEdge.id !in deadEdges && inEdge.source !in skipped {
          return true;
        }
      }
      return false;
    }

    method MarkSkipped(nodeID: string, ghost pending: set<string>, ghost stack: set<string>)
      requires Sound() && nodeID in Ids(g) && Triggered(g, cut, skipped, nodeID)
      requires ClosedExcept(g, cut, skipped, pending + {nodeID}) && MarkedExcept(stack)
      modifies this`skipped, this`deadEdges
      ensures Sound() && old(skipped) <= skipped && old(deadEdges) <= deadEdges
      ensures ClosedExcept(g, cut, skipped, pending) && MarkedExcept(stack)
      decreases |Ids(g) - skipped|
    {
      hide ClosedExcept, Triggered, Starved, Forced, Targets, EdgesFrom, Valid, UniqueEdges, Justified, Marked;
      if nodeID in skipped {
        AlreadySkipped(g, cut, skipped, pending, nodeID);
        return;
      }
      var live := HasLiveInput(nodeID);
      if live {
        StillFed(g, cut, skipped, pending, nodeID);
        return;
      }
      SkipIsForced(g, cut, skipped, deadEdges, nodeID);
      SkipOpens(g, cut, skipped, pending, nodeID);
      ghost var before := skipped;
      JustifiedSkip(g, cut, skipped, deadEdges, nodeID);
      assert skipped + {nodeID} - (stack + {nodeID}) == skipped - stack - {nodeID};
      MarkedLess(g, skipped - stack, skipped - stack - {nodeID}, deadEdges, deadEdges);
      skipped := skipped + {nodeID};
      FewerLeft(g, before, skipped, nodeID);
      var outgoing := EdgesFrom(g.edges, nodeID);
      EdgesFromMeaning(g.edges, nodeID);
      for i := 0 to |outgoing|
        invariant Sound() && before + {nodeID} <= skipped && old(deadEdges) <= deadEdges
        invariant ClosedExcept(g, cut, skipped, pending + Targets(outgoing[i..])) && MarkedExcept(stack + {nodeID})
        invariant forall j :: 0 <= j < i ==> outgoing[j].id in deadEdges
      {
        var edge := outgoing[i];
        assert edge in outgoing;
        JustifiedMark(g, cut, skipped, deadEdges, edge);
        MarkedLess(g, skipped - (stack + {nodeID}), skipped - (stack + {nodeID}), deadEdges, deadEdges + {edge.id});
        deadEdges := deadEdges + {edge.id};
        NextTarget(g, cut, skipped, outgoing, i, pending);
        FewerLeft(g, before, skipped, nodeID);
        MarkSkipped(edge.target, pending + Targets(outgoing[i + 1..]), stack + {nodeID});
      }
      NoTargets();
      assert outgoing[|outgoing|..] == [] && pending + {} == pending;
      MarkedMore(g, skipped - (stack + {nodeID}), skipped - stack, nodeID, deadEdges);
    }

    /** A conditional finished with these outputs: its null ports' edges die, one by one. */
    method PropagateSkips(node: string, outputs: Ports)
      requires Settled()
      modifies this
      ensures Settled() && cut == old(cut) + DeadBranches(g, node, outputs)
      ensures forall id :: id in cut <==> id in old(cut) || NullBranch(g, node, outputs, id)
      ensures old(skipped) <= skipped && old(deadEdges) <= deadEdges
    {
      hide ClosedExcept, Closed, Triggered, Starved, Forced, DeadIds, DeadBranches, EdgesFrom, Valid, UniqueEdges;
      var outgoing := EdgesFrom(g.edges, node);
      EdgesFromMeaning(g.edges, node);
      NoDeadIds(outputs);
      assert outgoing[..0] == [];
      for i := 0 to |outgoing|
        invariant Settled()
        invariant cut == old(cut) + DeadIds(outputs, outgoing[..i])
        invariant old(skipped) <= skipped && old(deadEdges) <= deadEdges
      {
        var edge := outgoing[i];
        assert edge in outgoing;
        NextDeadId(outputs, outgoing, i);
        if Untaken(outputs, edge) {
          MarkBranch(edge);
        }
      }
      assert outgoing[..|outgoing|] == outgoing;
      DeadIdsOfNode(g, node, outputs);
      NullBranches(g, node, outputs);
    }

    /** Mark one edge dead and try to skip its target. */
    method MarkBranch(edge: Edge)
      requires Settled() && edge in g.edges
      modifies this
      ensures Settled() && cut == old(cut) + {edge.id}
      ensures old(skipped) <= skipped && old(deadEdges) <= deadEdges
    {
      hide ClosedExcept, Closed, Triggered, Starved, Forced;
      CutOpens(g, cut, skipped, edge);
      ghost var cut0, skipped0 := cut, skipped;
      cut := cut + {edge.id};
      deadEdges := deadEdges + {edge.id};
      assert {} + {edge.target} == {edge.target};
      MarkSkipped(edge.target, {}, {});
      ClosedAndInside(g, cut, skipped);
    }
  }

  /** An edge with this ID leaves the node at a port without a value. */
  ghost predicate NullBranch(g: Graph, node: string, outputs: Ports, id: string) {
    exists e :: e in g.edges && e.id == id && e.source == node && (e.sourcePort in outputs ==> outputs[e.sourcePort] == Null)
  }

  lemma NullBranches(g: Graph, node: string, outputs: Ports)
    ensures forall id :: id in DeadBranches(g, node, outputs) <==> NullBranch(g, node, outputs, id)
  {
  }

  /** A missing port reads as null in Go. */
  predicate Untaken(outputs: Ports, e: Edge) {
    e.sourcePort !in outputs || outputs[e.sourcePort] == Null
  }

  ghost function DeadIds(outputs: Ports, edges: seq<Edge>): set<string> {
    set e | e in edges && Untaken(outputs, e) :: e.id
  }

  lemma NoDeadIds(outputs: Ports)
    ensures DeadIds(outputs, []) == {}
  {
  }

  lemma NextDeadId(outputs: Ports, edges: seq<Edge>, i: nat)
    requires i < |edges|
    ensures DeadIds(outputs, edges[..i + 1]) == DeadIds(outputs, edges[..i]) + if Untaken(outputs, edges[i]) then {edges[i].id} else {}
  {
    assert edges[..i + 1] == edges[..i] + [edges[i]];
  }

  lemma DeadIdsOfNode(g: Graph, node: string, outputs: Ports)
    ensures DeadIds(outputs, EdgesFrom(g.edges, node)) == DeadBranches(g, node, outputs)
  {
    EdgesFromMeaning(g.edges, node);
  }

  ghost function DeadBranches(g: Graph, node: string, outputs: Ports): set<string> {
    set e | e in g.edges && e.source == node && Untaken(outputs, e) :: e.id
  }

  ghost function Targets(edges: seq<Edge>): set<string> {
    set e | e in edges :: e.target
  }

  lemma NoTargets()
    ensures Targets([]) == {}
  {
  }

  lemma NextTarget(g: Graph, cut: set<string>, skipped: set<string>, outgoing: seq<Edge>, i: nat, pending: set<string>)
    requires Valid(g) && UniqueEdges(g)
    requires i < |outgoing| && outgoing[i] in g.edges && outgoing[i].source in skipped
    ensures pending + Targets(outgoing[i..]) == pending + Targets(outgoing[i + 1..]) + {outgoing[i].target}
    ensures Triggered(g, cut, skipped, outgoing[i].target) && outgoing[i].target in Ids(g)
  {
    assert outgoing[i..] == [outgoing[i]] + outgoing[i + 1..];
    assert Lifeless(cut, skipped, outgoing[i]);
  }

  lemma JustifiedSkip(g: Graph, cut: set<string>, skipped: set<string>, dead: set<string>, n: string)
    requires Justified(g, cut, skipped, dead) && n in Forced(g, cut)
    ensures Justified(g, cut, skipped + {n}, dead)
  {
    hide Forced;
  }

  lemma JustifiedMark(g: Graph, cut: set<string>, skipped: set<string>, dead: set<string>, e: Edge)
    requires Justified(g, cut, skipped, dead) && e in g.edges && e.source in skipped
    ensures Justified(g, cut, skipped, dead + {e.id})
  {
    hide Forced;
    assert Lifeless(cut, skipped, e);
  }

  lemma MarkedLess(g: Graph, more: set<string>, ns: set<string>, dead: set<string>, dead': set<string>)
    requires Marked(g, more, dead) && ns <= more && dead <= dead'
    ensures Marked(g, ns, dead')
  {
  }

  lemma MarkedMore(g: Graph, ns: set<string>, more: set<string>, n: string, dead: set<string>)
    requires Marked(g, ns, dead) && more <= ns + {n}
    requires forall e :: e in EdgesFrom(g.edges, n) ==> e.id in dead
    ensures Marked(g, more, dead)
  {
    EdgesFromMeaning(g.edges, n);
  }

  lemma AlreadySkipped(g: Graph, cut: set<string>, skipped: set<string>, pending: set<string>, n: string)
    requires ClosedExcept(g, cut, skipped, pending + {n}) && n in skipped
    ensures ClosedExcept(g, cut, skipped, pending)
  {
  }

  lemma StillFed(g: Graph, cut: set<string>, skipped: set<string>, pending: set<string>, n: string)
    requires ClosedExcept(g, cut, skipped, pending + {n}) && !Starved(g, cut, skipped, n)
    ensures ClosedExcept(g, cut, skipped, pending)
  {
  }

  lemma FewerLeft(g: Graph, before: set<string>, skipped: set<string>, n: string)
    requires before + {n} <= skipped && n in Ids(g) && n !in before
    ensures |Ids(g) - skipped| < |Ids(g) - before|
  {
    Contained(Ids(g) - skipped, (Ids(g) - before) - {n});
  }

  lemma SkipIsForced(g: Graph, cut: set<string>, skipped: set<string>, dead: set<string>, n: string)
    requires Justified(g, cut, skipped, dead) && n in Ids(g)
    requires Triggered(g, cut, skipped, n) && Starved(g, cut, skipped, n)
    ensures n in Forced(g, cut)
  {
    ForcedIsClosed(g, cut);
    MoreSkipped(g, cut, cut, skipped, Forced(g, cut), n);
  }

  /** Skipping n can only enable the rule at targets of n's out-edges. */
  lemma SkipOpens(g: Graph, cut: set<string>, skipped: set<string>, pending: set<string>, n: string)
    requires ClosedExcept(g, cut, skipped, pending + {n})
    ensures ClosedExcept(g, cut, skipped + {n}, pending + Targets(EdgesFrom(g.edges, n)))
  {
    EdgesFromMeaning(g.edges, n);
    forall m | m in Ids(g) && m !in pending + Targets(EdgesFrom(g.edges, n)) && m != n &&
               Triggered(g, cut, skipped + {n}, m) && Starved(g, cut, skipped + {n}, m)
      ensures m in skipped
    {
      forall e | e in g.edges && e.target == m ensures Lifeless(cut, skipped + {n}, e) <==> Lifeless(cut, skipped, e) {
        if e.source == n {
          assert false;
        }
      }
      assert Triggered(g, cut, skipped, m) && Starved(g, cut, skipped, m);
    }
  }

  /** Cutting one edge can only enable the rule at its target. */
  lemma CutOpens(g: Graph, cut: set<string>, skipped: set<string>, e: Edge)
    requires UniqueEdges(g) && e in g.edges
    requires skipped == Forced(g, cut)
    ensures ClosedExcept(g, cut + {e.id}, skipped, {e.target})
    ensures skipped <= Forced(g, cut + {e.id})
    ensures Triggered(g, cut + {e.id}, skipped, e.target)
  {
    ForcedIsClosed(g, cut);
    ForcedGrows(g, cut, cut + {e.id});
    assert Lifeless(cut + {e.id}, skipped, e);
    forall m | m in Ids(g) && m != e.target &&
               Triggered(g, cut + {e.id}, skipped, m) && Starved(g, cut + {e.id}, skipped, m)
      ensures m in skipped
    {
      forall f | f in g.edges && f.target == m ensures Lifeless(cut + {e.id}, skipped, f) <==> Lifeless(cut, skipped, f) {
      }
      assert Triggered(g, cut, skipped, m) && Starved(g, cut, skipped, m);
    }
  }

  lemma ClosedAndInside(g: Graph, cut: set<string>, skipped: set<string>)
    requires skipped <= Forced(g, cut) && ClosedExcept(g, cut, skipped, {})
    ensures skipped == Forced(g, cut)
  {
    assert Closed(g, cut, skipped);
  }

  // ---------- Back-edges and the skip rule ----------

  ghost predicate Fed(g: Graph, n: string) {
    exists e :: e in g.edges && !e.back && e.target == n
  }

  /** The rule the design intends: skip a node when it has forward in-edges and all of them are lifeless. */
  ghost predicate ClosedForward(g: Graph, cut: set<string>, skipped: set<string>) {
    forall n :: n in Ids(g) && Fed(g, n) && Starved(g, cut, skipped, n) ==> n in skipped
  }

  ghost function ForcedForward(g: Graph, cut: set<string>): set<string> {
    set n | n in Ids(g) && forall s: set<string> :: ClosedForward(g, cut, s) ==> n in s
  }

  lemma ForcedForwardIsClosed(g: Graph, cut: set<string>)
    ensures ClosedForward(g, cut, ForcedForward(g, cut))
  {
    var f := ForcedForward(g, cut);
    forall n | n in Ids(g) && Fed(g, n) && Starved(g, cut, f, n) ensures n in f {
      forall s: set<string> | ClosedForward(g, cut, s) ensures n in s {
        MoreSkipped(g, cut, cut, f, s, n);
      }
    }
  }

  lemma OnlyFedAreForcedForward(g: Graph, cut: set<string>, n: string)
    requires n in ForcedForward(g, cut)
    ensures Fed(g, n) && Starved(g, cut, ForcedForward(g, cut), n)
  {
    var f := ForcedForward(g, cut);
    ForcedForwardIsClosed(g, cut);
    if !(Fed(g, n) && Starved(g, cut, f, n)) {
      forall m | m in Ids(g) && Fed(g, m) && Starved(g, cut, f - {n}, m) ensures m in f - {n} {
        MoreSkipped(g, cut, cut, f - {n}, f, m);
      }
      assert ClosedForward(g, cut, f - {n});
    }
  }

  /** The intended skip set is a fixed point: exactly the fed nodes all of whose forward in-edges are lifeless. */
  lemma ForcedForwardFixedPoint(g: Graph, cut: set<string>, n: string)
    requires n in Ids(g)
    ensures n in ForcedForward(g, cut) <==> Fed(g, n) && Starved(g, cut, ForcedForward(g, cut), n)
  {
    ForcedForwardIsClosed(g, cut);
    if n in ForcedForward(g, cut) {
      OnlyFedAreForcedForward(g, cut, n);
    }
  }

  lemma ForwardRuleInside(g: Graph, cut: set<string>)
    ensures ForcedForward(g, cut) <= Forced(g, cut)
  {
    ForcedIsClosed(g, cut);
    var f := Forced(g, cut);
    forall n | n in Ids(g) && Fed(g, n) && Starved(g, cut, f, n) ensures n in f {
      var e :| e in g.edges && !e.back && e.target == n;
      assert Lifeless(cut, f, e);
    }
    assert ClosedForward(g, cut, f);
  }

  /** A back-edge makes the code skip more than intended in exactly one situation. */
  lemma BackEdgeOverreach(g: Graph, cut: set<string>)
    requires Valid(g)
    ensures Forced(g, cut) != ForcedForward(g, cut) <==>
            exists e :: e in g.edges && e.back && !Fed(g, e.target) && Lifeless(cut, ForcedForward(g, cut), e)
  {
    var f := ForcedForward(g, cut);
    ForwardRuleInside(g, cut);
    ForcedForwardIsClosed(g, cut);
    if e :| e in g.edges && e.back && !Fed(g, e.target) && Lifeless(cut, f, e) {
      ForcedIsClosed(g, cut);
      assert Lifeless(cut, Forced(g, cut), e);
      assert Triggered(g, cut, Forced(g, cut), e.target) && Starved(g, cut, Forced(g, cut), e.target);
      if e.target in f {
        OnlyFedAreForcedForward(g, cut, e.target);
      }
    } else {
      forall n | n in Ids(g) && Triggered(g, cut, f, n) && Starved(g, cut, f, n) ensures n in f {
        var e :| e in g.edges && e.target == n && Lifeless(cut, f, e);
        assert Fed(g, n);
      }
      assert Closed(g, cut, f);
    }
  }

  // ---------- Cuts that conditionals can make ----------

  ghost predicate IsConditional(g: Graph, id: string) {
    exists n :: n in g.nodes && n.id == id && n.kind == Conditional
  }

  /** Only edges out of conditionals are cut. */
  ghost predicate ConditionalCut(g: Graph, cut: set<string>) {
    forall id :: id in cut ==> exists e :: e in g.edges && e.id == id && IsConditional(g, e.source)
  }

  ghost function EveryBranch(g: Graph): set<string> {
    set e | e in g.edges && IsConditional(g, e.source) :: e.id
  }

  /** A back-edge into a node without forward in-edges leaves a conditional, or a node that conditionals can skip. */
  ghost predicate CanOverreach(g: Graph) {
    exists e :: e in g.edges && e.back && !Fed(g, e.target) &&
      (IsConditional(g, e.source) || e.source in ForcedForward(g, EveryBranch(g)))
  }

  lemma ForcedForwardGrows(g: Graph, cut: set<string>, cut': set<string>)
    requires cut <= cut'
    ensures ForcedForward(g, cut) <= ForcedForward(g, cut')
  {
    var f' := ForcedForward(g, cut');
    ForcedForwardIsClosed(g, cut');
    forall n | n in Ids(g) && Fed(g, n) && Starved(g, cut, f', n) ensures n in f' {
      MoreSkipped(g, cut, cut', f', f', n);
    }
    assert ClosedForward(g, cut, f');
  }

  /** Otherwise the code skips by the forward rule, whatever conditionals cut. */
  lemma BackEdgesHarmless(g: Graph, cut: set<string>)
    requires Valid(g) && UniqueEdges(g) && ConditionalCut(g, cut) && !CanOverreach(g)
    ensures Forced(g, cut) == ForcedForward(g, cut)
  {
    BackEdgeOverreach(g, cut);
    forall e | e in g.edges && e.back && !Fed(g, e.target) ensures !Lifeless(cut, ForcedForward(g, cut), e) {
      assert cut <= EveryBranch(g);
      ForcedForwardGrows(g, cut, EveryBranch(g));
    }
  }
}
