/** The validator's cycle check. */
module Cycles {
  import opened Graphs

  // Depth-first search with white, gray and black nodes.

  datatype Color = White | Gray | Black

  /** The variables that the recursive closure of validateNoCycles captures and mutates. */
  class CycleFinder {
    const g: Graph
    var colors: map<string, Color>
    var cyclePath: seq<string>
    var hasCycle: bool
    ghost var finished: seq<string>  // black nodes in the order they turned black
    ghost var whites: set<string>    // the white nodes

    constructor (g: Graph)
      requires Valid(g)
      ensures this.g == g && Coherent() && !hasCycle && cyclePath == []
      ensures forall v :: v in colors ==> colors[v] == White
    {
      this.g := g;
      var cs: map<string, Color> := map[];
      for i := 0 to |g.nodes|
        invariant forall v :: v in cs <==> Declared(g, v, i)
        invariant forall v :: v in cs ==> cs[v] == White
      {
        assert Declared(g, g.nodes[i].id, i + 1);
        assert forall v :: Declared(g, v, i + 1) <==> Declared(g, v, i) || v == g.nodes[i].id;
        cs := cs[g.nodes[i].id := White];
      }
      AllDeclared(g);
      colors := cs;
      cyclePath, hasCycle, finished, whites := [], false, [], WhiteSet(cs);
    }

    ghost predicate Coherent()
      reads this
    {
      && Valid(g)
      && colors.Keys == Ids(g)
      && whites == WhiteSet(colors)
      && (hasCycle ==> Cyclic(g))
      && (!hasCycle ==> Exploring(g, colors, cyclePath, finished))
    }

    /** A node turns gray and joins the current path. */
    method Enter(nodeID: string)
      requires Coherent() && nodeID in colors && colors[nodeID] == White
      requires !hasCycle && cyclePath != [] ==> Arc(g, cyclePath[|cyclePath| - 1], nodeID)
      modifies this`colors, this`cyclePath, this`whites
      ensures Coherent() && colors == old(colors)[nodeID := Gray] && cyclePath == old(cyclePath) + [nodeID]
      ensures whites <= old(whites) - {nodeID}
      ensures !hasCycle ==> nodeID !in old(cyclePath)
    {
      EnterNode(g, colors, cyclePath, finished, nodeID, hasCycle);
      colors := colors[nodeID := Gray];
      whites := WhiteSet(colors);
      cyclePath := cyclePath + [nodeID];
    }

    /** A node turns black and leaves the current path. */
    method Leave(nodeID: string, ghost path: seq<string>, ghost neighbors: seq<string>)
      requires Coherent() && nodeID in colors && cyclePath == path + [nodeID]
      requires !hasCycle ==> nodeID !in path
      requires forall w :: Arc(g, nodeID, w) ==> w in neighbors
      requires !hasCycle ==> forall j :: 0 <= j < |neighbors| ==> neighbors[j] in finished
      modifies this`colors, this`cyclePath, this`finished, this`whites
      ensures Coherent() && whites <= old(whites) && colors == old(colors)[nodeID := Black] && cyclePath == path
      ensures !hasCycle ==> finished == old(finished) + [nodeID]
    {
      if !hasCycle {
        LeaveNode(g, colors, path, finished, nodeID, neighbors);
        finished := finished + [nodeID];
      }
      cyclePath := cyclePath[..|cyclePath| - 1];
      colors := colors[nodeID := Black];
      whites := WhiteSet(colors);
    }

    method Dfs(nodeID: string) returns (found: bool)
      requires Coherent() && nodeID in colors && colors[nodeID] == White
      requires !hasCycle && cyclePath != [] ==> Arc(g, cyclePath[|cyclePath| - 1], nodeID)
      modifies this
      ensures Coherent()
      ensures found ==> hasCycle
      ensures old(hasCycle) ==> hasCycle
      ensures !hasCycle ==> nodeID in finished && old(finished) <= finished
      ensures !found ==> cyclePath == old(cyclePath)
      ensures whites <= old(whites) - {nodeID}
      decreases |whites|, 0
    {
      hide Exploring, Valid, Cyclic;  // their definitions matter only in Enter, Visit and Leave
      ghost var whites0, path := whites, cyclePath;
      Enter(nodeID);
      var neighbors := ForwardTargets(g.edges, nodeID);
      NeighborsMeaning(g, nodeID);
      for i := 0 to |neighbors|
        invariant Coherent()
        invariant old(hasCycle) ==> hasCycle
        invariant cyclePath == path + [nodeID]
        invariant whites <= whites0 - {nodeID}
        invariant !hasCycle ==> old(finished) <= finished
        invariant !hasCycle ==> forall j :: 0 <= j < i ==> neighbors[j] in finished
      {
        var neighbor := neighbors[i];
        assert neighbor in neighbors;
        Contained(whites, whites0 - {nodeID});
        var sub := Visit(nodeID, neighbor);
        if sub {
          return true;
        }
      }
      Leave(nodeID, path, neighbors);
      return false;
    }

    /** The body of Dfs's loop: one neighbor of the node at the end of the current path. */
    method Visit(nodeID: string, neighbor: string) returns (found: bool)
      requires Coherent() && cyclePath != [] && cyclePath[|cyclePath| - 1] == nodeID && Arc(g, nodeID, neighbor)
      modifies this
      ensures Coherent()
      ensures found ==> hasCycle
      ensures old(hasCycle) ==> hasCycle
      ensures !hasCycle ==> neighbor in finished && old(finished) <= finished
      ensures !found ==> cyclePath == old(cyclePath)
      ensures whites <= old(whites)
      decreases |whites|, 1
    {
      assert neighbor in colors;
      if colors[neighbor] == Gray {
        if !hasCycle {
          GrayNeighbor(g, cyclePath, neighbor);
        }
        hasCycle := true;
        return true;
      }
      if colors[neighbor] == White {
        found := Dfs(neighbor);
        return found;
      }
      return false;
    }

    method Run() returns (cyclic: bool)
      requires Coherent() && !hasCycle && cyclePath == []
      modifies this
      ensures cyclic <==> Cyclic(g)
    {
      for i := 0 to |g.nodes|
        invariant Coherent()
        invariant !hasCycle ==> cyclePath == []
        invariant !hasCycle ==> forall j :: 0 <= j < i ==> g.nodes[j].id in finished
      {
        var node := g.nodes[i];
        assert node in g.nodes && node.id in Ids(g);
        if colors[node.id] == White {
          var _ := Dfs(node.id);
        }
      }
      if !hasCycle {
        forall v | v in Ids(g) ensures v in finished {
          AllDeclared(g);
        }
        AllFinished(g, finished);
      }
      return hasCycle;
    }
  }

  lemma NeighborsMeaning(g: Graph, u: string)
    ensures forall v :: v in ForwardTargets(g.edges, u) <==> Arc(g, u, v)
  {
    ForwardTargetsMeaning(g.edges, u);
  }

  ghost function WhiteSet(colors: map<string, Color>): set<string> {
    set v | v in colors && colors[v] == White
  }

  /** While no cycle was found: gray nodes form the current path, black ones only reach earlier black ones. */
  ghost predicate Exploring(g: Graph, colors: map<string, Color>, path: seq<string>, finished: seq<string>) {
    && (path != [] ==> Walk(g, path))
    && (forall v :: v in colors ==> (colors[v] == Gray <==> v in path))
    && (forall v :: v in colors ==> (colors[v] == Black <==> v in finished))
    && (forall v :: v in finished ==> v in colors)
    && FinishedInOrder(g, finished)
  }

  /** Every forward edge out of a finished node leads to a node that finished before it. */
  ghost predicate FinishedInOrder(g: Graph, finished: seq<string>) {
    && Distinct(finished)
    && (forall j, v :: 0 <= j < |finished| && Arc(g, finished[j], v) ==> v in finished[..j])
  }

  lemma EnterNode(g: Graph, colors: map<string, Color>, path: seq<string>, finished: seq<string>, v: string, hasCycle: bool)
    requires colors.Keys == Ids(g) && v in colors && colors[v] == White
    requires !hasCycle ==> Exploring(g, colors, path, finished) && (path != [] ==> Arc(g, path[|path| - 1], v))
    ensures WhiteSet(colors[v := Gray]) <= WhiteSet(colors) - {v}
    ensures colors[v := Gray].Keys == Ids(g)
    ensures !hasCycle ==> Exploring(g, colors[v := Gray], path + [v], finished)
  {
  }

  lemma LeaveNode(g: Graph, colors: map<string, Color>, path: seq<string>, finished: seq<string>, v: string, neighbors: seq<string>)
    requires colors.Keys == Ids(g) && v in colors && v !in path
    requires Exploring(g, colors, path + [v], finished)
    requires forall w :: Arc(g, v, w) ==> w in neighbors
    requires forall j :: 0 <= j < |neighbors| ==> neighbors[j] in finished
    ensures Exploring(g, colors[v := Black], path, finished + [v])
  {
    var longer := path + [v];
    assert colors[v] == Gray by {
      assert v in longer;
    }
    FinishNode(g, finished, v, neighbors);
    assert forall i :: 0 <= i < |path| ==> path[i] == longer[i];
  }

  lemma GrayNeighbor(g: Graph, path: seq<string>, neighbor: string)
    requires path != [] && Walk(g, path) && neighbor in path && Arc(g, path[|path| - 1], neighbor)
    ensures Cyclic(g)
  {
    var i :| 0 <= i < |path| && path[i] == neighbor;
    var loop := path[i..] + [neighbor];
    forall a, b | 0 <= a < b < |loop| && b == a + 1 ensures Arc(g, loop[a], loop[b]) {
      if b < |loop| - 1 {
        assert loop[a] == path[i + a] && loop[b] == path[i + b];
      }
    }
    assert Walk(g, loop);
  }

  lemma FinishNode(g: Graph, finished: seq<string>, v: string, neighbors: seq<string>)
    requires FinishedInOrder(g, finished) && v !in finished
    requires forall w :: Arc(g, v, w) ==> w in neighbors
    requires forall j :: 0 <= j < |neighbors| ==> neighbors[j] in finished
    ensures FinishedInOrder(g, finished + [v])
  {
    var finished' := finished + [v];
    forall j, w | 0 <= j < |finished'| && Arc(g, finished'[j], w) ensures w in finished'[..j] {
      assert finished'[..j] == finished[..j];
      if j == |finished| {
        assert finished[..j] == finished;
      }
    }
  }

  lemma AllFinished(g: Graph, finished: seq<string>)
    requires Valid(g) && FinishedInOrder(g, finished)
    requires forall v :: v in Ids(g) ==> v in finished
    ensures !Cyclic(g)
  {
    var rank := map v | v in finished :: -(Position(finished, v) as int);
    forall u, v | Arc(g, u, v) ensures u in rank && v in rank && rank[u] < rank[v] {
      assert u in Ids(g) && v in Ids(g);
      var j := Position(finished, u);
      assert v in finished[..j];
      var i :| 0 <= i < j && finished[i] == v;
    }
    RankedIsAcyclic(g, rank);
  }

  /** validateNoCycles: true when an unguarded cycle would be reported. */
  method ReportsCycle(g: Graph) returns (cyclic: bool)
    requires Valid(g)
    ensures cyclic <==> Cyclic(g)
  {
    var finder := new CycleFinder(g);
    cyclic := finder.Run();
  }
}
