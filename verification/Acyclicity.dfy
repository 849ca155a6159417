/** Three algorithms that agree about cycles. */
module Acyclicity {
  import opened Options
  import opened Graphs
  import Cycles
  import Layers
  import Topo

  /** They agree on every graph, and when there is no cycle both orders put every forward edge forward. */
  method DecideThreeWays(g: Graph) returns (reported: bool, order: Option<seq<string>>, groups: Option<seq<seq<string>>>)
    requires Valid(g)
    ensures reported <==> order.None?
    ensures order.None? <==> groups.None?
    ensures reported <==> Cyclic(g)
    ensures !reported ==> TopoOrder(g, order.value) && Layers.LayeredByLongestPath(g, groups.value)
    ensures !reported ==> forall u, v, k: nat, m: nat ::
              Arc(g, u, v) && Layers.InGroup(groups.value, u, k) && Layers.InGroup(groups.value, v, m) ==> k < m
  {
    reported := Cycles.ReportsCycle(g);
    order := Topo.TopologicalSort(g);
    groups := Layers.ParallelGroups(g);
    if !reported {
      forall u, v, k: nat, m: nat |
        Arc(g, u, v) && Layers.InGroup(groups.value, u, k) && Layers.InGroup(groups.value, v, m)
        ensures k < m
      {
        Layers.ArcsCrossGroups(g, groups.value, u, v, k, m);
      }
    }
  }
}
