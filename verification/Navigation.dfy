/** The graph's navigators: which neighbour a walk goes on to.  `None` is a panic. */
module Navigation {
  import opened Values
  import opened ControlFlow

  /** The edges at a node lead to nodes of the graph. */
  predicate EdgesIn(g: Graph, id: NodeId) {
    GraphOk(g) && id < |g.nodes| && forall i :: 0 <= i < |g.out[id]| ==> g.out[id][i].target < |g.nodes|
  }

  method Next(g: Graph, id: NodeId) returns (r: Option<NodeId>)
    requires EdgesIn(g, id)
    ensures r == if |g.out[id]| == 1 then Some(g.out[id][0].target) else None
  {
    if |g.out[id]| != 1 {
      return None;
    }
    r := Some(g.out[id][0].target);
  }

  /** The true and the false neighbour of a condition, in either order of its two edges. */
  method AfterConditional(g: Graph, id: NodeId) returns (r: Option<(NodeId, NodeId)>)
    requires EdgesIn(g, id)
    ensures forall t: NodeId, f: NodeId :: r == Some((t, f)) <==>
      && (g.nodes[id].LoopHead? || g.nodes[id].BranchSplit?)
      && (g.out[id] == [Edge(TrueEdge, t), Edge(FalseEdge, f)] || g.out[id] == [Edge(FalseEdge, f), Edge(TrueEdge, t)])
  {
    if !g.nodes[id].LoopHead? && !g.nodes[id].BranchSplit? {
      return None;
    }
    var edges := g.out[id];
    if |edges| != 2 {
      return None;
    }
    var trueBranch: Option<NodeId>, falseBranch: Option<NodeId> := None, None;
    for i := 0 to |edges|
      invariant trueBranch == LastOf(edges[..i], TrueEdge) && falseBranch == LastOf(edges[..i], FalseEdge)
      invariant forall j :: 0 <= j < i ==> edges[j].kind.TrueEdge? || edges[j].kind.FalseEdge?
    {
      assert edges[..i + 1] == edges[..i] + [edges[i]];
      match edges[i].kind {
        case TrueEdge => trueBranch := Some(edges[i].target);
        case FalseEdge => falseBranch := Some(edges[i].target);
        case _ => return None;
      }
    }
    assert edges[..2] == [edges[0], edges[1]];
    if trueBranch.None? || falseBranch.None? {
      return None;
    }
    r := Some((trueBranch.value, falseBranch.value));
  }

  function LastOf(edges: seq<Edge>, kind: EdgeKind): Option<NodeId> {
    if edges == [] then None
    else if edges[|edges| - 1].kind == kind then Some(edges[|edges| - 1].target)
    else LastOf(edges[..|edges| - 1], kind)
  }

  predicate IsHeadOf(node: Node, loop: nat) { node.LoopHead? && node.loop == loop }

  /** Past a loop: the first neighbour of the foot that is not its own head. */
  method AfterLoopFoot(g: Graph, id: NodeId) returns (r: Option<NodeId>)
    requires EdgesIn(g, id)
    ensures (!g.nodes[id].LoopFoot? || |g.out[id]| != 2) ==> r == None
    ensures g.nodes[id].LoopFoot? && |g.out[id]| == 2 ==>
      var a, b := g.out[id][0].target, g.out[id][1].target;
      r == if !IsHeadOf(g.nodes[a], g.nodes[id].loop) then Some(a)
           else if !IsHeadOf(g.nodes[b], g.nodes[id].loop) then Some(b) else None
  {
    if !g.nodes[id].LoopFoot? || |g.out[id]| != 2 {
      return None;
    }
    for i := 0 to |g.out[id]|
      invariant forall j :: 0 <= j < i ==> IsHeadOf(g.nodes[g.out[id][j].target], g.nodes[id].loop)
    {
      var n := g.out[id][i].target;
      if !IsHeadOf(g.nodes[n], g.nodes[id].loop) {
        return Some(n);
      }
    }
    r := None;
  }

  /** What the three jump navigators share: one neighbour is taken when `single` allows it; of two, the first is
      passed over when it is the place the jump would go to. */
  predicate Leaves(g: Graph, id: NodeId, r: Option<NodeId>, single: bool, target: Node -> bool)
    requires EdgesIn(g, id)
  {
    var out := g.out[id];
    if |out| == 1 then r == if single then Some(out[0].target) else None
    else if |out| == 2 then r == Some(if target(g.nodes[out[0].target]) then out[1].target else out[0].target)
    else r == None
  }

  method AfterReturn(g: Graph, id: NodeId) returns (r: Option<NodeId>)
    requires EdgesIn(g, id) && g.nodes[id].ReturnNode?
    ensures Leaves(g, id, r, true, (n: Node) => n.End?)
  {
    if |g.out[id]| == 2 {
      var foundFirstEnd := false;
      for i := 0 to 2
        invariant foundFirstEnd <==> i > 0
        invariant i > 0 ==> g.nodes[g.out[id][0].target].End?
        invariant i < 2
      {
        var n := g.out[id][i].target;
        if !g.nodes[n].End? || foundFirstEnd {
          return Some(n);
        }
        foundFirstEnd := true;
      }
    } else if |g.out[id]| == 1 {
      return Some(g.out[id][0].target);
    }
    r := None;
  }

  method AfterContinue(g: Graph, id: NodeId) returns (r: Option<NodeId>)
    requires EdgesIn(g, id) && g.nodes[id].ContinueNode?
    ensures Leaves(g, id, r, true, (n: Node) => n.LoopHead?)
  {
    if |g.out[id]| == 2 {
      var foundFirst := false;
      for i := 0 to 2
        invariant foundFirst <==> i > 0
        invariant i > 0 ==> g.nodes[g.out[id][0].target].LoopHead?
        invariant i < 2
      {
        var n := g.out[id][i].target;
        if !g.nodes[n].LoopHead? || foundFirst {
          return Some(n);
        }
        foundFirst := true;
      }
    } else if |g.out[id]| == 1 {
      return Some(g.out[id][0].target);
    }
    r := None;
  }

  /** Unlike the other two it never returns for a single neighbour. */
  method AfterBreak(g: Graph, id: NodeId) returns (r: Option<NodeId>)
    requires EdgesIn(g, id) && g.nodes[id].BreakNode?
    ensures Leaves(g, id, r, false, (n: Node) => n.LoopFoot?)
  {
    if |g.out[id]| == 2 {
      var foundFirst := false;
      for i := 0 to 2
        invariant foundFirst <==> i > 0
        invariant i > 0 ==> g.nodes[g.out[id][0].target].LoopFoot?
        invariant i < 2
      {
        var n := g.out[id][i].target;
        if !g.nodes[n].LoopFoot? || foundFirst {
          return Some(n);
        }
        foundFirst := true;
      }
    }
    r := None;
  }

  /** The only node in front of a node. */
  method Previous(g: Graph, id: NodeId) returns (r: Option<NodeId>)
    requires GraphOk(g) && id < |g.nodes|
    ensures r == if |g.inc[id]| == 1 then Some(g.inc[id][0]) else None
  {
    if |g.inc[id]| != 1 {
      return None;
    }
    r := Some(g.inc[id][0]);
  }
}
