/** Construction of the control-flow graph of a function body. */
module CfgBuilder {
  import opened Values
  import opened Syntax
  import opened ExprFlow
  import opened ExprBuilder
  import opened ControlFlow
  import opened Skeleton

  // ---------------------------------------------------------------- how a graph grows

  /** Nothing below `lo` has changed. */
  ghost predicate Kept(g: Graph, g': Graph, lo: NodeId) {
    && GraphOk(g) && GraphOk(g') && lo <= |g.nodes| <= |g'.nodes|
    && forall n :: 0 <= n < lo ==> SameNode(g, g', n)
  }

  ghost predicate SameNode(g: Graph, g': Graph, n: NodeId) {
    && n < |g.nodes| && n < |g'.nodes| && GraphOk(g) && GraphOk(g')
    && g'.nodes[n] == g.nodes[n] && g'.out[n] == g.out[n] && g'.inc[n] == g.inc[n]
  }

  lemma KeptThrough(a: Graph, b: Graph, c: Graph, lo: NodeId)
    requires Kept(a, b, lo) && Kept(b, c, lo)
    ensures Kept(a, c, lo)
  {
    forall n | 0 <= n < lo ensures SameNode(a, c, n) {
      assert SameNode(a, b, n) && SameNode(b, c, n);
    }
  }

  /** Below `hi` nothing has changed, but for the edge that leads on from `foot`. */
  ghost predicate Grown(g: Graph, g': Graph, hi: NodeId, foot: Option<NodeId>, entry: NodeId) {
    && GraphOk(g) && GraphOk(g') && hi <= |g.nodes| <= |g'.nodes|
    && forall n :: 0 <= n < hi ==> GrownAt(g, g', n, foot, entry)
  }

  ghost predicate GrownAt(g: Graph, g': Graph, n: NodeId, foot: Option<NodeId>, entry: NodeId) {
    && n < |g.nodes| && n < |g'.nodes| && GraphOk(g) && GraphOk(g')
    && g'.nodes[n] == g.nodes[n] && g'.inc[n] == g.inc[n]
    && g'.out[n] == (if foot == Some(n) then [Edge(Normal, entry)] + g.out[n] else g.out[n])
  }

  lemma GrownKept(a: Graph, b: Graph, c: Graph, hi: NodeId, foot: Option<NodeId>, entry: NodeId)
    requires Grown(a, b, hi, foot, entry) && Kept(b, c, hi)
    ensures Grown(a, c, hi, foot, entry)
  {
    forall n | 0 <= n < hi ensures GrownAt(a, c, n, foot, entry) {
      assert GrownAt(a, b, n, foot, entry) && SameNode(b, c, n);
    }
  }

  lemma KeptAgree(g: Graph, g': Graph, hi: NodeId, lo: NodeId)
    requires Kept(g, g', hi)
    ensures Agree(g, g', lo, hi)
  {
    forall n | lo <= n < hi ensures SameAt(g, g', n) {
      assert SameNode(g, g', n);
    }
  }

  lemma EdgeAgree(g: Graph, from: NodeId, to: NodeId, kind: EdgeKind, lo: NodeId, hi: NodeId)
    requires GraphOk(g) && from < |g.nodes| && to < |g.nodes|
    requires !(lo <= from < hi) && (lo <= to < hi ==> !Tracked(g.nodes[to]))
    ensures Agree(g, AddEdge(g, from, to, kind), lo, hi)
  {
  }

  lemma NodeAgree(g: Graph, node: Node, lo: NodeId, hi: NodeId)
    requires GraphOk(g) && hi <= |g.nodes|
    ensures Agree(g, AddNode(g, node), lo, hi)
  {
  }

  /** The nodes from `lo` on are the fragments `built`, entered and left where `head` and `foot` say. */
  ghost predicate Region(g: Graph, built: seq<Fragment>, lo: NodeId, head: Option<NodeId>, foot: Option<NodeId>) {
    && GraphOk(g) && |g.nodes| == lo + Sizes(built) && PlacedSeq(g, built, lo, None)
    && head == (if built == [] then None else Some(EntryOr(built, lo, 0)))
    && foot == (if built == [] then None else Some(ExitOr(built, lo, 0)))
  }

  /** The last node of a region got an edge to `entry`; the fragment behind it is complete. */
  lemma RegionGrows(g: Graph, g': Graph, built: seq<Fragment>, f: Fragment, lo: NodeId, head: Option<NodeId>, foot: Option<NodeId>)
    requires Region(g, built, lo, head, foot)
    requires var hi := lo + Sizes(built);
      && GraphOk(g') && |g'.nodes| == hi + Size(f) && Placed(g', f, hi, None)
      && Grown(g, g', hi, foot, Entry(f, hi))
    ensures var hi := lo + Sizes(built);
      Region(g', built + [f], lo, if head.None? then Some(Entry(f, hi)) else head, Some(Exit(f, hi)))
    ensures Kept(g, g', lo)
  {
    hide Placed, Exit, Entry, PlacedSeq, Size, Sizes, ExitOr;
    var hi := lo + Sizes(built);
    if built != [] {
      ExitWithin(built, lo, 0);
    }
    forall n | 0 <= n < lo ensures SameNode(g, g', n) {
      assert GrownAt(g, g', n, foot, Entry(f, hi));
    }
    SizesAppend(built, [f]);
    OneFragment(g', f, hi);
    if built == [] {
      assert built + [f] == [f];
      NoFragments(g, lo, None, 0);
      ExitAppend([], f, lo, 0);
      assert [] + [f] == [f];
    } else {
      forall n | lo <= n < hi && n != foot.value ensures SameAt(g, g', n) {
        assert GrownAt(g, g', n, foot, Entry(f, hi));
      }
      assert GrownAt(g, g', foot.value, foot, Entry(f, hi));
      ConnectSeq(g, g', built, lo, Entry(f, hi));
      PlacedAppend(g', built, f, lo);
      ExitAppend(built, f, lo, 0);
    }
  }

  lemma OneFragment(g: Graph, f: Fragment, lo: NodeId)
    ensures Sizes([f]) == Size(f) && (Placed(g, f, lo, None) ==> PlacedSeq(g, [f], lo, None))
  {
    assert Sizes([f]) == Size(f) + Sizes([]);
    assert PlacedSeq(g, [f][1..], lo + Size(f), None);
  }

  // ---------------------------------------------------------------- stacked branches

  /** One conditional branch of a stack: its block starts at `lo`. */
  datatype Rung = Rung(id: nat, cond: Flat, thn: seq<Fragment>, lo: NodeId)

  function RungSplit(r: Rung): NodeId { r.lo + Sizes(r.thn) + 2 }

  function RungMerge(r: Rung): NodeId { r.lo + Sizes(r.thn) + 3 }

  function Falsely(to: Option<NodeId>): seq<Edge> { if to.None? then [] else [Edge(FalseEdge, to.value)] }

  function Also(from: Option<NodeId>): seq<NodeId> { if from.None? then [] else [from.value] }

  /** A branch whose false path leads to `falseTo` and comes back from `falseFrom`, when it is already there. */
  ghost predicate RungPlaced(g: Graph, r: Rung, falseTo: Option<NodeId>, falseFrom: Option<NodeId>, next: Option<NodeId>) {
    var size := Sizes(r.thn);
    && NodeIs(g, RungSplit(r), BranchSplit(r.id, r.cond), Falsely(falseTo) + [Edge(TrueEdge, r.lo + size)])
    && NodeIs(g, RungMerge(r), BranchMerge(r.id), Onward(next))
    && EnteredFrom(g, RungMerge(r), Also(falseFrom) + [r.lo + size + 1])
    && ScopeOf(g, r.thn, r.lo, Some(RungMerge(r)))
    && PlacedSeq(g, r.thn, r.lo, Some(r.lo + size + 1))
  }

  lemma FrameRung(g: Graph, g': Graph, r: Rung, falseTo: Option<NodeId>, falseFrom: Option<NodeId>, next: Option<NodeId>)
    requires RungPlaced(g, r, falseTo, falseFrom, next) && Agree(g, g', r.lo, RungMerge(r) + 1)
    ensures RungPlaced(g', r, falseTo, falseFrom, next)
  {
    assert SameAt(g, g', RungSplit(r)) && SameAt(g, g', RungMerge(r));
    FrameScope(g, g', r.thn, r.lo, Some(RungMerge(r)));
    FrameSeq(g, g', r.thn, r.lo, Some(r.lo + Sizes(r.thn) + 1));
  }

  /** The arm a stack of branches stands for. */
  function Nest(rungs: seq<Rung>, els: Else): Arm
    requires rungs != []
  {
    var r := rungs[0];
    Arm(r.id, r.cond, r.thn, if |rungs| == 1 then els else ElseIf(Nest(rungs[1..], els)))
  }

  lemma {:induction false} NestMore(rungs: seq<Rung>, r: Rung, els: Else)
    requires rungs != []
    ensures Nest(rungs + [r], els) == Nest(rungs, ElseIf(Arm(r.id, r.cond, r.thn, els)))
  {
    if |rungs| == 1 {
      assert (rungs + [r])[1..] == [r];
    } else {
      assert (rungs + [r])[1..] == rungs[1..] + [r];
      NestMore(rungs[1..], r, els);
    }
  }

  /** The branches of a stack stand one behind the other. */
  ghost predicate Stacked(rungs: seq<Rung>) {
    forall i :: 0 < i < |rungs| ==> rungs[i].lo == RungMerge(rungs[i - 1]) + 1
  }

  lemma {:induction false} StackedApart(rungs: seq<Rung>, i: nat, j: nat)
    requires Stacked(rungs) && i < j < |rungs|
    ensures RungMerge(rungs[i]) + 1 <= rungs[j].lo
    decreases j
  {
    if i + 1 < j {
      StackedApart(rungs, i, j - 1);
    }
  }

  function Above(rungs: seq<Rung>, i: nat): Option<NodeId>
    requires i < |rungs|
  {
    if i == 0 then None else Some(RungMerge(rungs[i - 1]))
  }

  /** Branch `i` of a stack in the graph; the false path of the last one is given. */
  ghost predicate Rises(g: Graph, rungs: seq<Rung>, i: nat, falseTo: Option<NodeId>, falseFrom: Option<NodeId>)
    requires i < |rungs|
  {
    var last := i + 1 == |rungs|;
    RungPlaced(g, rungs[i], if last then falseTo else Some(RungSplit(rungs[i + 1])),
               if last then falseFrom else Some(RungMerge(rungs[i + 1])), Above(rungs, i))
  }

  ghost predicate Ladder(g: Graph, rungs: seq<Rung>, falseTo: Option<NodeId>, falseFrom: Option<NodeId>) {
    && rungs != [] && Stacked(rungs)
    && forall i :: 0 <= i < |rungs| ==> Rises(g, rungs, i, falseTo, falseFrom)
  }

  lemma RungArm(g: Graph, r: Rung, els: Else, next: Option<NodeId>)
    requires var sp, mg := RungSplit(r), RungMerge(r);
      && RungPlaced(g, r, Some(ElseEntry(els, mg + 1, mg)), Some(ElseExit(els, mg + 1, sp)), next)
      && PlacedElse(g, els, mg + 1, mg)
    ensures PlacedArm(g, Arm(r.id, r.cond, r.thn, els), r.lo, next)
  {
    hide PlacedSeq, ScopeOf, PlacedElse, ElseEntry, ElseExit;
  }

  /** A stack with its else in place is the nested arm, upwards from the innermost branch. */
  lemma {:induction false} LadderArm(g: Graph, rungs: seq<Rung>, els: Else, k: nat)
    requires k < |rungs|
    requires var last := rungs[|rungs| - 1];
      && Ladder(g, rungs, Some(ElseEntry(els, RungMerge(last) + 1, RungMerge(last))),
                Some(ElseExit(els, RungMerge(last) + 1, RungSplit(last))))
      && PlacedElse(g, els, RungMerge(last) + 1, RungMerge(last))
    ensures var arm := Nest(rungs[k..], els);
      && PlacedArm(g, arm, rungs[k].lo, Above(rungs, k))
      && rungs[k].lo + ArmSize(arm) == RungMerge(rungs[|rungs| - 1]) + 1 + ElseSize(els)
    decreases |rungs| - k
  {
    hide PlacedSeq, ScopeOf, RungPlaced, ArmInside, PlacedArm;
    var last := rungs[|rungs| - 1];
    assert Rises(g, rungs, k, Some(ElseEntry(els, RungMerge(last) + 1, RungMerge(last))),
                 Some(ElseExit(els, RungMerge(last) + 1, RungSplit(last))));
    if k + 1 < |rungs| {
      LadderArm(g, rungs, els, k + 1);
      assert rungs[k..][1..] == rungs[k + 1..];
      RungArm(g, rungs[k], ElseIf(Nest(rungs[k + 1..], els)), Above(rungs, k));
    } else {
      RungArm(g, last, els, Above(rungs, k));
    }
  }

  /** The false path of a branch, from its split to `to` and from `from` back to its merge. */
  lemma RungFalse(g: Graph, g': Graph, r: Rung, to: NodeId, from: NodeId, next: Option<NodeId>)
    requires RungPlaced(g, r, None, None, next) && to < |g.nodes| && from < |g.nodes|
    requires to > RungMerge(r) && from > RungMerge(r)
    requires g' == AddEdge(AddEdge(g, RungSplit(r), to, FalseEdge), from, RungMerge(r), Normal)
    ensures RungPlaced(g', r, Some(to), Some(from), next) && Kept(g, g', r.lo)
  {
    hide PlacedSeq, Sizes, ExitOr, EntryOr;
    FrameSeq(g, g', r.thn, r.lo, Some(r.lo + Sizes(r.thn) + 1));
  }

  /** A branch without an else: its false path is one edge. */
  lemma RungShort(g: Graph, g': Graph, r: Rung, next: Option<NodeId>)
    requires RungPlaced(g, r, None, None, next)
    requires g' == AddEdge(g, RungSplit(r), RungMerge(r), FalseEdge)
    ensures RungPlaced(g', r, Some(RungMerge(r)), Some(RungSplit(r)), next) && Kept(g, g', r.lo)
  {
    hide PlacedSeq, Sizes, ExitOr, EntryOr;
    FrameSeq(g, g', r.thn, r.lo, Some(r.lo + Sizes(r.thn) + 1));
  }

  /** A branch that joins the one it is stacked on. */
  lemma RungLeads(g: Graph, g': Graph, r: Rung, split: NodeId, merge: NodeId)
    requires RungPlaced(g, r, None, None, None) && split < r.lo && merge < r.lo
    requires g' == AddEdge(AddEdge(g, split, RungSplit(r), FalseEdge), RungMerge(r), merge, Normal)
    ensures RungPlaced(g', r, None, None, Some(merge))
  {
    hide PlacedSeq, Sizes, ExitOr, EntryOr;
    FrameSeq(g, g', r.thn, r.lo, Some(r.lo + Sizes(r.thn) + 1));
  }

  lemma BlockLeads(g: Graph, g': Graph, b: seq<Fragment>, lo: NodeId, split: NodeId, merge: NodeId)
    requires var enter := lo + Sizes(b);
      && ScopeOf(g, b, lo, None) && PlacedSeq(g, b, lo, Some(enter + 1)) && split < lo && merge < lo
      && g' == AddEdge(AddEdge(g, split, enter, FalseEdge), enter + 1, merge, Normal)
    ensures PlacedElse(g', ElseBlock(b), lo, merge)
  {
    hide PlacedSeq, Sizes, ExitOr, EntryOr;
    FrameSeq(g, g', b, lo, Some(lo + Sizes(b) + 1));
  }

  /** Everything but the last branch of a stack is left alone. */
  lemma LadderKept(g: Graph, g': Graph, rungs: seq<Rung>, rungs': seq<Rung>, i: nat, falseTo: Option<NodeId>, falseFrom: Option<NodeId>)
    requires Ladder(g, rungs, None, None) && i + 1 < |rungs| <= |rungs'| && rungs == rungs'[..|rungs|]
    requires Kept(g, g', rungs[|rungs| - 1].lo)
    ensures Rises(g', rungs', i, falseTo, falseFrom)
  {
    hide RungPlaced;
    assert Rises(g, rungs, i, None, None);
    StackedApart(rungs, i, |rungs| - 1);
    KeptAgree(g, g', RungMerge(rungs[i]) + 1, rungs[i].lo);
    FrameRung(g, g', rungs[i], Some(RungSplit(rungs[i + 1])), Some(RungMerge(rungs[i + 1])), Above(rungs, i));
  }

  /** The last branch of a stack gets its false path. */
  lemma LadderCloses(g: Graph, g': Graph, rungs: seq<Rung>, to: NodeId, from: NodeId)
    requires Ladder(g, rungs, None, None)
    requires var last := rungs[|rungs| - 1];
      && Kept(g, g', last.lo) && RungPlaced(g', last, Some(to), Some(from), Above(rungs, |rungs| - 1))
    ensures Ladder(g', rungs, Some(to), Some(from))
  {
    hide RungPlaced;
    forall i | 0 <= i < |rungs| ensures Rises(g', rungs, i, Some(to), Some(from)) {
      if i + 1 < |rungs| {
        LadderKept(g, g', rungs, rungs, i, Some(to), Some(from));
      }
    }
  }

  /** One more branch on a stack. */
  lemma LadderGrows(g: Graph, g1: Graph, g': Graph, rungs: seq<Rung>, r: Rung)
    requires Ladder(g, rungs, None, None) && Kept(g, g1, |g.nodes|) && RungPlaced(g1, r, None, None, None)
    requires var last := rungs[|rungs| - 1];
      && r.lo == RungMerge(last) + 1 == |g.nodes|
      && g' == AddEdge(AddEdge(g1, RungSplit(last), RungSplit(r), FalseEdge), RungMerge(r), RungMerge(last), Normal)
    ensures Ladder(g', rungs + [r], None, None) && Kept(g, g', rungs[|rungs| - 1].lo)
  {
    hide RungPlaced;
    var k := |rungs| - 1;
    var last := rungs[k];
    var rungs' := rungs + [r];
    assert Rises(g, rungs, k, None, None);
    KeptAgree(g, g1, |g.nodes|, last.lo);
    FrameRung(g, g1, last, None, None, Above(rungs, k));
    assert RungSplit(r) < |g1.nodes| && RungMerge(r) < |g1.nodes| by { RungIn(g1, r); }
    RungFalse(g1, g', last, RungSplit(r), RungMerge(r), Above(rungs, k));
    RungLeads(g1, g', r, RungSplit(last), RungMerge(last));
    KeptThrough(g, g1, g', last.lo);
    forall i | 0 <= i < |rungs'| ensures Rises(g', rungs', i, None, None) {
      if i < k {
        LadderKept(g, g', rungs, rungs', i, None, None);
      }
    }
  }

  lemma RungIn(g: Graph, r: Rung)
    requires RungPlaced(g, r, None, None, None)
    ensures RungSplit(r) < |g.nodes| && RungMerge(r) < |g.nodes|
  {
  }

  /** The state of an unfinished stack: its branches in the graph, and the split and merge of the last one. */
  ghost predicate StackTop(g: Graph, rungs: seq<Rung>, previous: BranchData) {
    && Ladder(g, rungs, None, None)
    && var last := rungs[|rungs| - 1];
       |g.nodes| == RungMerge(last) + 1 && previous == BranchData(Some(RungSplit(last)), Some(RungMerge(last)))
  }

  /** A finished stack. */
  ghost predicate StackClosed(g: Graph, rungs: seq<Rung>, els: Else) {
    && rungs != []
    && var last := rungs[|rungs| - 1];
       var mg := RungMerge(last);
       && Ladder(g, rungs, Some(ElseEntry(els, mg + 1, mg)), Some(ElseExit(els, mg + 1, RungSplit(last))))
       && PlacedElse(g, els, mg + 1, mg)
  }

  lemma StackArm(g: Graph, g': Graph, rungs: seq<Rung>, els: Else, previous: BranchData)
    requires StackTop(g, rungs, previous) && StackClosed(g', rungs, els) && |g'.nodes| == |g.nodes| + ElseSize(els)
    ensures PlacedArm(g', Nest(rungs, els), rungs[0].lo, None) && |g'.nodes| == rungs[0].lo + ArmSize(Nest(rungs, els))
    ensures SplitOf(Nest(rungs, els), rungs[0].lo) == RungSplit(rungs[0])
    ensures MergeOf(Nest(rungs, els), rungs[0].lo) == RungMerge(rungs[0])
  {
    hide PlacedSeq, ScopeOf, RungPlaced, PlacedElse, PlacedArm;
    LadderArm(g', rungs, els, 0);
    assert rungs[0..] == rungs;
  }

  lemma StackAbove(g: Graph, rungs: seq<Rung>, previous: BranchData)
    requires StackTop(g, rungs, previous)
    ensures rungs[|rungs| - 1].lo <= |g.nodes|
  {
  }

  lemma KeptBelow(g: Graph, g': Graph, hi: NodeId, lo: NodeId)
    requires Kept(g, g', hi) && lo <= hi
    ensures Kept(g, g', lo)
  {
  }

  /** The step of an `if`, with its first branch as a stack of one. */
  lemma StepOfIf(cond: Expr, body: seq<Stmt>, arms: Arms, n: nat, loop: nat, lo: NodeId)
    ensures var s := SkelOf(body, [], n, loop);
      var f := Flatten(cond, s.next + 1);
      var e := SkelElseOf(arms, f.next, loop);
      StepOf(If(cond, body, arms), n, loop) == Apart(SIf(Nest([Rung(s.next, f, s.fragments, lo)], e.els)), e.next)
  {
    hide SkelOf, Flatten;
  }

  /** An `elif` is one more branch on the stack. */
  lemma ElifOf(cond: Expr, body: seq<Stmt>, arms: Arms, n: nat, loop: nat, rungs: seq<Rung>, lo: NodeId, inLoop: bool)
    requires rungs != []
    ensures var s := SkelOf(body, [], n, loop);
      var f := Flatten(cond, s.next + 1);
      var e := SkelElseOf(arms, f.next, loop);
      var all := SkelElseOf(Elif(cond, body, arms), n, loop);
      all.next == e.next && Nest(rungs, all.els) == Nest(rungs + [Rung(s.next, f, s.fragments, lo)], e.els)
    ensures ArmsStray(Elif(cond, body, arms), inLoop)
         == if FirstStray(body, inLoop).Some? then FirstStray(body, inLoop) else ArmsStray(arms, inLoop)
  {
    hide SkelOf, Flatten, Nest;
    var s := SkelOf(body, [], n, loop);
    var f := Flatten(cond, s.next + 1);
    NestMore(rungs, Rung(s.next, f, s.fragments, lo), SkelElseOf(arms, f.next, loop).els);
  }

  /** The first branch of a stack, and the edge into it. */
  lemma FirstRung(g0: Graph, g1: Graph, g': Graph, r: Rung, previous: Option<NodeId>)
    requires GraphOk(g0) && Kept(g0, g1, |g0.nodes|) && RungPlaced(g1, r, None, None, None) && r.lo == |g0.nodes|
    requires previous.Some? ==> previous.value < |g0.nodes|
    requires RungSplit(r) < |g1.nodes|
    requires g' == if previous.Some? then AddEdge(g1, previous.value, RungSplit(r), Normal) else g1
    ensures Ladder(g', [r], None, None) && Grown(g0, g', |g0.nodes|, previous, RungSplit(r))
  {
    hide PlacedSeq, Sizes, ExitOr, EntryOr;
    forall n | 0 <= n < |g0.nodes| ensures GrownAt(g0, g', n, previous, RungSplit(r)) {
      assert SameNode(g0, g1, n);
    }
    FrameSeq(g1, g', r.thn, r.lo, Some(r.lo + Sizes(r.thn) + 1));
  }

  // ---------------------------------------------------------------- the builder

  datatype BranchData = BranchData(head: Option<NodeId>, foot: Option<NodeId>)

  datatype LoopInfo = LoopInfo(head: NodeId, foot: NodeId, id: nat)

  datatype Generated<T> = Built(value: T) | Rejected(error: JumpError)

  function LoopIdOf(loop: Option<LoopInfo>): nat { if loop.None? then 0 else loop.value.id }

  class Cfg {
    var graph: Graph
    var start: NodeId
    var end: NodeId

    constructor ()
      ensures graph == Graph([Start, End], [[], []], [[], []]) && start == 0 && end == 1
    {
      graph := AddNode(AddNode(Graph([], [], []), Start), End);
      start, end := 0, 1;
    }

    method NewNode(node: Node) returns (id: NodeId)
      requires GraphOk(graph)
      modifies this`graph
      ensures graph == AddNode(old(graph), node) && id == |old(graph).nodes|
    {
      id := |graph.nodes|;
      graph := AddNode(graph, node);
    }

    method NewEdge(from: NodeId, to: NodeId, kind: EdgeKind)
      requires GraphOk(graph) && from < |graph.nodes| && to < |graph.nodes|
      modifies this`graph
      ensures graph == AddEdge(old(graph), from, to, kind)
    {
      graph := AddEdge(graph, from, to, kind);
    }

    /** Hangs an existing node behind the previous one. */
    method AppendIndex(head: Option<NodeId>, previous: Option<NodeId>, node: NodeId)
      returns (head': Option<NodeId>, previous': Option<NodeId>)
      requires GraphOk(graph) && node < |graph.nodes| && (previous.Some? ==> previous.value < |graph.nodes|)
      modifies this`graph
      ensures graph == if previous.Some? then AddEdge(old(graph), previous.value, node, Normal) else old(graph)
      ensures head' == (if head.None? then Some(node) else head) && previous' == Some(node)
    {
      if previous.Some? {
        NewEdge(previous.value, node, Normal);
      }
      head' := if head.None? then Some(node) else head;
      previous' := Some(node);
    }

    method AppendNode(head: Option<NodeId>, previous: Option<NodeId>, node: Node)
      returns (head': Option<NodeId>, previous': Option<NodeId>)
      requires GraphOk(graph) && (previous.Some? ==> previous.value < |graph.nodes|)
      modifies this`graph
      ensures var g := AddNode(old(graph), node);
        var id := |old(graph).nodes|;
        && graph == (if previous.Some? then AddEdge(g, previous.value, id, Normal) else g)
        && head' == (if head.None? then Some(id) else head) && previous' == Some(id)
    {
      var id := NewNode(node);
      head', previous' := AppendIndex(head, previous, id);
    }

    /** A fragment that is one node, behind the region built so far. */
    method AppendLeaf(ghost built: seq<Fragment>, ghost lo: NodeId, head: Option<NodeId>, previous: Option<NodeId>, node: Node)
      returns (head': Option<NodeId>, previous': Option<NodeId>)
      requires Region(graph, built, lo, head, previous) && LeafOf(node).Some?
      modifies this`graph
      ensures Region(graph, built + [LeafOf(node).value], lo, head', previous') && Kept(old(graph), graph, lo)
    {
      ghost var g := graph;
      ghost var f := LeafOf(node).value;
      if built != [] {
        ExitWithin(built, lo, 0);
      }
      head', previous' := AppendNode(head, previous, node);
      assert Grown(g, graph, lo + Sizes(built), previous, lo + Sizes(built));
      RegionGrows(g, graph, built, f, lo, head, previous);
    }

    /** The current basic block becomes a node, unless it is empty. */
    method Flush(ghost built: seq<Fragment>, ghost lo: NodeId, head: Option<NodeId>, previous: Option<NodeId>, block: seq<BlockNode>)
      returns (head': Option<NodeId>, previous': Option<NodeId>)
      requires Region(graph, built, lo, head, previous)
      modifies this`graph
      ensures Region(graph, built + Skeleton.Flush(block), lo, head', previous') && Kept(old(graph), graph, lo)
    {
      head', previous' := head, previous;
      if block != [] {
        head', previous' := AppendLeaf(built, lo, head, previous, Block(block));
      } else {
        assert built + [] == built;
      }
    }

    /** Scope nodes around a block. */
    method WrapScope(ghost fs: seq<Fragment>, ghost lo: NodeId, block: BranchData) returns (enter: NodeId, exit: NodeId)
      requires Region(graph, fs, lo, block.head, block.foot)
      modifies this`graph
      ensures enter == lo + Sizes(fs) && exit == enter + 1 && |graph.nodes| == exit + 1
      ensures ScopeOf(graph, fs, lo, None) && PlacedSeq(graph, fs, lo, Some(exit)) && Kept(old(graph), graph, lo)
    {
      hide PlacedSeq, Sizes, ExitOr;
      ghost var g := graph;
      enter := NewNode(EnterScope);
      exit := NewNode(ExitScope);
      if block.head.Some? && block.foot.Some? {
        ExitWithin(fs, lo, 0);
        ExitWithin(fs, lo, enter);
        EntryWithin(g, fs, lo);
        NewEdge(enter, block.head.value, Normal);
        NewEdge(block.foot.value, exit, Normal);
        ConnectSeq(g, graph, fs, lo, exit);
      } else {
        NoFragments(g, lo, Some(exit), enter);
        NewEdge(enter, exit, Normal);
        NoFragments(graph, lo, Some(exit), enter);
      }
    }

    /** A block of its own: its region at the end of the graph, or the first stray jump in it. */
    method GenerateScopedBlock(local: LocalData, stmts: seq<Stmt>, loop: Option<LoopInfo>) returns (r: Generated<BranchData>)
      requires GraphOk(graph)
      modifies this`graph, local
      ensures GraphOk(graph)
      ensures Agrees(r, FirstStray(stmts, loop.Some?))
      ensures r.Built? ==>
        var s := SkelOf(stmts, [], old(local.counter), LoopIdOf(loop));
        && Kept(old(graph), graph, |old(graph).nodes|) && local.counter == s.next
        && Region(graph, s.fragments, |old(graph).nodes|, r.value.head, r.value.foot)
      decreases stmts, 1
    {
      hide SkelOf, FirstStray, Region, Kept, StmtStray, StepOf;
      ghost var g0, n, lo, L := graph, local.counter, |graph.nodes|, LoopIdOf(loop);
      var head: Option<NodeId>, previous: Option<NodeId> := None, None;
      var currentBlock: seq<BlockNode> := [];
      ghost var built: seq<Fragment> := [];
      EmptyRegion(graph, lo);
      for i := 0 to |stmts|
        invariant GraphOk(graph) && Region(graph, built, lo, head, previous) && Kept(g0, graph, lo)
        invariant FirstStray(stmts, loop.Some?) == FirstStray(stmts[i..], loop.Some?)
        invariant SoFar(SkelOf(stmts, [], n, L), built, SkelOf(stmts[i..], currentBlock, local.counter, L))
      {
        ghost var g, step := graph, StepOf(stmts[i], local.counter, L);
        assert stmts[i..][0] == stmts[i] && stmts[i..][1..] == stmts[i + 1..];
        StrayStep(stmts[i..], loop.Some?);
        SkelStep(stmts[i..], currentBlock, local.counter, L);
        if IsPlain(stmts[i]) {
          var node := PlainNode(local, stmts[i], loop);
          currentBlock := currentBlock + [node];
        } else {
          var data := GenerateApart(local, stmts[i], loop, currentBlock, head, previous, built, lo);
          if data.Rejected? {
            return Rejected(data.error);
          }
          KeptThrough(g0, g, graph, lo);
          built := built + Skeleton.Flush(currentBlock) + [step.fragment];
          currentBlock := [];
          head, previous := data.value.head, data.value.foot;
        }
      }
      ghost var g := graph;
      SkelEnd(currentBlock, local.counter, L, loop.Some?);
      head, previous := Flush(built, lo, head, previous, currentBlock);
      KeptThrough(g0, g, graph, lo);
      r := Built(BranchData(head, previous));
    }

    /** A statement that joins the current basic block. */
    method PlainNode(local: LocalData, s: Stmt, loop: Option<LoopInfo>) returns (node: BlockNode)
      requires IsPlain(s)
      modifies local
      ensures StepOf(s, old(local.counter), LoopIdOf(loop)) == InBlock(node, local.counter)
      ensures StmtStray(s, loop.Some?) == None
    {
      hide Flatten, FlattenAccess;
      match s {
        case ExprStmt(e) =>
          var f := FlattenExpr(local, e);
          node := ExprNode(f);
        case Assign(root, rootIndex, path, value) =>
          var access := FlattenAssignee(local, root, rootIndex, path);
          var f := FlattenExpr(local, value);
          node := AssignNode(access, f);
        case Local(x, e) =>
          var f := FlattenExpr(local, e);
          var _ := local.NewId();
          node := LocalNode(x, f);
      }
    }

    /** A statement with nodes of its own; the current basic block ends before it. */
    method GenerateApart(local: LocalData, s: Stmt, loop: Option<LoopInfo>, currentBlock: seq<BlockNode>,
                         head: Option<NodeId>, previous: Option<NodeId>, ghost built: seq<Fragment>, ghost lo: NodeId)
      returns (r: Generated<BranchData>)
      requires Region(graph, built, lo, head, previous) && !IsPlain(s)
      modifies this`graph, local
      ensures GraphOk(graph)
      ensures Agrees(r, StmtStray(s, loop.Some?))
      ensures r.Built? ==>
        var step := StepOf(s, old(local.counter), LoopIdOf(loop));
        && step.Apart? && Kept(old(graph), graph, lo) && local.counter == step.next
        && Region(graph, built + Skeleton.Flush(currentBlock) + [step.fragment], lo, r.value.head, r.value.foot)
      decreases s, 2
    {
      hide Flatten, SkelOf, SkelElseOf, FirstStray, ArmsStray, Kept, PlacedSeq, Skeleton.Flush;
      if (s.Break? || s.Continue?) && loop.None? {
        return Rejected(if s.Break? then BadBreak else BadContinue);
      }
      ghost var g0 := graph;
      var head', previous' := Flush(built, lo, head, previous, currentBlock);
      ghost var g, flushed := graph, built + Skeleton.Flush(currentBlock);
      match s {
        case Return(ret) =>
          var value := None;
          if ret.Some? {
            var f := FlattenExpr(local, ret.value);
            value := Some(f);
          }
          head', previous' := AppendLeaf(flushed, lo, head', previous', ReturnNode(value));
        case Break =>
          head', previous' := AppendLeaf(flushed, lo, head', previous', BreakNode(loop.value.id));
        case Continue =>
          head', previous' := AppendLeaf(flushed, lo, head', previous', ContinueNode(loop.value.id));
        case While(cond, body) =>
          r := GenerateWhile(local, cond, body, head', previous', flushed, lo);
        case If(cond, body, arms) =>
          r := GenerateIf(local, cond, body, arms, loop, head', previous', flushed, lo);
      }
      if !s.While? && !s.If? {
        r := Built(BranchData(head', previous'));
      }
      if r.Built? {
        KeptThrough(g0, g, graph, lo);
      }
    }

    /** A block in scope nodes and, when there is a condition, between a split and a merge. */
    method GenerateBranch(local: LocalData, body: seq<Stmt>, condition: Option<Expr>, loop: Option<LoopInfo>)
      returns (r: Generated<BranchData>)
      requires GraphOk(graph)
      modifies this`graph, local
      ensures GraphOk(graph)
      ensures Agrees(r, FirstStray(body, loop.Some?))
      ensures r.Built? ==>
        && Kept(old(graph), graph, |old(graph).nodes|)
        && BranchBuilt(graph, body, condition, LoopIdOf(loop), old(local.counter), |old(graph).nodes|, r.value, local.counter)
      decreases body, 2
    {
      hide SkelOf, FirstStray, Flatten, PlacedSeq, ScopeOf;
      ghost var g0, n, lo := graph, local.counter, |graph.nodes|;
      ghost var s := SkelOf(body, [], n, LoopIdOf(loop));
      var block := GenerateScopedBlock(local, body, loop);
      if block.Rejected? {
        return Rejected(block.error);
      }
      ghost var g1 := graph;
      var enter, exit := WrapScope(s.fragments, lo, block.value);
      KeptThrough(g0, g1, graph, lo);
      if condition.None? {
        return Built(BranchData(Some(enter), Some(exit)));
      }
      var branchId := local.NewId();
      var cond := FlattenExpr(local, condition.value);
      ghost var rung := Rung(branchId, cond, s.fragments, lo);
      ghost var g2 := graph;
      var split := NewNode(BranchSplit(branchId, cond));
      var merge := NewNode(BranchMerge(branchId));
      NewEdge(split, enter, TrueEdge);
      NewEdge(exit, merge, Normal);
      SplitScope(g2, graph, rung);
      KeptThrough(g0, g2, graph, lo);
      r := Built(BranchData(Some(split), Some(merge)));
    }

    /** Head and foot of a loop, with the edge back, behind the region built so far. */
    method StartLoop(loopId: nat, f: Flat, head: Option<NodeId>, previous: Option<NodeId>, ghost built: seq<Fragment>, ghost lo: NodeId)
      returns (loopHead: NodeId, loopFoot: NodeId, head': Option<NodeId>)
      requires Region(graph, built, lo, head, previous)
      modifies this`graph
      ensures var hi := lo + Sizes(built);
        && loopHead == hi && loopFoot == hi + 1 && |graph.nodes| == hi + 2
        && head' == (if head.None? then Some(hi) else head)
        && NodeIs(graph, hi, LoopHead(loopId, f), []) && NodeIs(graph, hi + 1, LoopFoot(loopId), [Edge(BackEdge, hi)])
        && Grown(old(graph), graph, hi, previous, hi)
    {
      hide PlacedSeq, ExitOr;
      if built != [] {
        ExitWithin(built, lo, 0);
      }
      loopHead := NewNode(LoopHead(loopId, f));
      loopFoot := NewNode(LoopFoot(loopId));
      NewEdge(loopFoot, loopHead, BackEdge);
      var previous';
      head', previous' := AppendIndex(head, previous, loopHead);
    }

    /** The edges out of a loop head, once the body is there. */
    method FinishLoop(block: BranchData, loopHead: NodeId, loopFoot: NodeId, ghost id: nat, ghost f: Flat, ghost body: seq<Fragment>)
      requires Region(graph, body, loopHead + 2, block.head, block.foot) && loopFoot == loopHead + 1
      requires NodeIs(graph, loopHead, LoopHead(id, f), []) && NodeIs(graph, loopFoot, LoopFoot(id), [Edge(BackEdge, loopHead)])
      modifies this`graph
      ensures Placed(graph, SWhile(id, f, body), loopHead, None) && Kept(old(graph), graph, loopHead)
      ensures |graph.nodes| == loopHead + Size(SWhile(id, f, body))
    {
      hide PlacedSeq, ScopeOf, ExitOr, Placed;
      ghost var g0, hi := graph, loopHead;
      NewEdge(loopHead, loopFoot, FalseEdge);
      ghost var g1 := graph;
      EdgeAgree(g0, loopHead, loopFoot, FalseEdge, hi + 2, |g0.nodes|);
      FrameSeq(g0, g1, body, hi + 2, None);
      if block.head.Some? {
        var enter, exit := WrapScope(body, hi + 2, block);
        ghost var g2 := graph;
        NewEdge(loopHead, enter, TrueEdge);
        NewEdge(exit, loopFoot, Normal);
        assert SameNode(g1, g2, hi) && SameNode(g1, g2, hi + 1);
        CloseLoop(g2, graph, hi, id, f, body);
        KeptThrough(g1, g2, graph, hi);
      } else {
        NewEdge(loopHead, loopFoot, TrueEdge);
        CloseEmptyLoop(g1, graph, hi, id, f);
      }
      KeptThrough(g0, g1, graph, hi);
    }

    /** A loop behind the region built so far. */
    method GenerateWhile(local: LocalData, cond: Expr, body: seq<Stmt>, head: Option<NodeId>, previous: Option<NodeId>,
                         ghost built: seq<Fragment>, ghost lo: NodeId) returns (r: Generated<BranchData>)
      requires Region(graph, built, lo, head, previous)
      modifies this`graph, local
      ensures GraphOk(graph)
      ensures Agrees(r, FirstStray(body, true))
      ensures r.Built? ==>
        var f := Flatten(cond, old(local.counter) + 1);
        var b := SkelOf(body, [], f.next, old(local.counter));
        && Kept(old(graph), graph, lo) && local.counter == b.next
        && Region(graph, built + [SWhile(old(local.counter), f, b.fragments)], lo, r.value.head, r.value.foot)
      decreases body, 2
    {
      hide SkelOf, FirstStray, Flatten, PlacedSeq, ScopeOf, ExitOr, Placed;
      ghost var g0, hi := graph, |graph.nodes|;
      var loopId := local.NewId();
      var f := FlattenExpr(local, cond);
      var loopHead, loopFoot, head' := StartLoop(loopId, f, head, previous, built, lo);
      ghost var g1 := graph;
      ghost var s := SkelOf(body, [], local.counter, loopId);
      var block := GenerateScopedBlock(local, body, Some(LoopInfo(loopHead, loopFoot, loopId)));
      if block.Rejected? {
        return Rejected(block.error);
      }
      ghost var g2 := graph;
      assert SameNode(g1, g2, hi) && SameNode(g1, g2, hi + 1);
      FinishLoop(block.value, loopHead, loopFoot, loopId, f, s.fragments);
      KeptThrough(g1, g2, graph, hi);
      GrownKept(g0, g1, graph, hi, previous, hi);
      RegionGrows(g0, graph, built, SWhile(loopId, f, s.fragments), lo, head, previous);
      r := Built(BranchData(head', Some(loopFoot)));
    }

    /** One more conditional branch on a stack. */
    method StackBranch(local: LocalData, body: seq<Stmt>, cond: Expr, loop: Option<LoopInfo>, previous: BranchData, ghost rungs: seq<Rung>)
      returns (r: Generated<BranchData>)
      requires GraphOk(graph) && StackTop(graph, rungs, previous)
      modifies this`graph, local
      ensures GraphOk(graph)
      ensures Agrees(r, FirstStray(body, loop.Some?))
      ensures r.Built? ==>
        var s := SkelOf(body, [], old(local.counter), LoopIdOf(loop));
        var f := Flatten(cond, s.next + 1);
        && local.counter == f.next && Kept(old(graph), graph, rungs[|rungs| - 1].lo)
        && StackTop(graph, rungs + [Rung(s.next, f, s.fragments, |old(graph).nodes|)], r.value)
      decreases body, 3
    {
      hide SkelOf, FirstStray, Flatten, RungPlaced, Stacked, Rises;
      ghost var g, n := graph, local.counter;
      r := GenerateBranch(local, body, Some(cond), loop);
      if r.Built? {
        ghost var g1 := graph;
        ghost var s := SkelOf(body, [], n, LoopIdOf(loop));
        ghost var rung := Rung(s.next, Flatten(cond, s.next + 1), s.fragments, |g.nodes|);
        RungIn(g1, rung);
        NewEdge(previous.head.value, r.value.head.value, FalseEdge);
        NewEdge(r.value.foot.value, previous.foot.value, Normal);
        LadderGrows(g, g1, graph, rungs, rung);
      }
    }

    /** The else of a stack, or the edge that stands for a missing one. */
    method CloseStack(local: LocalData, arms: Arms, loop: Option<LoopInfo>, previous: BranchData, ghost rungs: seq<Rung>)
      returns (r: Generated<()>)
      requires GraphOk(graph) && StackTop(graph, rungs, previous) && !arms.Elif?
      modifies this`graph, local
      ensures GraphOk(graph)
      ensures Agrees(r, ArmsStray(arms, loop.Some?))
      ensures r.Built? ==>
        var e := SkelElseOf(arms, old(local.counter), LoopIdOf(loop));
        && local.counter == e.next && Kept(old(graph), graph, rungs[|rungs| - 1].lo)
        && |graph.nodes| == |old(graph).nodes| + ElseSize(e.els)
        && StackClosed(graph, rungs, e.els)
      decreases arms, 3
    {
      hide SkelOf, FirstStray, Flatten, RungPlaced, Stacked, PlacedSeq, ScopeOf;
      ghost var g, n, last := graph, local.counter, rungs[|rungs| - 1];
      assert Rises(g, rungs, |rungs| - 1, None, None);
      match arms {
        case Default(block) =>
          var els := GenerateBranch(local, block, None, loop);
          if els.Rejected? {
            return Rejected(els.error);
          }
          ghost var g1 := graph;
          ghost var b := SkelOf(block, [], n, LoopIdOf(loop)).fragments;
          KeptAgree(g, g1, |g.nodes|, last.lo);
          FrameRung(g, g1, last, None, None, Above(rungs, |rungs| - 1));
          NewEdge(previous.head.value, els.value.head.value, FalseEdge);
          NewEdge(els.value.foot.value, previous.foot.value, Normal);
          RungFalse(g1, graph, last, els.value.head.value, els.value.foot.value, Above(rungs, |rungs| - 1));
          BlockLeads(g1, graph, b, |g.nodes|, RungSplit(last), RungMerge(last));
          KeptThrough(g, g1, graph, last.lo);
          LadderCloses(g, graph, rungs, els.value.head.value, els.value.foot.value);
        case NoMore =>
          NewEdge(previous.head.value, previous.foot.value, FalseEdge);
          RungShort(g, graph, last, Above(rungs, |rungs| - 1));
          LadderCloses(g, graph, rungs, RungMerge(last), RungSplit(last));
      }
      r := Built(());
    }

    /** The first conditional branch, behind the region built so far. */
    method StartStack(local: LocalData, cond: Expr, body: seq<Stmt>, loop: Option<LoopInfo>, head: Option<NodeId>, previous: Option<NodeId>,
                      ghost built: seq<Fragment>, ghost lo: NodeId)
      returns (r: Generated<BranchData>, head': Option<NodeId>)
      requires Region(graph, built, lo, head, previous)
      modifies this`graph, local
      ensures GraphOk(graph)
      ensures Agrees(r, FirstStray(body, loop.Some?))
      ensures r.Built? ==>
        var s := SkelOf(body, [], old(local.counter), LoopIdOf(loop));
        var f := Flatten(cond, s.next + 1);
        var rung := Rung(s.next, f, s.fragments, lo + Sizes(built));
        && local.counter == f.next && StackTop(graph, [rung], r.value) && r.value.foot == Some(RungMerge(rung))
        && Grown(old(graph), graph, rung.lo, previous, RungSplit(rung))
        && head' == (if head.None? then Some(RungSplit(rung)) else head)
      decreases body, 3
    {
      hide SkelOf, FirstStray, Flatten, PlacedSeq, ExitOr, RungPlaced, Ladder, Grown;
      ghost var g0 := graph;
      head' := head;
      r := GenerateBranch(local, body, Some(cond), loop);
      if r.Built? {
        ghost var g1 := graph;
        if built != [] {
          ExitWithin(built, lo, 0);
        }
        ghost var s := SkelOf(body, [], old(local.counter), LoopIdOf(loop));
        ghost var rung := Rung(s.next, Flatten(cond, s.next + 1), s.fragments, |g0.nodes|);
        RungIn(g1, rung);
        var previous';
        head', previous' := AppendIndex(head, previous, r.value.head.value);
        FirstRung(g0, g1, graph, rung, previous);
      }
    }

    /** Stacked branches behind the region built so far. */
    method GenerateIf(local: LocalData, cond: Expr, body: seq<Stmt>, arms: Arms, loop: Option<LoopInfo>,
                      head: Option<NodeId>, previous: Option<NodeId>, ghost built: seq<Fragment>, ghost lo: NodeId)
      returns (r: Generated<BranchData>)
      requires Region(graph, built, lo, head, previous)
      modifies this`graph, local
      ensures GraphOk(graph)
      ensures Agrees(r, StmtStray(If(cond, body, arms), loop.Some?))
      ensures r.Built? ==>
        var step := StepOf(If(cond, body, arms), old(local.counter), LoopIdOf(loop));
        && step.Apart? && Kept(old(graph), graph, lo) && local.counter == step.next
        && Region(graph, built + [step.fragment], lo, r.value.head, r.value.foot)
      decreases If(cond, body, arms), 1
    {
      hide SkelOf, SkelElseOf, StepOf, FirstStray, ArmsStray, Flatten, PlacedSeq, ExitOr, Ladder, RungPlaced, Nest, Grown, Kept;
      hide StackClosed, PlacedElse, PlacedArm, Sizes, ArmSize, ElseSize;
      ghost var g0, hi, n, L := graph, |graph.nodes|, local.counter, LoopIdOf(loop);
      var first, head' := StartStack(local, cond, body, loop, head, previous, built, lo);
      if first.Rejected? {
        return Rejected(first.error);
      }
      ghost var s := SkelOf(body, [], n, L);
      ghost var rung := Rung(s.next, Flatten(cond, s.next + 1), s.fragments, hi);
      ghost var rungs := [rung];
      StepOfIf(cond, body, arms, n, L, hi);
      var previousBranch := first.value;
      var rest := arms;
      while rest.Elif?
        invariant GraphOk(graph) && rungs != [] && StackTop(graph, rungs, previousBranch) && rungs[0] == rung && hi <= rungs[|rungs| - 1].lo
        invariant Grown(g0, graph, hi, previous, RungSplit(rung))
        invariant ArmsStray(arms, loop.Some?) == ArmsStray(rest, loop.Some?)
        invariant var e := SkelElseOf(rest, local.counter, L);
          var step := StepOf(If(cond, body, arms), n, L);
          step == Apart(SIf(Nest(rungs, e.els)), e.next)
        decreases rest
      {
        ghost var g, m := graph, local.counter;
        ElifOf(rest.cond, rest.body, rest.rest, m, L, rungs, |g.nodes|, loop.Some?);
        StackAbove(g, rungs, previousBranch);
        var branch := StackBranch(local, rest.body, rest.cond, loop, previousBranch, rungs);
        if branch.Rejected? {
          return Rejected(branch.error);
        }
        ghost var b := SkelOf(rest.body, [], m, L);
        ghost var r' := Rung(b.next, Flatten(rest.cond, b.next + 1), b.fragments, |g.nodes|);
        KeptBelow(g, graph, rungs[|rungs| - 1].lo, hi);
        GrownKept(g0, g, graph, hi, previous, RungSplit(rung));
        rungs := rungs + [r'];
        previousBranch := branch.value;
        rest := rest.rest;
      }
      ghost var g2 := graph;
      ghost var e := SkelElseOf(rest, local.counter, L);
      var closed := CloseStack(local, rest, loop, previousBranch, rungs);
      if closed.Rejected? {
        return Rejected(closed.error);
      }
      KeptBelow(g2, graph, rungs[|rungs| - 1].lo, hi);
      GrownKept(g0, g2, graph, hi, previous, RungSplit(rung));
      StackArm(g2, graph, rungs, e.els, previousBranch);
      RegionGrows(g0, graph, built, SIf(Nest(rungs, e.els)), lo, head, previous);
      r := Built(BranchData(head', first.value.foot));
    }

    /** The scope node behind the start, and the edge into the body. */
    method EnterBody(block: BranchData, ghost fs: seq<Fragment>) returns (previous: NodeId)
      requires Region(graph, fs, 2, block.head, block.foot) && start == 0
      requires NodeIs(graph, 0, Start, []) && NodeIs(graph, 1, End, []) && EnteredFrom(graph, 1, [])
      modifies this`graph
      ensures BodyEntered(graph, fs, previous)
    {
      hide PlacedSeq, ExitOr, Sizes;
      ghost var g := graph;
      var head, enter := AppendNode(Some(start), Some(start), EnterScope);
      previous := enter.value;
      NoFragments(g, 2, None, previous);
      if block.head.Some? {
        EntryWithin(g, fs, 2);
        ExitWithin(fs, 2, previous);
        NewEdge(previous, block.head.value, Normal);
        previous := block.foot.value;
        FrameSeq(g, graph, fs, 2, None);
      } else {
        NoFragments(graph, 2, None, previous);
      }
    }

    /** The nodes behind the body. */
    method LeaveBody(foot: NodeId, returnsUnit: bool, ghost fs: seq<Fragment>)
      requires BodyEntered(graph, fs, foot) && end == 1
      modifies this`graph
      ensures WholeGraph(graph, fs, returnsUnit)
    {
      hide PlacedSeq, ExitOr, Sizes, EntryOr, WholeGraph;
      ghost var g := graph;
      var head, previous := Some(start), Some(foot);
      FootWithin(fs, 2 + Sizes(fs));
      if returnsUnit {
        head, previous := AppendNode(head, previous, ReturnNode(None));
      }
      head, previous := AppendNode(head, previous, ExitScope);
      head, previous := AppendIndex(head, previous, end);
      if returnsUnit {
        BehindUnitBody(g, graph, fs, foot);
      } else {
        BehindPlainBody(g, graph, fs, foot);
      }
    }

    /** The graph of a whole function: its body, its scope, and for the unit type a return at the end. */
    method Generate(local: LocalData, body: seq<Stmt>, returnsUnit: bool) returns (r: Generated<()>)
      requires graph == Graph([Start, End], [[], []], [[], []]) && start == 0 && end == 1
      modifies this`graph, local
      ensures Agrees(r, FirstStray(body, false))
      ensures r.Built? ==>
        var s := SkelOf(body, [], old(local.counter), 0);
        WholeGraph(graph, s.fragments, returnsUnit) && local.counter == s.next
    {
      hide SkelOf, FirstStray, PlacedSeq, ExitOr, Sizes, WholeGraph, EntryOr;
      ghost var g := graph;
      ghost var fs := SkelOf(body, [], local.counter, 0).fragments;
      var functionBody := GenerateScopedBlock(local, body, None);
      if functionBody.Rejected? {
        return Rejected(functionBody.error);
      }
      assert SameNode(g, graph, 0) && SameNode(g, graph, 1);
      var foot := EnterBody(functionBody.value, fs);
      LeaveBody(foot, returnsUnit, fs);
      r := Built(());
    }
  }

  lemma FootWithin(fs: seq<Fragment>, enter: NodeId)
    requires enter == 2 + Sizes(fs)
    ensures 2 <= ExitOr(fs, 2, enter) <= enter
  {
    if fs != [] {
      ExitWithin(fs, 2, enter);
    }
  }

  /** A body behind its scope node, not yet left. */
  ghost predicate BodyEntered(g: Graph, fs: seq<Fragment>, foot: NodeId) {
    var enter := 2 + Sizes(fs);
    && GraphOk(g) && |g.nodes| == enter + 1 && PlacedSeq(g, fs, 2, None)
    && NodeIs(g, 0, Start, [Edge(Normal, enter)]) && NodeIs(g, 1, End, []) && EnteredFrom(g, 1, [])
    && NodeIs(g, enter, EnterScope, if fs == [] then [] else [Edge(Normal, EntryOr(fs, 2, 0))])
    && foot == ExitOr(fs, 2, enter)
  }

  /** The first node behind a body. */
  lemma BehindBody(g: Graph, g': Graph, fs: seq<Fragment>, foot: NodeId, node: Node)
    requires BodyEntered(g, fs, foot) && foot <= 2 + Sizes(fs)
    requires g' == AddEdge(AddNode(g, node), foot, |g.nodes|, Normal)
    ensures var enter := 2 + Sizes(fs);
      && PlacedSeq(g', fs, 2, Some(enter + 1))
      && NodeIs(g', 0, Start, [Edge(Normal, enter)]) && NodeIs(g', 1, End, []) && EnteredFrom(g', 1, [])
      && NodeIs(g', enter, EnterScope, [Edge(Normal, EntryOr(fs, 2, enter + 1))])
      && NodeIs(g', enter + 1, node, []) && EnteredFrom(g', enter + 1, [foot]) && |g'.nodes| == enter + 2
  {
    hide PlacedSeq, ExitOr, Sizes;
    var enter := 2 + Sizes(fs);
    if fs != [] {
      ExitWithin(fs, 2, enter);
      ConnectSeq(g, g', fs, 2, enter + 1);
    } else {
      NoFragments(g', 2, Some(enter + 1), enter);
    }
  }

  lemma BehindPlainBody(g: Graph, g': Graph, fs: seq<Fragment>, foot: NodeId)
    requires BodyEntered(g, fs, foot) && foot <= 2 + Sizes(fs)
    requires var exit := |g.nodes|;
      g' == AddEdge(AddEdge(AddNode(g, ExitScope), foot, exit, Normal), exit, 1, Normal)
    ensures WholeGraph(g', fs, false)
  {
    hide PlacedSeq, ExitOr, Sizes, EntryOr;
    var g1 := AddEdge(AddNode(g, ExitScope), foot, |g.nodes|, Normal);
    BehindBody(g, g1, fs, foot, ExitScope);
    FrameSeq(g1, g', fs, 2, Some(|g.nodes|));
  }

  lemma BehindUnitBody(g: Graph, g': Graph, fs: seq<Fragment>, foot: NodeId)
    requires BodyEntered(g, fs, foot) && foot <= 2 + Sizes(fs)
    requires var after := |g.nodes|;
      g' == AddEdge(AddEdge(AddNode(AddEdge(AddNode(g, ReturnNode(None)), foot, after, Normal), ExitScope),
                            after, after + 1, Normal), after + 1, 1, Normal)
    ensures WholeGraph(g', fs, true)
  {
    hide PlacedSeq, ExitOr, Sizes, EntryOr;
    var g1 := AddEdge(AddNode(g, ReturnNode(None)), foot, |g.nodes|, Normal);
    BehindBody(g, g1, fs, foot, ReturnNode(None));
    FrameSeq(g1, g', fs, 2, Some(|g.nodes|));
  }

  /** The graph of a function whose body has the fragments `fs`: they start at node 2, behind start and end. */
  ghost predicate WholeGraph(g: Graph, fs: seq<Fragment>, returnsUnit: bool) {
    var enter := 2 + Sizes(fs);
    var after := enter + 1;
    var exit := if returnsUnit then after + 1 else after;
    && |g.nodes| == exit + 1
    && NodeIs(g, 0, Start, [Edge(Normal, enter)])
    && NodeIs(g, enter, EnterScope, [Edge(Normal, EntryOr(fs, 2, after))])
    && PlacedSeq(g, fs, 2, Some(after))
    && (returnsUnit ==> NodeIs(g, after, ReturnNode(None), [Edge(Normal, exit)]))
    && NodeIs(g, exit, ExitScope, [Edge(Normal, 1)])
    && NodeIs(g, 1, End, [])
    && EnteredFrom(g, 1, [exit]) && EnteredFrom(g, exit, [if returnsUnit then after else ExitOr(fs, 2, enter)])
  }

  /** The fragments of a block are those built and those to come. */
  ghost predicate SoFar(all: Skel, built: seq<Fragment>, rest: Skel) {
    all == Skel(built + rest.fragments, rest.next)
  }

  predicate IsPlain(s: Stmt) { s.ExprStmt? || s.Assign? || s.Local? }

  lemma SkelEnd(pending: seq<BlockNode>, n: nat, loop: nat, inLoop: bool)
    ensures SkelOf([], pending, n, loop) == Skel(Flush(pending), n) && FirstStray([], inLoop) == None
  {
  }

  lemma EmptyRegion(g: Graph, lo: NodeId)
    requires GraphOk(g) && lo == |g.nodes|
    ensures Region(g, [], lo, None, None) && Kept(g, g, lo)
  {
  }

  lemma StrayStep(stmts: seq<Stmt>, inLoop: bool)
    requires stmts != []
    ensures var first := StmtStray(stmts[0], inLoop);
      FirstStray(stmts, inLoop) == if first.Some? then first else FirstStray(stmts[1..], inLoop)
  {
  }

  lemma SkelStep(stmts: seq<Stmt>, pending: seq<BlockNode>, n: nat, loop: nat)
    requires stmts != []
    ensures var step := StepOf(stmts[0], n, loop);
      SkelOf(stmts, pending, n, loop) ==
        if step.InBlock? then SkelOf(stmts[1..], pending + [step.node], step.next, loop)
        else Cons(pending, step.fragment, SkelOf(stmts[1..], [], step.next, loop))
  {
    hide StepOf;
  }

  /** What a block generator returns, for the first stray jump there is. */
  predicate Agrees<T>(r: Generated<T>, stray: Option<JumpError>) {
    if stray.None? then r.Built? else r == Rejected(stray.value)
  }

  /** A generated branch, from node `lo` and identifier `n` on. */
  ghost predicate BranchBuilt(g: Graph, body: seq<Stmt>, condition: Option<Expr>, loop: nat, n: nat, lo: NodeId,
                              data: BranchData, next: nat) {
    var s := SkelOf(body, [], n, loop);
    var enter := lo + Sizes(s.fragments);
    match condition
    case None =>
      && next == s.next && |g.nodes| == enter + 2 && data == BranchData(Some(enter), Some(enter + 1))
      && ScopeOf(g, s.fragments, lo, None) && PlacedSeq(g, s.fragments, lo, Some(enter + 1))
    case Some(c) =>
      var f := Flatten(c, s.next + 1);
      var rung := Rung(s.next, f, s.fragments, lo);
      && next == f.next && |g.nodes| == enter + 4 && data == BranchData(Some(RungSplit(rung)), Some(RungMerge(rung)))
      && RungPlaced(g, rung, None, None, None)
  }

  lemma CloseLoop(g: Graph, g': Graph, hi: NodeId, id: nat, cond: Flat, body: seq<Fragment>)
    requires body != [] && NodeIs(g, hi, LoopHead(id, cond), [Edge(FalseEdge, hi + 1)])
    requires NodeIs(g, hi + 1, LoopFoot(id), [Edge(BackEdge, hi)])
    requires var enter := hi + 2 + Sizes(body);
      && |g.nodes| == enter + 2 && ScopeOf(g, body, hi + 2, None) && PlacedSeq(g, body, hi + 2, Some(enter + 1))
      && g' == AddEdge(AddEdge(g, hi, enter, TrueEdge), enter + 1, hi + 1, Normal)
    ensures Placed(g', SWhile(id, cond, body), hi, None) && Kept(g, g', hi)
  {
    hide PlacedSeq, Sizes, ExitOr, EntryOr;
    FrameSeq(g, g', body, hi + 2, Some(hi + 2 + Sizes(body) + 1));
  }

  lemma CloseEmptyLoop(g: Graph, g': Graph, hi: NodeId, id: nat, cond: Flat)
    requires NodeIs(g, hi, LoopHead(id, cond), [Edge(FalseEdge, hi + 1)])
    requires NodeIs(g, hi + 1, LoopFoot(id), [Edge(BackEdge, hi)])
    requires g' == AddEdge(g, hi, hi + 1, TrueEdge)
    ensures Placed(g', SWhile(id, cond, []), hi, None) && Kept(g, g', hi)
  {
  }

  /** Split and merge around a scoped block. */
  lemma SplitScope(g: Graph, g': Graph, r: Rung)
    requires var enter := r.lo + Sizes(r.thn);
      && GraphOk(g) && |g.nodes| == enter + 2
      && ScopeOf(g, r.thn, r.lo, None) && PlacedSeq(g, r.thn, r.lo, Some(enter + 1))
      && g' == AddEdge(AddEdge(AddNode(AddNode(g, BranchSplit(r.id, r.cond)), BranchMerge(r.id)),
                               enter + 2, enter, TrueEdge), enter + 1, enter + 3, Normal)
    ensures RungPlaced(g', r, None, None, None) && Kept(g, g', r.lo)
  {
    hide PlacedSeq, Sizes, ExitOr, EntryOr;
    FrameSeq(g, g', r.thn, r.lo, Some(r.lo + Sizes(r.thn) + 1));
  }

  /** The fragment a single node is. */
  function LeafOf(node: Node): Option<Fragment> {
    match node
    case Block(stmts) => Some(SBlock(stmts))
    case ReturnNode(v) => Some(SReturn(v))
    case BreakNode(l) => Some(SBreak(l))
    case ContinueNode(l) => Some(SContinue(l))
    case _ => None
  }

  predicate Enterable(node: Node) {
    node.Block? || node.ReturnNode? || node.BreakNode? || node.ContinueNode? || node.LoopHead? || node.BranchSplit?
  }

  /** Fragments are entered at nodes of their own kind, neither scope nor merge nor foot. */
  lemma EntryNode(g: Graph, f: Fragment, lo: NodeId, next: Option<NodeId>)
    requires Placed(g, f, lo, next)
    ensures lo <= Entry(f, lo) < lo + Size(f)
    ensures Entry(f, lo) < |g.nodes| && Enterable(g.nodes[Entry(f, lo)])
  {
    hide PlacedSeq, ScopeOf, PlacedElse;
    if f.SIf? {
      assert ArmInside(g, f.arm, lo);
    }
  }

  lemma NoFragments(g: Graph, lo: NodeId, next: Option<NodeId>, otherwise: NodeId)
    ensures Sizes([]) == 0 && PlacedSeq(g, [], lo, next) && ExitOr([], lo, otherwise) == otherwise
  {
  }

  lemma EntryWithin(g: Graph, fs: seq<Fragment>, lo: NodeId)
    requires fs != [] && PlacedSeq(g, fs, lo, None)
    ensures lo <= Entry(fs[0], lo) < lo + Sizes(fs)
    ensures Entry(fs[0], lo) < |g.nodes| && !Tracked(g.nodes[Entry(fs[0], lo)])
  {
    hide Placed, Entry, Size;
    EntryNode(g, fs[0], lo, if |fs| == 1 then None else Some(Entry(fs[1], lo + Size(fs[0]))));
  }
}
