/** Control-flow graphs, and the shape of the graph of a function body. */
module ControlFlow {
  import opened Values
  import opened ExprFlow

  type NodeId = nat

  datatype EdgeKind = Normal | TrueEdge | FalseEdge | BackEdge

  datatype Edge = Edge(kind: EdgeKind, target: NodeId)

  datatype BlockNode =
    | ExprNode(e: Flat)
    | AssignNode(access: TmpAccess, value: Flat)
    | LocalNode(name: string, init: Flat)

  datatype Node =
    | Start | End
    | EnterScope | ExitScope
    | ReturnNode(value: Option<Flat>)
    | BreakNode(loop: nat)
    | ContinueNode(loop: nat)
    | BranchSplit(branch: nat, cond: Flat)
    | BranchMerge(branch: nat)
    | LoopHead(loop: nat, cond: Flat)
    | LoopFoot(loop: nat)
    | Block(stmts: seq<BlockNode>)

  /** `out` and `inc` list the edges at a node newest first, as the graph library iterates them. */
  datatype Graph = Graph(nodes: seq<Node>, out: seq<seq<Edge>>, inc: seq<seq<NodeId>>)

  predicate GraphOk(g: Graph) { |g.nodes| == |g.out| == |g.inc| }

  function AddNode(g: Graph, node: Node): (g': Graph)
    ensures GraphOk(g) ==> GraphOk(g')
  {
    Graph(g.nodes + [node], g.out + [[]], g.inc + [[]])
  }

  function AddEdge(g: Graph, from: NodeId, to: NodeId, kind: EdgeKind): (g': Graph)
    requires GraphOk(g) && from < |g.nodes| && to < |g.nodes|
    ensures GraphOk(g')
  {
    Graph(g.nodes, g.out[from := [Edge(kind, to)] + g.out[from]], g.inc[to := [from] + g.inc[to]])
  }

  // ---------------------------------------------------------------- skeletons

  /** A body cut into graph fragments, with expressions flattened and identifiers handed out. */
  datatype Fragment =
    | SBlock(stmts: seq<BlockNode>)
    | SReturn(value: Option<Flat>)
    | SBreak(loop: nat)
    | SContinue(loop: nat)
    | SWhile(id: nat, cond: Flat, body: seq<Fragment>)
    | SIf(arm: Arm)

  /** One conditional branch and what its false path leads to: stacked branches nest here. */
  datatype Arm = Arm(id: nat, cond: Flat, thn: seq<Fragment>, els: Else)

  datatype Else = NoElse | ElseBlock(body: seq<Fragment>) | ElseIf(arm: Arm)

  function Size(f: Fragment): (n: nat)
    ensures n >= 1
  {
    match f
    case SWhile(_, _, body) => 2 + if body == [] then 0 else Sizes(body) + 2
    case SIf(arm) => ArmSize(arm)
    case _ => 1
  }

  function Sizes(fs: seq<Fragment>): (n: nat)
    ensures n >= |fs|
  {
    if fs == [] then 0 else Size(fs[0]) + Sizes(fs[1..])
  }

  function ArmSize(a: Arm): (n: nat)
    ensures n >= 4 + Sizes(a.thn)
  {
    Sizes(a.thn) + 4 + ElseSize(a.els)
  }

  function ElseSize(e: Else): nat {
    match e
    case NoElse => 0
    case ElseBlock(b) => Sizes(b) + 2
    case ElseIf(a) => ArmSize(a)
  }

  /** Where a fragment starting at node `lo` is entered and left. */
  function Entry(f: Fragment, lo: NodeId): NodeId {
    if f.SIf? then SplitOf(f.arm, lo) else lo
  }

  function Exit(f: Fragment, lo: NodeId): NodeId {
    if f.SIf? then MergeOf(f.arm, lo) else if f.SWhile? then lo + 1 else lo
  }

  function SplitOf(a: Arm, lo: NodeId): NodeId { lo + Sizes(a.thn) + 2 }

  function MergeOf(a: Arm, lo: NodeId): NodeId { lo + Sizes(a.thn) + 3 }

  function EntryOr(fs: seq<Fragment>, lo: NodeId, otherwise: NodeId): NodeId {
    if fs == [] then otherwise else Entry(fs[0], lo)
  }

  function ExitOr(fs: seq<Fragment>, lo: NodeId, otherwise: NodeId): NodeId
    decreases fs
  {
    if fs == [] then otherwise
    else if |fs| == 1 then Exit(fs[0], lo)
    else ExitOr(fs[1..], lo + Size(fs[0]), otherwise)
  }

  // ---------------------------------------------------------------- fragments in a graph

  function Onward(next: Option<NodeId>): seq<Edge> {
    if next.None? then [] else [Edge(Normal, next.value)]
  }

  predicate NodeIs(g: Graph, n: NodeId, node: Node, out: seq<Edge>) {
    GraphOk(g) && n < |g.nodes| && g.nodes[n] == node && g.out[n] == out
  }

  predicate EnteredFrom(g: Graph, n: NodeId, inc: seq<NodeId>) {
    GraphOk(g) && n < |g.nodes| && g.inc[n] == inc
  }

  /** Nodes `lo .. lo + Sizes(fs)` hold the fragments in order; the last one leads to `next`, or nowhere yet. */
  predicate PlacedSeq(g: Graph, fs: seq<Fragment>, lo: NodeId, next: Option<NodeId>)
    decreases fs
  {
    fs == [] ||
    (var hi := lo + Size(fs[0]);
     && Placed(g, fs[0], lo, if |fs| == 1 then next else Some(Entry(fs[1], hi)))
     && PlacedSeq(g, fs[1..], hi, next))
  }

  predicate Placed(g: Graph, f: Fragment, lo: NodeId, next: Option<NodeId>)
    decreases f
  {
    match f
    case SBlock(stmts) => NodeIs(g, lo, Block(stmts), Onward(next))
    case SReturn(v) => NodeIs(g, lo, ReturnNode(v), Onward(next))
    case SBreak(l) => NodeIs(g, lo, BreakNode(l), Onward(next))
    case SContinue(l) => NodeIs(g, lo, ContinueNode(l), Onward(next))
    case SWhile(id, cond, body) =>
      && NodeIs(g, lo + 1, LoopFoot(id), Onward(next) + [Edge(BackEdge, lo)])
      && NodeIs(g, lo, LoopHead(id, cond), [Edge(TrueEdge, LoopTarget(body, lo)), Edge(FalseEdge, lo + 1)])
      && (body != [] ==>
            && ScopeOf(g, body, lo + 2, Some(lo + 1))
            && PlacedSeq(g, body, lo + 2, Some(lo + 2 + Sizes(body) + 1)))
    case SIf(arm) => PlacedArm(g, arm, lo, next)
  }

  /** The true edge of a loop head: its body's scope, or the foot when there is no body. */
  function LoopTarget(body: seq<Fragment>, lo: NodeId): NodeId {
    if body == [] then lo + 1 else lo + 2 + Sizes(body)
  }

  /** The scope nodes behind a block of `size` nodes at `lo`, with the block's first and last node. */
  predicate Scope(g: Graph, lo: NodeId, size: nat, entry: NodeId, exit: NodeId, next: Option<NodeId>) {
    && NodeIs(g, lo + size, EnterScope, [Edge(Normal, entry)])
    && NodeIs(g, lo + size + 1, ExitScope, Onward(next))
    && EnteredFrom(g, lo + size + 1, [exit])
  }

  predicate ScopeOf(g: Graph, fs: seq<Fragment>, lo: NodeId, next: Option<NodeId>) {
    Scope(g, lo, Sizes(fs), EntryOr(fs, lo, lo + Sizes(fs) + 1), ExitOr(fs, lo, lo + Sizes(fs)), next)
  }

  predicate PlacedArm(g: Graph, a: Arm, lo: NodeId, next: Option<NodeId>)
    decreases a, 1
  {
    var sp, mg := SplitOf(a, lo), MergeOf(a, lo);
    && NodeIs(g, mg, BranchMerge(a.id), Onward(next))
    && EnteredFrom(g, mg, [ElseExit(a.els, mg + 1, sp), lo + Sizes(a.thn) + 1])
    && ArmInside(g, a, lo)
  }

  /** Everything of an arm but its merge node. */
  predicate ArmInside(g: Graph, a: Arm, lo: NodeId)
    decreases a, 0
  {
    var sp, mg := SplitOf(a, lo), MergeOf(a, lo);
    && NodeIs(g, sp, BranchSplit(a.id, a.cond),
              [Edge(FalseEdge, ElseEntry(a.els, mg + 1, mg)), Edge(TrueEdge, lo + Sizes(a.thn))])
    && ScopeOf(g, a.thn, lo, Some(mg))
    && PlacedSeq(g, a.thn, lo, Some(lo + Sizes(a.thn) + 1))
    && PlacedElse(g, a.els, mg + 1, mg)
  }

  predicate PlacedElse(g: Graph, e: Else, lo: NodeId, merge: NodeId)
    decreases e
  {
    match e
    case NoElse => true
    case ElseBlock(b) => ScopeOf(g, b, lo, Some(merge)) && PlacedSeq(g, b, lo, Some(lo + Sizes(b) + 1))
    case ElseIf(a) => PlacedArm(g, a, lo, Some(merge))
  }

  function ElseEntry(e: Else, lo: NodeId, merge: NodeId): NodeId {
    match e
    case NoElse => merge
    case ElseBlock(b) => lo + Sizes(b)
    case ElseIf(a) => SplitOf(a, lo)
  }

  function ElseExit(e: Else, lo: NodeId, split: NodeId): NodeId {
    match e
    case NoElse => split
    case ElseBlock(b) => lo + Sizes(b) + 1
    case ElseIf(a) => MergeOf(a, lo)
  }

  // ---------------------------------------------------------------- changing the rest of the graph

  predicate Tracked(node: Node) { node.ExitScope? || node.BranchMerge? }

  /** Two graphs agree at a node, as far as placement looks at it. */
  predicate SameAt(g: Graph, g': Graph, n: NodeId) {
    GraphOk(g) && GraphOk(g') &&
    (n < |g.nodes| ==>
       && n < |g'.nodes| && g'.nodes[n] == g.nodes[n] && g'.out[n] == g.out[n]
       && (Tracked(g.nodes[n]) ==> g'.inc[n] == g.inc[n]))
  }

  ghost predicate Agree(g: Graph, g': Graph, lo: NodeId, hi: NodeId) {
    forall n :: lo <= n < hi ==> SameAt(g, g', n)
  }

  lemma {:induction false} FrameSeq(g: Graph, g': Graph, fs: seq<Fragment>, lo: NodeId, next: Option<NodeId>)
    requires PlacedSeq(g, fs, lo, next) && Agree(g, g', lo, lo + Sizes(fs))
    ensures PlacedSeq(g', fs, lo, next)
    decreases fs
  {
    if fs != [] {
      var hi := lo + Size(fs[0]);
      Frame(g, g', fs[0], lo, if |fs| == 1 then next else Some(Entry(fs[1], hi)));
      FrameSeq(g, g', fs[1..], hi, next);
    }
  }

  lemma {:induction false} Frame(g: Graph, g': Graph, f: Fragment, lo: NodeId, next: Option<NodeId>)
    requires Placed(g, f, lo, next) && Agree(g, g', lo, lo + Size(f))
    ensures Placed(g', f, lo, next)
    decreases f
  {
    hide PlacedSeq, PlacedArm, ScopeOf;
    match f {
      case SWhile(id, cond, body) =>
        assert SameAt(g, g', lo) && SameAt(g, g', lo + 1);
        if body != [] {
          FrameScope(g, g', body, lo + 2, Some(lo + 1));
          FrameSeq(g, g', body, lo + 2, Some(lo + 2 + Sizes(body) + 1));
        }
      case SIf(arm) => FrameArm(g, g', arm, lo, next);
      case _ => assert SameAt(g, g', lo);
    }
  }

  lemma FrameScope(g: Graph, g': Graph, fs: seq<Fragment>, lo: NodeId, next: Option<NodeId>)
    requires ScopeOf(g, fs, lo, next) && Agree(g, g', lo, lo + Sizes(fs) + 2)
    ensures ScopeOf(g', fs, lo, next)
  {
    assert SameAt(g, g', lo + Sizes(fs)) && SameAt(g, g', lo + Sizes(fs) + 1);
  }

  lemma {:induction false} FrameArm(g: Graph, g': Graph, a: Arm, lo: NodeId, next: Option<NodeId>)
    requires PlacedArm(g, a, lo, next) && Agree(g, g', lo, lo + ArmSize(a))
    ensures PlacedArm(g', a, lo, next)
    decreases a, 1
  {
    hide PlacedSeq, PlacedElse, Scope;
    assert SameAt(g, g', MergeOf(a, lo));
    FrameInside(g, g', a, lo);
  }

  lemma {:induction false} FrameInside(g: Graph, g': Graph, a: Arm, lo: NodeId)
    requires ArmInside(g, a, lo)
    requires forall n :: lo <= n < lo + ArmSize(a) && n != MergeOf(a, lo) ==> SameAt(g, g', n)
    ensures ArmInside(g', a, lo)
    decreases a, 0
  {
    hide PlacedSeq, PlacedElse, Scope, SameAt;
    var sp, mg := SplitOf(a, lo), MergeOf(a, lo);
    assert SameAt(g, g', sp);
    FrameNode(g, g', sp);
    FrameScope(g, g', a.thn, lo, Some(mg));
    FrameSeq(g, g', a.thn, lo, Some(lo + Sizes(a.thn) + 1));
    FrameElse(g, g', a.els, mg + 1, mg);
  }

  lemma FrameNode(g: Graph, g': Graph, n: NodeId)
    requires SameAt(g, g', n)
    ensures forall node, out :: NodeIs(g, n, node, out) ==> NodeIs(g', n, node, out)
  {
  }

  lemma {:induction false} FrameElse(g: Graph, g': Graph, e: Else, lo: NodeId, merge: NodeId)
    requires PlacedElse(g, e, lo, merge) && Agree(g, g', lo, lo + ElseSize(e))
    ensures PlacedElse(g', e, lo, merge)
    decreases e
  {
    match e {
      case NoElse =>
      case ElseBlock(b) =>
        FrameScope(g, g', b, lo, Some(merge));
        FrameSeq(g, g', b, lo, Some(lo + Sizes(b) + 1));
      case ElseIf(a) => FrameArm(g, g', a, lo, Some(merge));
    }
  }

  /** The last node of a fragment gets the edge it was missing, and nothing else in the fragment changes. */
  ghost predicate Connected(g: Graph, g': Graph, lo: NodeId, hi: NodeId, exit: NodeId, next: NodeId) {
    && GraphOk(g) && GraphOk(g') && exit < |g.nodes| && exit < |g'.nodes|
    && g'.nodes[exit] == g.nodes[exit] && g'.out[exit] == [Edge(Normal, next)] + g.out[exit]
    && (Tracked(g.nodes[exit]) ==> g'.inc[exit] == g.inc[exit])
    && forall n :: lo <= n < hi && n != exit ==> SameAt(g, g', n)
  }

  lemma ConnectFragment(g: Graph, g': Graph, f: Fragment, lo: NodeId, next: NodeId)
    requires Placed(g, f, lo, None) && Connected(g, g', lo, lo + Size(f), Exit(f, lo), next)
    ensures Placed(g', f, lo, Some(next))
  {
    hide PlacedSeq, PlacedArm, ScopeOf;
    match f {
      case SWhile(id, cond, body) =>
        assert SameAt(g, g', lo);
        if body != [] {
          FrameScope(g, g', body, lo + 2, Some(lo + 1));
          FrameSeq(g, g', body, lo + 2, Some(lo + 2 + Sizes(body) + 1));
        }
      case SIf(arm) => ConnectArm(g, g', arm, lo, next);
      case _ =>
    }
  }

  lemma ConnectArm(g: Graph, g': Graph, a: Arm, lo: NodeId, next: NodeId)
    requires PlacedArm(g, a, lo, None) && Connected(g, g', lo, lo + ArmSize(a), MergeOf(a, lo), next)
    ensures PlacedArm(g', a, lo, Some(next))
  {
    hide ArmInside;
    FrameInside(g, g', a, lo);
  }

  lemma {:induction false} ExitWithin(fs: seq<Fragment>, lo: NodeId, otherwise: NodeId)
    requires fs != []
    ensures lo <= ExitOr(fs, lo, otherwise) < lo + Sizes(fs)
    ensures ExitOr(fs, lo, otherwise) == ExitOr(fs, lo, 0)
    decreases fs
  {
    if |fs| > 1 {
      ExitWithin(fs[1..], lo + Size(fs[0]), otherwise);
    }
  }

  lemma {:induction false} ConnectSeq(g: Graph, g': Graph, fs: seq<Fragment>, lo: NodeId, next: NodeId)
    requires fs != [] && PlacedSeq(g, fs, lo, None)
    requires Connected(g, g', lo, lo + Sizes(fs), ExitOr(fs, lo, 0), next)
    ensures PlacedSeq(g', fs, lo, Some(next))
    decreases fs
  {
    var hi := lo + Size(fs[0]);
    if |fs| == 1 {
      assert Sizes(fs[1..]) == 0;
      ConnectFragment(g, g', fs[0], lo, next);
    } else {
      ExitWithin(fs[1..], hi, 0);
      Frame(g, g', fs[0], lo, Some(Entry(fs[1], hi)));
      ConnectSeq(g, g', fs[1..], hi, next);
    }
  }

  lemma {:induction false} SizesAppend(a: seq<Fragment>, b: seq<Fragment>)
    ensures Sizes(a + b) == Sizes(a) + Sizes(b)
  {
    if a == [] {
      assert a + b == b;
    } else {
      assert (a + b)[1..] == a[1..] + b;
      SizesAppend(a[1..], b);
    }
  }

  lemma {:induction false} ExitAppend(fs: seq<Fragment>, f: Fragment, lo: NodeId, otherwise: NodeId)
    ensures ExitOr(fs + [f], lo, otherwise) == Exit(f, lo + Sizes(fs))
    decreases fs
  {
    if fs != [] {
      assert (fs + [f])[1..] == fs[1..] + [f];
      ExitAppend(fs[1..], f, lo + Size(fs[0]), otherwise);
    }
  }

  /** One more fragment behind a placed sequence that already leads to it. */
  lemma {:induction false} PlacedAppend(g: Graph, fs: seq<Fragment>, f: Fragment, lo: NodeId)
    requires var hi := lo + Sizes(fs);
      PlacedSeq(g, fs, lo, Some(Entry(f, hi))) && Placed(g, f, hi, None)
    ensures PlacedSeq(g, fs + [f], lo, None)
    decreases fs
  {
    hide Placed, Size, Entry;
    var all := fs + [f];
    if fs == [] {
      assert all == [f];
    } else {
      assert all[1..] == fs[1..] + [f];
      PlacedAppend(g, fs[1..], f, lo + Size(fs[0]));
      if |fs| == 1 {
        assert all[1] == f;
      } else {
        assert all[1] == fs[1];
      }
    }
  }
}
