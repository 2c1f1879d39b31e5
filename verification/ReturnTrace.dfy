/** The backward search that demands a return at the end of every path through a function. */
module ReturnTrace {
  import opened Values
  import opened Syntax
  import opened ExprFlow
  import opened ControlFlow
  import opened Skeleton
  import opened CfgBuilder
  import opened Navigation

  // ---------------------------------------------------------------- which bodies always return

  /** The last statement returns, or is an `if` with an else all of whose branches return. */
  predicate Returns(stmts: seq<Stmt>)
    decreases stmts
  {
    stmts != [] && StmtReturns(stmts[|stmts| - 1])
  }

  predicate StmtReturns(s: Stmt)
    decreases s
  {
    match s
    case Return(_) => true
    case If(_, body, rest) => Returns(body) && ArmsReturn(rest)
    case _ => false
  }

  predicate ArmsReturn(a: Arms)
    decreases a
  {
    match a
    case NoMore => false
    case Default(b) => Returns(b)
    case Elif(_, b, rest) => Returns(b) && ArmsReturn(rest)
  }

  predicate FragmentReturns(f: Fragment)
    decreases f
  {
    match f
    case SReturn(_) => true
    case SIf(arm) => ArmReturns(arm)
    case _ => false
  }

  predicate FragmentsReturn(fs: seq<Fragment>)
    decreases fs
  {
    fs != [] && FragmentReturns(fs[|fs| - 1])
  }

  predicate ArmReturns(a: Arm)
    decreases a
  {
    FragmentsReturn(a.thn) && ElseReturns(a.els)
  }

  predicate ElseReturns(e: Else)
    decreases e
  {
    match e
    case NoElse => false
    case ElseBlock(b) => FragmentsReturn(b)
    case ElseIf(a) => ArmReturns(a)
  }

  lemma {:induction false} SkelReturns(stmts: seq<Stmt>, pending: seq<BlockNode>, n: nat, loop: nat)
    ensures FragmentsReturn(SkelOf(stmts, pending, n, loop).fragments) <==> Returns(stmts)
    decreases stmts, 0
  {
    hide StepOf, FragmentReturns, StmtReturns;
    if stmts == [] {
      FlushStays(pending);
    } else {
      var step := StepOf(stmts[0], n, loop);
      StepReturns(stmts[0], n, loop);
      SkelStep(stmts, pending, n, loop);
      if step.InBlock? {
        SkelReturns(stmts[1..], pending + [step.node], step.next, loop);
      } else {
        SkelReturns(stmts[1..], [], step.next, loop);
        var rest := SkelOf(stmts[1..], [], step.next, loop).fragments;
        var all := Flush(pending) + [step.fragment] + rest;
        if stmts[1..] == [] {
          assert rest == [];
          assert all[|all| - 1] == step.fragment;
        } else {
          SkelSome(stmts[1..], [], step.next, loop);
          assert all[|all| - 1] == rest[|rest| - 1];
        }
      }
    }
  }

  lemma FlushStays(pending: seq<BlockNode>)
    ensures !FragmentsReturn(Flush(pending))
  {
  }

  lemma {:induction false} SkelSome(stmts: seq<Stmt>, pending: seq<BlockNode>, n: nat, loop: nat)
    requires stmts != [] || pending != []
    ensures SkelOf(stmts, pending, n, loop).fragments != []
    decreases stmts
  {
    hide StepOf;
    if stmts != [] {
      SkelStep(stmts, pending, n, loop);
      var step := StepOf(stmts[0], n, loop);
      if step.InBlock? {
        SkelSome(stmts[1..], pending + [step.node], step.next, loop);
      }
    }
  }

  lemma {:induction false} StepReturns(s: Stmt, n: nat, loop: nat)
    ensures var step := StepOf(s, n, loop);
      if step.InBlock? then !StmtReturns(s) else FragmentReturns(step.fragment) <==> StmtReturns(s)
    decreases s, 1
  {
    hide SkelOf, Flatten, FragmentsReturn, Returns, FlattenAccess;
    match s {
      case If(cond, body, rest) =>
        var b := SkelOf(body, [], n, loop);
        SkelReturns(body, [], n, loop);
        ElseStepReturns(rest, Flatten(cond, b.next + 1).next, loop);
      case _ =>
    }
  }

  lemma {:induction false} ElseStepReturns(a: Arms, n: nat, loop: nat)
    ensures ElseReturns(SkelElseOf(a, n, loop).els) <==> ArmsReturn(a)
    decreases a, 0
  {
    hide SkelOf, Flatten, FragmentsReturn, Returns;
    match a {
      case NoMore =>
      case Default(b) => SkelReturns(b, [], n, loop);
      case Elif(cond, body, rest) =>
        var b := SkelOf(body, [], n, loop);
        SkelReturns(body, [], n, loop);
        ElseStepReturns(rest, Flatten(cond, b.next + 1).next, loop);
    }
  }

  // ---------------------------------------------------------------- the search

  /** What hangs above a node the search has still to look at. */
  datatype Target =
    | AfterFragment(fragment: Fragment, lo: NodeId, next: Option<NodeId>)
    | AfterScope(fs: seq<Fragment>, lo: NodeId, next: Option<NodeId>)
    | AtStart(node: NodeId)

  function NodeOf(t: Target): NodeId {
    match t
    case AfterFragment(f, lo, _) => Exit(f, lo)
    case AfterScope(fs, lo, _) => lo + Sizes(fs) + 1
    case AtStart(n) => n
  }

  ghost predicate TargetOk(g: Graph, t: Target) {
    match t
    case AfterFragment(f, lo, next) => Placed(g, f, lo, next)
    case AfterScope(fs, lo, next) => ScopeOf(g, fs, lo, next) && PlacedSeq(g, fs, lo, Some(lo + Sizes(fs) + 1))
    case AtStart(n) => GraphOk(g) && n < |g.nodes| && (g.nodes[n].EnterScope? || g.nodes[n].BranchSplit?)
  }

  predicate TargetReturns(t: Target) {
    match t
    case AfterFragment(f, _, _) => FragmentReturns(f)
    case AfterScope(fs, _, _) => FragmentsReturn(fs)
    case AtStart(_) => false
  }

  function Low(t: Target): NodeId { if t.AtStart? then t.node else t.lo }

  /** The nodes of a target are `Low(t) .. Low(t) + Work(t)`. */
  function Work(t: Target): (n: nat)
    ensures n >= 1
  {
    match t
    case AfterFragment(f, _, _) => Size(f)
    case AfterScope(fs, _, _) => Sizes(fs) + 2
    case AtStart(_) => 1
  }

  predicate Clear(t: Target, traced: set<NodeId>) {
    forall n :: n in traced ==> !(Low(t) <= n < Low(t) + Work(t))
  }

  predicate Disjoint(t: Target, u: Target) {
    Low(t) + Work(t) <= Low(u) || Low(u) + Work(u) <= Low(t)
  }

  function Total(ts: seq<Target>): nat {
    if ts == [] then 0 else Work(ts[|ts| - 1]) + Total(ts[..|ts| - 1])
  }

  /** The stack of the search: one target a node, no two of them sharing nodes, none of them looked at. */
  ghost predicate Pending(g: Graph, stack: seq<NodeId>, ts: seq<Target>, traced: set<NodeId>) {
    && |stack| == |ts|
    && (forall i :: 0 <= i < |ts| ==> stack[i] == NodeOf(ts[i]) && TargetOk(g, ts[i]) && Clear(ts[i], traced))
    && (forall i, j :: 0 <= i < j < |ts| ==> Disjoint(ts[i], ts[j]))
  }

  ghost predicate AllReturn(ts: seq<Target>) {
    forall i :: 0 <= i < |ts| ==> TargetReturns(ts[i])
  }

  /** What the search goes on to from a target, when it does. */
  function Further(t: Target): Option<seq<Target>> {
    match t
    case AfterFragment(SReturn(_), _, _) => Some([])
    case AfterFragment(SIf(a), lo, _) =>
      var mg := MergeOf(a, lo);
      Some([FalseSide(a.els, mg + 1, mg, SplitOf(a, lo)), AfterScope(a.thn, lo, Some(mg))])
    case AfterFragment(_, _, _) => None
    case AfterScope(fs, lo, _) => Some([LastTarget(fs, lo)])
    case AtStart(_) => None
  }

  function FalseSide(e: Else, lo: NodeId, merge: NodeId, split: NodeId): Target {
    match e
    case NoElse => AtStart(split)
    case ElseBlock(b) => AfterScope(b, lo, Some(merge))
    case ElseIf(a) => AfterFragment(SIf(a), lo, Some(merge))
  }

  function LastTarget(fs: seq<Fragment>, lo: NodeId): Target {
    if fs == [] then AtStart(lo + Sizes(fs))
    else AfterFragment(fs[|fs| - 1], lo + Sizes(fs[..|fs| - 1]), Some(lo + Sizes(fs) + 1))
  }

  lemma {:induction false} LastPlaced(g: Graph, fs: seq<Fragment>, lo: NodeId, next: Option<NodeId>)
    requires fs != [] && PlacedSeq(g, fs, lo, next)
    ensures var hi := lo + Sizes(fs[..|fs| - 1]);
      Placed(g, fs[|fs| - 1], hi, next) && ExitOr(fs, lo, 0) == Exit(fs[|fs| - 1], hi) && hi + Size(fs[|fs| - 1]) == lo + Sizes(fs)
    decreases fs
  {
    hide Placed, Size, Exit;
    if |fs| == 1 {
      assert Sizes(fs) == Size(fs[0]) + Sizes([]);
    } else {
      assert fs[1..][..|fs| - 2] == fs[..|fs| - 1][1..];
      LastPlaced(g, fs[1..], lo + Size(fs[0]), next);
    }
  }

  predicate Inside(t: Target, u: Target) { Low(u) <= Low(t) && Low(t) + Work(t) <= Low(u) + Work(u) }

  predicate Avoids(t: Target, n: NodeId) { !(Low(t) <= n < Low(t) + Work(t)) }

  /** Everything the search needs of one step from a target. */
  ghost predicate Splits(g: Graph, t: Target, ts: seq<Target>) {
    && (TargetReturns(t) <==> AllReturn(ts)) && Total(ts) + 1 <= Work(t)
    && (forall i :: 0 <= i < |ts| ==> TargetOk(g, ts[i]) && Inside(ts[i], t) && Avoids(ts[i], NodeOf(t)))
    && (forall i, j :: 0 <= i < j < |ts| ==> Disjoint(ts[i], ts[j]))
  }

  /** The nodes the search finds in front of a target's node are those it should go on to. */
  lemma TargetNode(g: Graph, t: Target)
    requires TargetOk(g, t)
    ensures var n := NodeOf(t);
      && GraphOk(g) && n < |g.nodes| && Low(t) <= n < Low(t) + Work(t)
      && match Further(t)
         case None => !g.nodes[n].ReturnNode? && !g.nodes[n].BranchMerge? && !g.nodes[n].ExitScope? && !TargetReturns(t)
         case Some(ts) =>
           Splits(g, t, ts) &&
             if ts == [] then g.nodes[n].ReturnNode?
             else (g.nodes[n].BranchMerge? || (g.nodes[n].ExitScope? && |ts| == 1)) && g.inc[n] == seq(|ts|, i requires 0 <= i < |ts| => NodeOf(ts[i]))
  {
    hide PlacedSeq;
    match t {
      case AfterFragment(SIf(a), lo, next) => MergeNode(g, a, lo, next);
      case AfterScope(fs, lo, next) => ScopeNode(g, fs, lo, next);
      case _ =>
    }
  }

  lemma MergeNode(g: Graph, a: Arm, lo: NodeId, next: Option<NodeId>)
    requires PlacedArm(g, a, lo, next)
    ensures var t := AfterFragment(SIf(a), lo, next);
      var ts := Further(t).value;
      && Splits(g, t, ts) && g.nodes[NodeOf(t)].BranchMerge? && NodeOf(t) < |g.nodes|
      && g.inc[NodeOf(t)] == [NodeOf(ts[0]), NodeOf(ts[1])] && |ts| == 2
  {
    hide PlacedSeq, ScopeOf, FragmentsReturn, PlacedElse, FalseSide;
    var mg, sp := MergeOf(a, lo), SplitOf(a, lo);
    assert ArmInside(g, a, lo) && PlacedElse(g, a.els, mg + 1, mg);
    var ts := [FalseSide(a.els, mg + 1, mg, sp), AfterScope(a.thn, lo, Some(mg))];
    FalseSideOk(g, a.els, mg + 1, mg, sp);
    TotalTwo(ts[0], ts[1]);
    assert AllReturn(ts) <==> TargetReturns(ts[0]) && TargetReturns(ts[1]);
    var t := AfterFragment(SIf(a), lo, next);
    assert Further(t) == Some(ts);
    assert FragmentReturns(SIf(a)) <==> ArmReturns(a);
    assert Size(SIf(a)) == ArmSize(a) == Sizes(a.thn) + 4 + ElseSize(a.els);
  }

  lemma FalseSideOk(g: Graph, e: Else, lo: NodeId, merge: NodeId, split: NodeId)
    requires PlacedElse(g, e, lo, merge) && GraphOk(g) && split < |g.nodes| && g.nodes[split].BranchSplit?
    ensures var t := FalseSide(e, lo, merge, split);
      && TargetOk(g, t) && NodeOf(t) == ElseExit(e, lo, split) && (TargetReturns(t) <==> ElseReturns(e))
      && Work(t) == (if e.NoElse? then 1 else ElseSize(e)) && Low(t) == (if e.NoElse? then split else lo)
  {
    hide PlacedSeq, ScopeOf, PlacedArm;
  }

  lemma TotalTwo(t: Target, u: Target)
    ensures Total([t, u]) == Work(t) + Work(u) && Total([t]) == Work(t)
  {
    assert Total([t]) == Work(t) + Total([]) by {
      assert [t][..0] == [];
    }
    assert [t, u][..1] == [t];
  }

  lemma ScopeNode(g: Graph, fs: seq<Fragment>, lo: NodeId, next: Option<NodeId>)
    requires TargetOk(g, AfterScope(fs, lo, next))
    ensures var t := AfterScope(fs, lo, next);
      var u := LastTarget(fs, lo);
      Splits(g, t, [u]) && g.nodes[NodeOf(t)].ExitScope? && g.inc[NodeOf(t)] == [NodeOf(u)]
  {
    hide PlacedSeq, Placed, FragmentReturns;
    var u := LastTarget(fs, lo);
    TotalTwo(u, u);
    if fs != [] {
      LastPlaced(g, fs, lo, Some(lo + Sizes(fs) + 1));
      ExitWithin(fs, lo, lo + Sizes(fs));
    }
    assert AllReturn([u]) <==> TargetReturns(u);
  }

  lemma {:induction false} TotalAppend(a: seq<Target>, b: seq<Target>)
    ensures Total(a + b) == Total(a) + Total(b)
  {
    if b == [] {
      assert a + b == a;
    } else {
      assert (a + b)[..|a + b| - 1] == a + b[..|b| - 1];
      TotalAppend(a, b[..|b| - 1]);
    }
  }

  /** Popping a target and pushing what it leads to. */
  lemma PendingStep(g: Graph, stack: seq<NodeId>, ts: seq<Target>, traced: set<NodeId>, us: seq<Target>, more: seq<NodeId>)
    requires Pending(g, stack, ts, traced) && ts != [] && Splits(g, ts[|ts| - 1], us)
    requires |more| == |us| && forall i :: 0 <= i < |us| ==> more[i] == NodeOf(us[i])
    ensures var k := |ts| - 1; Pending(g, stack[..k] + more, ts[..k] + us, traced + {stack[k]})
  {
    hide TargetOk, TargetReturns, NodeOf, Work, Low, AllReturn, Total;
    var k := |ts| - 1;
    var t, ts' := ts[k], ts[..k] + us;
    var stack', traced' := stack[..k] + more, traced + {stack[k]};
    TargetNode(g, t);
    forall i | 0 <= i < |ts'| ensures stack'[i] == NodeOf(ts'[i]) && TargetOk(g, ts'[i]) && Clear(ts'[i], traced') {
      if i < k {
        assert Disjoint(ts[i], t) && Clear(ts[i], traced);
      } else {
        assert Inside(us[i - k], t) && Avoids(us[i - k], NodeOf(t)) && Clear(t, traced);
      }
    }
    forall i, j | 0 <= i < j < |ts'| ensures Disjoint(ts'[i], ts'[j]) {
      if j < k {
        assert Disjoint(ts[i], ts[j]);
      } else if i < k {
        assert Disjoint(ts[i], t) && Inside(us[j - k], t);
      } else {
        assert Disjoint(us[i - k], us[j - k]);
      }
    }
  }

  lemma ReturnsStep(g: Graph, ts: seq<Target>, us: seq<Target>)
    requires ts != [] && Splits(g, ts[|ts| - 1], us)
    ensures var ts' := ts[..|ts| - 1] + us; Total(ts') + 1 <= Total(ts) && (AllReturn(ts) <==> AllReturn(ts'))
  {
    hide TargetOk, TargetReturns, NodeOf, Work;
    var k := |ts| - 1;
    var t, rest, ts' := ts[k], ts[..k], ts[..k] + us;
    TotalAppend(rest, us);
    if AllReturn(ts) {
      assert AllReturn(us) by { assert TargetReturns(ts[k]); }
      forall i | 0 <= i < |ts'| ensures TargetReturns(ts'[i]) {
        assert i < k ==> TargetReturns(ts[i]);
      }
    }
    if AllReturn(ts') {
      forall i | 0 <= i < |us| ensures TargetReturns(us[i]) {
        assert TargetReturns(ts'[k + i]);
      }
      forall i | 0 <= i < |ts| ensures TargetReturns(ts[i]) {
        assert i < k ==> TargetReturns(ts'[i]);
      }
    }
  }

  datatype Check = Fine | More(nodes: seq<NodeId>) | Missing

  /** What one node says about the paths through it. */
  method ReturnCheckId(g: Graph, id: NodeId) returns (r: Check)
    requires GraphOk(g) && id < |g.nodes| && (g.nodes[id].ExitScope? ==> |g.inc[id]| == 1)
    ensures r == match g.nodes[id]
                 case ReturnNode(_) => Fine
                 case BranchMerge(_) => More(g.inc[id])
                 case ExitScope => More(g.inc[id])
                 case _ => Missing
  {
    match g.nodes[id] {
      case ReturnNode(_) =>
        r := Fine;
      case BranchMerge(_) =>
        r := More(g.inc[id]);
      case ExitScope =>
        var previous := Previous(g, id);
        r := More([previous.value]);
      case _ =>
        r := Missing;
    }
  }

  /** The search from the end of a function.  It accepts exactly the bodies that return on every path, or that
      got their return appended, and never gives up before its stack is empty. */
  method CheckReturnsForm(g: Graph, end: NodeId, ghost fs: seq<Fragment>, ghost returnsUnit: bool) returns (ok: bool)
    requires WholeGraph(g, fs, returnsUnit) && end == 1
    ensures ok <==> returnsUnit || FragmentsReturn(fs)
  {
    hide TargetReturns, PlacedSeq, FragmentsReturn, Splits, Pending, Further;
    var scopeExit := Previous(g, end);
    var unknown := Previous(g, scopeExit.value);
    ghost var ts := [LastOfFunction(fs, returnsUnit)];
    LastOfFunctionOk(g, fs, returnsUnit);
    var traced: set<NodeId> := {};
    var nodeStack := [unknown.value];
    assert ts[..0] == [];
    for k := 0 to |g.nodes|
      invariant Pending(g, nodeStack, ts, traced) && k + Total(ts) + 1 <= |g.nodes|
      invariant AllReturn(ts) <==> returnsUnit || FragmentsReturn(fs)
    {
      if nodeStack == [] {
        assert ts == [] by { PendingSize(g, nodeStack, ts, traced); }
        return true;
      }
      PendingTop(g, nodeStack, ts, traced);
      ghost var stack := nodeStack;
      var id := nodeStack[|nodeStack| - 1];
      nodeStack := nodeStack[..|nodeStack| - 1];
      ghost var t := ts[|ts| - 1];
      if id !in traced {
        ghost var before := traced;
        traced := traced + {id};
        TargetNode(g, t);
        var check := ReturnCheckId(g, id);
        match check {
          case Missing =>
            return false;
          case Fine =>
            PendingStep(g, stack, ts, before, [], []);
            ReturnsStep(g, ts, []);
            assert nodeStack + [] == nodeStack;
            ts := ts[..|ts| - 1] + [];
          case More(nodes) =>
            ghost var us := Further(t).value;
            PendingStep(g, stack, ts, before, us, nodes);
            ReturnsStep(g, ts, us);
            nodeStack := nodeStack + nodes;
            ts := ts[..|ts| - 1] + us;
        }
      }
    }
    assert false;
  }

  function LastOfFunction(fs: seq<Fragment>, returnsUnit: bool): Target {
    if returnsUnit then AfterFragment(SReturn(None), 2 + Sizes(fs) + 1, Some(2 + Sizes(fs) + 2)) else LastTarget(fs, 2)
  }

  lemma LastOfFunctionOk(g: Graph, fs: seq<Fragment>, returnsUnit: bool)
    requires WholeGraph(g, fs, returnsUnit)
    ensures var t := LastOfFunction(fs, returnsUnit);
      && |g.inc[1]| == 1 && |g.inc[g.inc[1][0]]| == 1 && NodeOf(t) == g.inc[g.inc[1][0]][0]
      && Pending(g, [NodeOf(t)], [t], {}) && Total([t]) + 1 <= |g.nodes|
      && (AllReturn([t]) <==> returnsUnit || FragmentsReturn(fs))
  {
    hide PlacedSeq, Placed, FragmentReturns;
    var t := LastOfFunction(fs, returnsUnit);
    TotalTwo(t, t);
    if !returnsUnit && fs != [] {
      LastPlaced(g, fs, 2, Some(2 + Sizes(fs) + 1));
      ExitWithin(fs, 2, 2 + Sizes(fs));
    }
    if returnsUnit {
      ReturnPlaced(g, t.lo, t.next);
    }
    assert AllReturn([t]) <==> TargetReturns(t);
  }

  lemma ReturnPlaced(g: Graph, lo: NodeId, next: Option<NodeId>)
    requires NodeIs(g, lo, ReturnNode(None), Onward(next))
    ensures Placed(g, SReturn(None), lo, next) && FragmentReturns(SReturn(None)) && Size(SReturn(None)) == 1
  {
  }

  lemma PendingSize(g: Graph, stack: seq<NodeId>, ts: seq<Target>, traced: set<NodeId>)
    requires Pending(g, stack, ts, traced)
    ensures |stack| == |ts|
  {
  }

  lemma PendingTop(g: Graph, stack: seq<NodeId>, ts: seq<Target>, traced: set<NodeId>)
    requires Pending(g, stack, ts, traced) && stack != []
    ensures |ts| == |stack|
    ensures var t := ts[|ts| - 1]; TargetOk(g, t) && NodeOf(t) == stack[|stack| - 1] && NodeOf(t) !in traced
  {
    TargetNode(g, ts[|ts| - 1]);
  }
}
