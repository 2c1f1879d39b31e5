/** From statements to graph fragments, and from fragments to the frames of the first pass. */
module Skeleton {
  import opened Values
  import opened Syntax
  import opened ByteCode
  import opened ExprFlow
  import opened ByteExpr
  import opened Frames
  import opened ControlFlow

  datatype Skel = Skel(fragments: seq<Fragment>, next: nat)

  datatype SkelElse = SkelElse(els: Else, next: nat)

  function Flush(pending: seq<BlockNode>): seq<Fragment> {
    if pending == [] then [] else [SBlock(pending)]
  }

  /** What one statement contributes: a node of the current basic block, or a fragment of its own. */
  datatype Step = InBlock(node: BlockNode, next: nat) | Apart(fragment: Fragment, next: nat)

  function StepOf(s: Stmt, n: nat, loop: nat): Step
    decreases s
  {
    match s
    case ExprStmt(e) =>
      var f := Flatten(e, n);
      InBlock(ExprNode(f), f.next)
    case Local(x, e) =>
      var f := Flatten(e, n);
      InBlock(LocalNode(x, f), f.next + 1)
    case Assign(root, rootIndex, path, value) =>
      var a := FlattenAccess(root, rootIndex, path, n);
      var f := Flatten(value, a.next);
      InBlock(AssignNode(a.access, f), f.next)
    case Return(None) => Apart(SReturn(None), n)
    case Return(Some(e)) =>
      var f := Flatten(e, n);
      Apart(SReturn(Some(f)), f.next)
    case Break => Apart(SBreak(loop), n)
    case Continue => Apart(SContinue(loop), n)
    case While(cond, body) =>
      var f := Flatten(cond, n + 1);
      var b := SkelOf(body, [], f.next, n);
      Apart(SWhile(n, f, b.fragments), b.next)
    case If(cond, body, rest) =>
      var b := SkelOf(body, [], n, loop);
      var f := Flatten(cond, b.next + 1);
      var r := SkelElseOf(rest, f.next, loop);
      Apart(SIf(Arm(b.next, f, b.fragments, r.els)), r.next)
  }

  /** The fragments of a statement list whose last plain statements are still `pending` in the current basic block. */
  function SkelOf(stmts: seq<Stmt>, pending: seq<BlockNode>, n: nat, loop: nat): Skel
    decreases stmts
  {
    if stmts == [] then Skel(Flush(pending), n)
    else
      var step := StepOf(stmts[0], n, loop);
      if step.InBlock? then SkelOf(stmts[1..], pending + [step.node], step.next, loop)
      else Cons(pending, step.fragment, SkelOf(stmts[1..], [], step.next, loop))
  }

  function Cons(pending: seq<BlockNode>, f: Fragment, rest: Skel): Skel {
    Skel(Flush(pending) + [f] + rest.fragments, rest.next)
  }

  function SkelElseOf(a: Arms, n: nat, loop: nat): SkelElse
    decreases a
  {
    match a
    case NoMore => SkelElse(NoElse, n)
    case Default(b) =>
      var s := SkelOf(b, [], n, loop);
      SkelElse(ElseBlock(s.fragments), s.next)
    case Elif(cond, body, rest) =>
      var b := SkelOf(body, [], n, loop);
      var f := Flatten(cond, b.next + 1);
      var r := SkelElseOf(rest, f.next, loop);
      SkelElse(ElseIf(Arm(b.next, f, b.fragments, r.els)), r.next)
  }

  // ---------------------------------------------------------------- the frames fragments stand for

  function NodeItems(b: BlockNode): seq<Item> {
    match b
    case ExprNode(e) => PlainItems(ExprCode(e))
    case AssignNode(a, v) => PlainItems(AssignCode(a, v))
    case LocalNode(x, e) => PlainItems(LocalCode(x, e))
  }

  function NodesItems(bs: seq<BlockNode>): seq<Item> {
    if bs == [] then [] else NodeItems(bs[0]) + NodesItems(bs[1..])
  }

  function FragmentItems(f: Fragment): seq<Item> {
    match f
    case SBlock(bs) => NodesItems(bs)
    case SReturn(None) => [Plain(Instruction.Return(None))]
    case SReturn(Some(v)) => PlainItems(ReturnCode(v))
    case SBreak(l) => [BreakItem(l)]
    case SContinue(l) => [ContinueItem(l)]
    case SWhile(id, cond, body) => [Loop(id, ExprCode(cond), TmpArg(ResultId(cond)), FragmentsItems(body))]
    case SIf(arm) => [ArmItem(arm)]
  }

  function FragmentsItems(fs: seq<Fragment>): seq<Item> {
    if fs == [] then [] else FragmentItems(fs[0]) + FragmentsItems(fs[1..])
  }

  function ArmItem(a: Arm): Item {
    Branch(a.id, ExprCode(a.cond), TmpArg(ResultId(a.cond)), FragmentsItems(a.thn), ElseItems(a.els))
  }

  function ElseItems(e: Else): seq<Item> {
    match e
    case NoElse => []
    case ElseBlock(b) => FragmentsItems(b)
    case ElseIf(a) => [ArmItem(a)]
  }

  lemma {:induction false} NodesItemsAppend(bs: seq<BlockNode>, b: BlockNode)
    ensures NodesItems(bs + [b]) == NodesItems(bs) + NodeItems(b)
  {
    if bs == [] {
      assert NodesItems([b]) == NodeItems(b) + NodesItems([]);
      assert bs + [b] == [b];
    } else {
      assert (bs + [b])[1..] == bs[1..] + [b];
      NodesItemsAppend(bs[1..], b);
    }
  }

  lemma {:induction false} FragmentsItemsAppend(a: seq<Fragment>, b: seq<Fragment>)
    ensures FragmentsItems(a + b) == FragmentsItems(a) + FragmentsItems(b)
  {
    if a == [] {
      assert a + b == b;
    } else {
      assert (a + b)[1..] == a[1..] + b;
      FragmentsItemsAppend(a[1..], b);
    }
  }

  lemma ConsItems(pending: seq<BlockNode>, f: Fragment, rest: Skel)
    ensures FragmentsItems(Cons(pending, f, rest).fragments)
         == NodesItems(pending) + (FragmentItems(f) + FragmentsItems(rest.fragments))
  {
    hide FragmentItems;
    FlushItems(pending);
    assert Cons(pending, f, rest).fragments == Flush(pending) + ([f] + rest.fragments);
    FragmentsItemsAppend(Flush(pending), [f] + rest.fragments);
  }

  lemma FlushItems(pending: seq<BlockNode>)
    ensures FragmentsItems(Flush(pending)) == NodesItems(pending)
  {
    hide NodesItems;
    if pending == [] {
      assert NodesItems([]) == [] by { NoNodes(); }
    } else {
      assert FragmentsItems([SBlock(pending)]) == FragmentItems(SBlock(pending)) + FragmentsItems([]);
    }
  }

  lemma NoNodes()
    ensures NodesItems([]) == []
  {
  }

  /** Cutting a body into basic blocks and fragments does not show in its code, nor in its identifiers. */
  lemma {:induction false} SkelItems(stmts: seq<Stmt>, pending: seq<BlockNode>, n: nat, loop: nat)
    ensures var s := SkelOf(stmts, pending, n, loop);
      var c := BlockCode(stmts, n, loop);
      FragmentsItems(s.fragments) == NodesItems(pending) + c.items && s.next == c.next
    decreases stmts, 0
  {
    hide NodesItems, FragmentsItems, FragmentItems, NodeItems, StmtCode;
    if stmts == [] {
      FlushItems(pending);
    } else {
      var c := StmtCode(stmts[0], n, loop);
      var step := StepOf(stmts[0], n, loop);
      StepItems(stmts[0], n, loop);
      if step.InBlock? {
        SkelItems(stmts[1..], pending + [step.node], c.next, loop);
        NodesItemsAppend(pending, step.node);
      } else {
        SkelBody(stmts[1..], c.next, loop);
        ConsItems(pending, step.fragment, SkelOf(stmts[1..], [], c.next, loop));
      }
    }
  }

  lemma SkelBody(stmts: seq<Stmt>, n: nat, loop: nat)
    ensures var s := SkelOf(stmts, [], n, loop);
      var c := BlockCode(stmts, n, loop);
      FragmentsItems(s.fragments) == c.items && s.next == c.next
    decreases stmts, 1
  {
    hide *;
    SkelItems(stmts, [], n, loop);
    NoNodes();
    assert [] + BlockCode(stmts, n, loop).items == BlockCode(stmts, n, loop).items;
  }

  lemma {:induction false} StepItems(s: Stmt, n: nat, loop: nat)
    ensures var c := StmtCode(s, n, loop);
      var step := StepOf(s, n, loop);
      step.next == c.next && c.items == if step.InBlock? then NodeItems(step.node) else FragmentItems(step.fragment)
    decreases s, 1
  {
    hide NodesItems, FragmentsItems, Flatten, TranslateExpr, SkelOf, BlockCode;
    match s {
      case While(cond, body) => SkelBody(body, Flatten(cond, n + 1).next, n);
      case If(cond, body, arms) =>
        SkelBody(body, n, loop);
        SkelElseItems(arms, Flatten(cond, BlockCode(body, n, loop).next + 1).next, loop);
      case _ =>
    }
  }

  lemma {:induction false} SkelElseItems(a: Arms, n: nat, loop: nat)
    ensures var s := SkelElseOf(a, n, loop);
      var c := ArmsCode(a, n, loop);
      ElseItems(s.els) == c.items && s.next == c.next
    decreases a, 0
  {
    hide NodesItems, FragmentsItems, Flatten, TranslateExpr, SkelOf, BlockCode;
    match a {
      case NoMore =>
      case Default(b) => SkelBody(b, n, loop);
      case Elif(cond, body, rest) =>
        SkelBody(body, n, loop);
        SkelElseItems(rest, Flatten(cond, BlockCode(body, n, loop).next + 1).next, loop);
    }
  }
}
