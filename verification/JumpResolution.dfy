/** Break and continue: what resolution is meant to make of them, and what it makes of them as written. */
module JumpResolution {
  import opened Values
  import opened Syntax
  import opened ByteCode
  import opened ExprFlow
  import opened Frames
  import opened FrameFacts
  import opened SecondPass
  import opened ThirdPass
  import opened Layout

  // ---------------------------------------------------------------- jumps belong to an enclosing loop

  predicate Enclosed(items: seq<Item>, open: set<nat>) {
    items == [] || (ItemEnclosed(items[0], open) && Enclosed(items[1..], open))
  }

  predicate ItemEnclosed(x: Item, open: set<nat>) {
    match x
    case Plain(_) => true
    case ContinueItem(id) => id in open
    case BreakItem(id) => id in open
    case Loop(id, _, _, body) => Enclosed(body, open + {id})
    case Branch(_, _, _, thn, els) => Enclosed(thn, open) && Enclosed(els, open)
  }

  lemma {:induction false} EnclosedAppend(a: seq<Item>, b: seq<Item>, open: set<nat>)
    ensures Enclosed(a + b, open) <==> Enclosed(a, open) && Enclosed(b, open)
  {
    hide ItemEnclosed;
    if a == [] {
      assert a + b == b;
    } else {
      assert (a + b)[1..] == a[1..] + b;
      EnclosedAppend(a[1..], b, open);
    }
  }

  lemma {:induction false} EnclosedMore(items: seq<Item>, open: set<nat>, more: set<nat>)
    requires Enclosed(items, open) && open <= more
    ensures Enclosed(items, more)
  {
    if items != [] {
      match items[0] {
        case Loop(id, _, _, body) => EnclosedMore(body, open + {id}, more + {id});
        case Branch(_, _, _, thn, els) =>
          EnclosedMore(thn, open, more);
          EnclosedMore(els, open, more);
        case _ =>
      }
      EnclosedMore(items[1..], open, more);
    }
  }

  lemma {:induction false} EnclosedPlain(code: seq<Instruction>, open: set<nat>)
    ensures Enclosed(PlainItems(code), open)
  {
    if code != [] {
      assert PlainItems(code)[1..] == PlainItems(code[1..]);
      EnclosedPlain(code[1..], open);
    }
  }

  lemma EnclosedOne(x: Item, open: set<nat>)
    ensures Enclosed([x], open) <==> ItemEnclosed(x, open)
  {
    hide ItemEnclosed;
    assert [x][1..] == [];
  }

  function OpenAt(inLoop: bool, loop: nat): set<nat> { if inLoop then {loop} else {} }

  lemma {:induction false} BlockEnclosed(stmts: seq<Stmt>, n: nat, loop: nat, inLoop: bool)
    requires JumpsInLoops(stmts, inLoop)
    ensures Enclosed(BlockCode(stmts, n, loop).items, OpenAt(inLoop, loop))
    decreases stmts
  {
    hide StmtCode, StmtJumpsInLoops, OpenAt;
    if stmts != [] {
      var c := StmtCode(stmts[0], n, loop);
      StmtEnclosed(stmts[0], n, loop, inLoop);
      BlockEnclosed(stmts[1..], c.next, loop, inLoop);
      EnclosedAppend(c.items, BlockCode(stmts[1..], c.next, loop).items, OpenAt(inLoop, loop));
    }
  }

  lemma {:induction false} StmtEnclosed(s: Stmt, n: nat, loop: nat, inLoop: bool)
    requires StmtJumpsInLoops(s, inLoop)
    ensures Enclosed(StmtCode(s, n, loop).items, OpenAt(inLoop, loop))
    decreases s
  {
    hide Enclosed, Flatten, BlockCode, ArmsCode, ExprCode, LocalCode, AssignCode, ReturnCode, FlattenAccess, JumpsInLoops;
    var items, open := StmtCode(s, n, loop).items, OpenAt(inLoop, loop);
    match s {
      case ExprStmt(e) => EnclosedPlain(ExprCode(Flatten(e, n)), open);
      case Local(x, e) => EnclosedPlain(LocalCode(x, Flatten(e, n)), open);
      case Assign(root, rootIndex, path, value) =>
        var a := FlattenAccess(root, rootIndex, path, n);
        EnclosedPlain(AssignCode(a.access, Flatten(value, a.next)), open);
      case Return(Some(e)) => EnclosedPlain(ReturnCode(Flatten(e, n)), open);
      case While(cond, body) =>
        var f := Flatten(cond, n + 1);
        BlockEnclosed(body, f.next, n, true);
        EnclosedMore(BlockCode(body, f.next, n).items, {n}, open + {n});
        EnclosedOne(items[0], open);
      case If(cond, body, rest) =>
        BlockEnclosed(body, n, loop, inLoop);
        ArmsEnclosed(rest, Flatten(cond, BlockCode(body, n, loop).next + 1).next, loop, inLoop);
        EnclosedOne(items[0], open);
      case _ => EnclosedOne(items[0], open);
    }
  }

  lemma {:induction false} ArmsEnclosed(a: Arms, n: nat, loop: nat, inLoop: bool)
    requires ArmsJumpsInLoops(a, inLoop)
    ensures Enclosed(ArmsCode(a, n, loop).items, OpenAt(inLoop, loop))
    decreases a
  {
    hide Flatten, BlockCode, ExprCode, JumpsInLoops;
    match a {
      case NoMore =>
      case Default(b) => BlockEnclosed(b, n, loop, inLoop);
      case Elif(cond, body, rest) =>
        BlockEnclosed(body, n, loop, inLoop);
        ArmsEnclosed(rest, Flatten(cond, BlockCode(body, n, loop).next + 1).next, loop, inLoop);
        EnclosedOne(ArmsCode(a, n, loop).items[0], OpenAt(inLoop, loop));
    }
  }

  // ---------------------------------------------------------------- and so their loop begins before them

  predicate IsJump(x: Partial) { x.ContinueTo? || x.BreakTo? }

  /** Every jump is to a loop that began earlier, or to one of the open ones. */
  ghost predicate Led(xs: seq<Partial>, open: set<nat>) {
    forall i :: 0 <= i < |xs| && IsJump(xs[i]) ==> xs[i].id in open || LoopBegin(xs[i].id) in xs[..i]
  }

  lemma LedAppend(a: seq<Partial>, b: seq<Partial>, open: set<nat>)
    requires Led(a, open) && Led(b, open)
    ensures Led(a + b, open)
  {
    var xs := a + b;
    forall i | 0 <= i < |xs| && IsJump(xs[i]) ensures xs[i].id in open || LoopBegin(xs[i].id) in xs[..i] {
      if i < |a| {
        assert xs[..i] == a[..i];
      } else {
        assert xs[..i] == a + b[..i - |a|];
      }
    }
  }

  lemma LedPlain(code: seq<Instruction>, open: set<nat>)
    ensures Led(Instrs(code), open)
  {
  }

  lemma LedLoop(id: nat, cond: seq<Instruction>, result: Arg, body: seq<Partial>, open: set<nat>)
    requires Led(body, open + {id})
    ensures Led(LoopShape(id, cond, result, body), open)
  {
    var enter := [Instr(RelJumpNegateCondition(Len(body) + 2, result))];
    var back := [Instr(RelJump(-(Len(body) + |cond|) - 1))];
    var inner := Instrs(cond) + enter + body + back + [LoopEnd(id)];
    LedAppend(Instrs(cond), enter, open + {id});
    LedAppend(Instrs(cond) + enter, body, open + {id});
    LedAppend(Instrs(cond) + enter + body, back, open + {id});
    LedAppend(Instrs(cond) + enter + body + back, [LoopEnd(id)], open + {id});
    var xs := [LoopBegin(id)] + inner;
    assert xs == LoopShape(id, cond, result, body);
    forall i | 0 <= i < |xs| && IsJump(xs[i]) ensures xs[i].id in open || LoopBegin(xs[i].id) in xs[..i] {
      assert xs[..i] == [LoopBegin(id)] + inner[..i - 1];
      assert IsJump(inner[i - 1]);
    }
  }

  lemma LedBranch(cond: seq<Instruction>, result: Arg, thn: seq<Partial>, els: seq<Partial>, open: set<nat>)
    requires Led(thn, open) && Led(els, open)
    ensures Led(BranchShape(cond, result, thn, els), open)
  {
    var enter := [Instr(RelJumpCondition(Len(els) + 2, result))];
    var skip := [Instr(RelJump(Len(thn) + 1))];
    LedAppend(Instrs(cond), enter, open);
    LedAppend(Instrs(cond) + enter, els, open);
    LedAppend(Instrs(cond) + enter + els, skip, open);
    LedAppend(Instrs(cond) + enter + els + skip, thn, open);
  }

  lemma {:induction false} InlineLed(items: seq<Item>, open: set<nat>)
    requires Enclosed(items, open)
    ensures Led(Inline(items), open)
    decreases items
  {
    hide Led, LoopShape, BranchShape;
    if items == [] {
      LedPlain([], open);
      assert Inline([]) == Instrs([]);
    } else {
      ItemLed(items[0], open);
      InlineLed(items[1..], open);
      LedAppend(InlineItem(items[0]), Inline(items[1..]), open);
    }
  }

  lemma {:induction false} ItemLed(x: Item, open: set<nat>)
    requires ItemEnclosed(x, open)
    ensures Led(InlineItem(x), open)
    decreases x
  {
    hide Enclosed, Inline, LoopShape, BranchShape;
    match x {
      case Loop(id, cond, result, body) =>
        InlineLed(body, open + {id});
        LedLoop(id, cond, result, Inline(body), open);
      case Branch(_, cond, result, thn, els) =>
        InlineLed(thn, open);
        InlineLed(els, open);
        LedBranch(cond, result, Inline(thn), Inline(els), open);
      case _ =>
    }
  }

  // ---------------------------------------------------------------- jumps survive inlining

  predicate AnyBreakTo(xs: seq<Partial>) { exists i :: 0 <= i < |xs| && xs[i].BreakTo? }

  predicate AnyContinueTo(xs: seq<Partial>) { exists i :: 0 <= i < |xs| && xs[i].ContinueTo? }

  lemma AnyAppend(a: seq<Partial>, b: seq<Partial>)
    ensures AnyBreakTo(a + b) <==> AnyBreakTo(a) || AnyBreakTo(b)
    ensures AnyContinueTo(a + b) <==> AnyContinueTo(a) || AnyContinueTo(b)
  {
    var xs := a + b;
    forall i | 0 <= i < |a| ensures xs[i] == a[i] {
    }
    forall i | 0 <= i < |b| ensures xs[|a| + i] == b[i] {
    }
  }

  lemma AnyLoop(id: nat, cond: seq<Instruction>, result: Arg, body: seq<Partial>)
    ensures var xs := LoopShape(id, cond, result, body);
      (AnyBreakTo(xs) <==> AnyBreakTo(body)) && (AnyContinueTo(xs) <==> AnyContinueTo(body))
  {
    hide AnyBreakTo, AnyContinueTo;
    var head := [LoopBegin(id)] + Instrs(cond) + [Instr(RelJumpNegateCondition(Len(body) + 2, result))];
    var tail := [Instr(RelJump(-(Len(body) + |cond|) - 1)), LoopEnd(id)];
    assert LoopShape(id, cond, result, body) == head + body + tail;
    AnyAppend(head, body);
    AnyAppend(head + body, tail);
    AnyNot(head);
    AnyNot(tail);
  }

  lemma AnyBranch(cond: seq<Instruction>, result: Arg, thn: seq<Partial>, els: seq<Partial>)
    ensures var xs := BranchShape(cond, result, thn, els);
      && (AnyBreakTo(xs) <==> AnyBreakTo(thn) || AnyBreakTo(els))
      && (AnyContinueTo(xs) <==> AnyContinueTo(thn) || AnyContinueTo(els))
  {
    hide AnyBreakTo, AnyContinueTo;
    var head := Instrs(cond) + [Instr(RelJumpCondition(Len(els) + 2, result))];
    var skip := [Instr(RelJump(Len(thn) + 1))];
    AnyAppend(head, els);
    AnyAppend(head + els, skip);
    AnyAppend(head + els + skip, thn);
    AnyNot(head);
    AnyNot(skip);
  }

  lemma AnyNot(xs: seq<Partial>)
    requires forall i :: 0 <= i < |xs| ==> !IsJump(xs[i])
    ensures !AnyBreakTo(xs) && !AnyContinueTo(xs)
  {
  }

  lemma {:induction false} InlineAny(items: seq<Item>)
    ensures AnyBreakTo(Inline(items)) <==> HasBreak(items)
    ensures AnyContinueTo(Inline(items)) <==> HasContinue(items)
    decreases items
  {
    hide AnyBreakTo, AnyContinueTo, InlineItem, ItemBreaks, ItemContinues;
    if items == [] {
      AnyNot([]);
    } else {
      ItemAny(items[0]);
      InlineAny(items[1..]);
      AnyAppend(InlineItem(items[0]), Inline(items[1..]));
    }
  }

  lemma {:induction false} ItemAny(x: Item)
    ensures AnyBreakTo(InlineItem(x)) <==> ItemBreaks(x)
    ensures AnyContinueTo(InlineItem(x)) <==> ItemContinues(x)
    decreases x
  {
    hide Inline, LoopShape, BranchShape, HasBreak, HasContinue;
    match x {
      case Loop(id, cond, result, body) =>
        InlineAny(body);
        AnyLoop(id, cond, result, Inline(body));
      case Branch(_, cond, result, thn, els) =>
        InlineAny(thn);
        InlineAny(els);
        AnyBranch(cond, result, Inline(thn), Inline(els));
      case ContinueItem(_) => assert InlineItem(x)[0].ContinueTo?;
      case BreakItem(_) => assert InlineItem(x)[0].BreakTo?;
      case _ =>
    }
  }

  // ---------------------------------------------------------------- the pass as written

  lemma LedBegin(xs: seq<Partial>, i: nat)
    requires Led(xs, {}) && i < |xs| && IsJump(xs[i])
    ensures IndexOf(xs, LoopBegin(xs[i].id)) < i
  {
    assert LoopBegin(xs[i].id) in xs[..i];
    var j :| 0 <= j < i && xs[j] == LoopBegin(xs[i].id);
  }

  lemma {:induction false} PosMonotone(xs: seq<Partial>, i: nat, j: nat)
    requires i <= j <= |xs|
    ensures Pos(xs, i) <= Pos(xs, j)
    decreases j
  {
    if i < j {
      PosMonotone(xs, i, j - 1);
      PosStep(xs, j - 1);
    }
  }

  /** A break stops the pass. */
  lemma {:induction false} BreakPanics(xs: seq<Partial>, i: nat)
    requires Led(xs, {}) && i < |xs| && xs[i].BreakTo?
    ensures WrittenPrefix(xs, |xs|).None?
  {
    LedBegin(xs, i);
    WrittenStaysNone(xs, i + 1, |xs|);
  }

  /** Without one it goes through, and every instruction lands where it is meant to. */
  lemma {:induction false} WrittenAt(xs: seq<Partial>, n: nat)
    requires Led(xs, {}) && !AnyBreakTo(xs) && n <= |xs|
    ensures WrittenPrefix(xs, n).Some? && |WrittenPrefix(xs, n).value| == Pos(xs, n)
    ensures forall i :: 0 <= i < n && !IsMarker(xs[i]) ==>
      Pos(xs, i) < Pos(xs, n) && Written(xs, i) == Some(WrittenPrefix(xs, n).value[Pos(xs, i)])
    decreases n
  {
    hide Pos;
    if n == 0 {
      assert Pos(xs, 0) == 0 by { PosZero(xs); }
    } else {
      WrittenAt(xs, n - 1);
      PosStep(xs, n - 1);
      if xs[n - 1].ContinueTo? {
        LedBegin(xs, n - 1);
      }
    }
  }

  lemma PosZero(xs: seq<Partial>)
    ensures Pos(xs, 0) == 0
  {
  }

  lemma {:induction false} WrittenIsMeant(xs: seq<Partial>, n: nat)
    requires !AnyBreakTo(xs) && !AnyContinueTo(xs) && n <= |xs|
    ensures WrittenPrefix(xs, n) == Some(ResolvePrefix(xs, n))
    decreases n
  {
    if n > 0 {
      WrittenIsMeant(xs, n - 1);
      assert !xs[n - 1].BreakTo? && !xs[n - 1].ContinueTo?;
      var before := ResolvePrefix(xs, n - 1);
      assert before + [] == before;
    }
  }

  /** A continue becomes a jump forward, by its distance in marker-counting positions; it is meant to jump back. */
  lemma ContinueForward(xs: seq<Partial>, i: nat)
    requires Led(xs, {}) && !AnyBreakTo(xs) && i < |xs| && xs[i].ContinueTo?
    ensures var begin := IndexOf(xs, LoopBegin(xs[i].id));
      && begin < i && WrittenPrefix(xs, |xs|).Some? && Pos(xs, i) < |WrittenPrefix(xs, |xs|).value|
      && WrittenPrefix(xs, |xs|).value[Pos(xs, i)] == RelJump(i - begin)
      && Meant(xs, i) == RelJump(Pos(xs, begin) - Pos(xs, i)) && Pos(xs, begin) <= Pos(xs, i)
  {
    hide Pos;
    LedBegin(xs, i);
    WrittenAt(xs, |xs|);
    PosMonotone(xs, IndexOf(xs, LoopBegin(xs[i].id)), i);
  }

  /** The pass as written panics exactly on break, and does what it is meant to exactly when there is no continue either. */
  lemma JumpsAsWritten(items: seq<Item>)
    requires Enclosed(items, {})
    ensures var xs := Inline(items);
      && (WrittenPrefix(xs, |xs|).None? <==> HasBreak(items))
      && (WrittenPrefix(xs, |xs|) == Some(Resolve(xs)) <==> !HasBreak(items) && !HasContinue(items))
  {
    hide Inline, Led, Pos, Written, WrittenPrefix, ResolvePrefix, Meant;
    var xs := Inline(items);
    InlineLed(items, {});
    InlineAny(items);
    if AnyBreakTo(xs) {
      var i :| 0 <= i < |xs| && xs[i].BreakTo?;
      BreakPanics(xs, i);
    } else {
      WrittenAt(xs, |xs|);
      if AnyContinueTo(xs) {
        var i :| 0 <= i < |xs| && xs[i].ContinueTo?;
        ContinueForward(xs, i);
        ResolveAt(xs, i);
      } else {
        WrittenIsMeant(xs, |xs|);
      }
    }
  }

  // ---------------------------------------------------------------- the meaning meant

  /** A resolved continue lands on the first instruction of its loop's condition, a resolved break behind its loop's looper. */
  lemma JumpTargets(xs: seq<Partial>, p: nat, id: nat, cond: seq<Instruction>, result: Arg, body: seq<Partial>, i: nat)
    requires UniqueMarkers(xs) && Loaded(xs, p, LoopShape(id, cond, result, body))
    requires i < |xs| && xs[i] in {ContinueTo(id), BreakTo(id)}
    ensures var code, here, begin := Resolve(xs), Pos(xs, i), Pos(xs, p);
      var end := begin + |cond| + 1 + Len(body) + 1;
      && Loaded(code, begin, cond + [RelJumpNegateCondition(Len(body) + 2, result)])
      && Loaded(code, end - 1, [RelJump(-(Len(body) + |cond|) - 1)])
      && here < |code| && code[here] == RelJump((if xs[i].ContinueTo? then begin else end) - here)
  {
    hide Resolve, Len, IndexOf;
    LoopLayout(xs, p, id, cond, result, body);
    var pl := p + 1 + |cond| + 1 + |body|;
    MarkerFound(xs, p);
    MarkerFound(xs, pl + 1);
    ResolveAt(xs, i);
  }
}
