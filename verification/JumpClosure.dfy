/** Every relative jump of a compiled function, with the place it leads to. */
module JumpClosure {
  import opened Values
  import opened Syntax
  import opened ByteCode
  import opened ExprFlow
  import opened ByteExpr
  import opened Frames
  import opened FrameFacts
  import opened SecondPass
  import opened ThirdPass
  import opened Layout
  import opened JumpResolution
  import opened Compiler
  import opened Pipeline

  // ---------------------------------------------------------------- the places jumps lead to

  /** Where an open loop begins and ends, in emitted instructions. */
  datatype Span = Span(begin: nat, end: nat)

  /** The jump at `at` leads to `target`. */
  predicate Leads(code: seq<Instruction>, at: nat, target: nat) {
    at < |code| && target <= |code|
    && match code[at] {
         case RelJump(offset) => at + offset == target
         case RelJumpCondition(offset, _) => at + offset == target
         case RelJumpNegateCondition(offset, _) => at + offset == target
         case _ => false
       }
  }

  /** What the resolved code of these frames does with its jumps.  A loop leaves from behind its condition to its end,
      and from its end returns to its beginning; a branch goes from behind its condition to the true path, and from the
      end of the false path over it; break and continue go to the end and to the beginning of their own loop. */
  predicate JumpsHome(xs: seq<Partial>, items: seq<Item>, p: nat, open: map<nat, Span>)
    requires p + |Inline(items)| <= |xs|
    decreases items
  {
    items == [] || (ItemJumpsHome(xs, items[0], p, open) && JumpsHome(xs, items[1..], p + |InlineItem(items[0])|, open))
  }

  predicate ItemJumpsHome(xs: seq<Partial>, x: Item, p: nat, open: map<nat, Span>)
    requires p + |InlineItem(x)| <= |xs|
    decreases x
  {
    var code, begin, end := Resolve(xs), Pos(xs, p), Pos(xs, p + |InlineItem(x)|);
    match x
    case Plain(_) => true
    case ContinueItem(id) => id in open && Leads(code, begin, open[id].begin)
    case BreakItem(id) => id in open && Leads(code, begin, open[id].end)
    case Loop(id, cond, _, body) =>
      var pb := p + 1 + |cond| + 1;
      && begin + |cond| + 2 <= end
      && Leads(code, begin + |cond|, end)
      && Leads(code, end - 1, begin)
      && JumpsHome(xs, body, pb, open[id := Span(begin, end)])
    case Branch(_, cond, _, thn, els) =>
      var pf := p + |cond| + 1;
      var pt := pf + |Inline(els)| + 1;
      && Leads(code, begin + |cond|, Pos(xs, pt))
      && Pos(xs, pt) > begin + |cond| + 1 && Leads(code, Pos(xs, pt) - 1, end)
      && JumpsHome(xs, els, pf, open) && JumpsHome(xs, thn, pt, open)
  }

  /** The open loops are where their markers stand. */
  predicate Marked(xs: seq<Partial>, open: map<nat, Span>) {
    forall id :: id in open ==>
      var b, e := IndexOf(xs, LoopBegin(id)), IndexOf(xs, LoopEnd(id));
      b < |xs| && e < |xs| && Pos(xs, b) == open[id].begin && Pos(xs, e) == open[id].end
  }

  lemma {:induction false} FrameJumps(xs: seq<Partial>, items: seq<Item>, p: nat, open: map<nat, Span>)
    requires UniqueMarkers(xs) && Loaded(xs, p, Inline(items)) && Enclosed(items, open.Keys) && Marked(xs, open)
    ensures JumpsHome(xs, items, p, open)
    decreases items
  {
    hide UniqueMarkers, Marked, ItemJumpsHome, InlineItem, ItemEnclosed;
    if items != [] {
      LoadedSplit(xs, p, InlineItem(items[0]), Inline(items[1..]));
      ItemJumps(xs, items[0], p, open);
      FrameJumps(xs, items[1..], p + |InlineItem(items[0])|, open);
    }
  }

  lemma {:induction false} ItemJumps(xs: seq<Partial>, x: Item, p: nat, open: map<nat, Span>)
    requires UniqueMarkers(xs) && Loaded(xs, p, InlineItem(x)) && ItemEnclosed(x, open.Keys) && Marked(xs, open)
    ensures ItemJumpsHome(xs, x, p, open)
    decreases x
  {
    hide UniqueMarkers, Marked, Resolve, Pos, Len, IndexOf, LoopShape, BranchShape, Inline, JumpsHome, Enclosed, Loaded;
    match x {
      case Plain(_) =>
      case ContinueItem(id) => ToMarker(xs, p, ContinueTo(id), open);
      case BreakItem(id) => ToMarker(xs, p, BreakTo(id), open);
      case Loop(_, _, _, _) => LoopJumps(xs, x, p, open);
      case Branch(_, _, _, _, _) => BranchJumps(xs, x, p, open);
    }
  }

  lemma ToMarker(xs: seq<Partial>, p: nat, x: Partial, open: map<nat, Span>)
    requires Loaded(xs, p, [x]) && IsJump(x) && x.id in open && Marked(xs, open)
    ensures Leads(Resolve(xs), Pos(xs, p), if x.ContinueTo? then open[x.id].begin else open[x.id].end)
  {
    hide Resolve, Pos, IndexOf;
    LoadedAt(xs, p, [x], 0);
    ResolveAt(xs, p);
    PosBound(xs, IndexOf(xs, LoopBegin(x.id)));
    PosBound(xs, IndexOf(xs, LoopEnd(x.id)));
  }

  lemma {:induction false} LoopJumps(xs: seq<Partial>, x: Item, p: nat, open: map<nat, Span>)
    requires x.Loop? && UniqueMarkers(xs) && Loaded(xs, p, InlineItem(x)) && ItemEnclosed(x, open.Keys) && Marked(xs, open)
    ensures ItemJumpsHome(xs, x, p, open)
    decreases x, 0
  {
    hide UniqueMarkers, Resolve, Pos, Len, IndexOf, LoopShape, Inline, JumpsHome, Enclosed, Loaded;
    var Loop(id, cond, result, body) := x;
    var inner := Inline(body);
    LoopLayout(xs, p, id, cond, result, inner);
    var pl := p + 1 + |cond| + 1 + |inner|;
    var begin, end := Pos(xs, p), Pos(xs, pl + 2);
    MarkerFound(xs, p);
    MarkerFound(xs, pl + 1);
    var open' := open[id := Span(begin, end)];
    assert open'.Keys == open.Keys + {id};
    FrameJumps(xs, body, p + 1 + |cond| + 1, open');
    JumpAt(Resolve(xs), begin, cond, RelJumpNegateCondition(Len(inner) + 2, result));
    LoadedAt(Resolve(xs), end - 1, [RelJump(-(Len(inner) + |cond|) - 1)], 0);
    PosBound(xs, pl + 2);
    PosBound(xs, p);
  }

  /** An instruction behind straight code. */
  lemma JumpAt(code: seq<Instruction>, at: nat, before: seq<Instruction>, jump: Instruction)
    requires Loaded(code, at, before + [jump])
    ensures at + |before| < |code| && code[at + |before|] == jump
  {
    LoadedAt(code, at, before + [jump], |before|);
  }

  lemma {:induction false} BranchJumps(xs: seq<Partial>, x: Item, p: nat, open: map<nat, Span>)
    requires x.Branch? && UniqueMarkers(xs) && Loaded(xs, p, InlineItem(x)) && ItemEnclosed(x, open.Keys) && Marked(xs, open)
    ensures ItemJumpsHome(xs, x, p, open)
    decreases x, 0
  {
    hide UniqueMarkers, Marked, Resolve, Pos, Len, IndexOf, BranchShape, Inline, JumpsHome, Enclosed, Loaded;
    var Branch(_, cond, result, thn, els) := x;
    BranchLayout(xs, p, cond, result, Inline(thn), Inline(els));
    var pf := p + |cond| + 1;
    var ps := pf + |Inline(els)|;
    FrameJumps(xs, els, pf, open);
    FrameJumps(xs, thn, ps + 1, open);
    JumpAt(Resolve(xs), Pos(xs, p), cond, RelJumpCondition(Len(Inline(els)) + 2, result));
    LoadedAt(Resolve(xs), Pos(xs, ps), [RelJump(Len(Inline(thn)) + 1)], 0);
    PosBound(xs, p + |InlineItem(x)|);
    PosBound(xs, ps + 1);
  }

  /** In every compiled function whose jumps are in loops, every construct's jumps lead where they are meant to. */
  lemma CompiledJumps(d: FnDef)
    requires JumpsInLoops(d.body, false)
    ensures var xs := Inline(FunctionItems(d));
      CompileFn(d).code == Resolve(xs) && JumpsHome(xs, FunctionItems(d), 0, map[])
  {
    hide Inline, FunctionItems, Resolve, UniqueMarkers, JumpsHome, Enclosed, JumpsInLoops;
    var xs := Inline(FunctionItems(d));
    FunctionFrames(d);
    assert Loaded(xs, 0, xs) by {
      assert xs[0..|xs|] == xs;
    }
    var none: map<nat, Span> := map[];
    assert none.Keys == {};
    FrameJumps(xs, FunctionItems(d), 0, none);
  }

  // ---------------------------------------------------------------- so none leaves the code

  predicate IsBranching(i: Instruction) {
    i.Jump? || i.JumpCondition? || i.JumpNegateCondition? || i.RelJump? || i.RelJumpCondition? || i.RelJumpNegateCondition?
  }

  predicate StraightCode(code: seq<Instruction>) { forall i :: i in code ==> !IsBranching(i) }

  /** Only the frames themselves jump: no instruction in them does. */
  predicate Straight(items: seq<Item>)
    decreases items
  {
    items == [] || (ItemStraight(items[0]) && Straight(items[1..]))
  }

  predicate ItemStraight(x: Item)
    decreases x
  {
    match x
    case Plain(i) => !IsBranching(i)
    case Loop(_, cond, _, body) => StraightCode(cond) && Straight(body)
    case Branch(_, cond, _, thn, els) => StraightCode(cond) && Straight(thn) && Straight(els)
    case _ => true
  }

  /** Between two positions of the code every jump is a relative one, and stays between two others. */
  predicate Stays(code: seq<Instruction>, from: int, to: int, lo: int, hi: int) {
    0 <= from && to <= |code|
    && forall i :: from <= i < to && IsBranching(code[i]) ==> exists target: nat :: Leads(code, i, target) && lo <= target <= hi
  }

  lemma StaysBoth(code: seq<Instruction>, from: int, mid: int, to: int, lo: int, hi: int)
    requires Stays(code, from, mid, lo, hi) && Stays(code, mid, to, lo, hi)
    ensures Stays(code, from, to, lo, hi)
  {
    hide Leads;
  }

  lemma StaysStraight(code: seq<Instruction>, from: nat, seg: seq<Instruction>, lo: int, hi: int)
    requires Loaded(code, from, seg) && StraightCode(seg)
    ensures Stays(code, from, from + |seg|, lo, hi)
  {
    forall i | from <= i < from + |seg| ensures !IsBranching(code[i]) {
      LoadedAt(code, from, seg, i - from);
    }
  }

  lemma StaysJump(code: seq<Instruction>, at: nat, target: nat, lo: int, hi: int)
    requires Leads(code, at, target) && lo <= target <= hi
    ensures Stays(code, at, at + 1, lo, hi)
  {
  }

  predicate SpansIn(open: map<nat, Span>, lo: int, hi: int) {
    forall id :: id in open ==> lo <= open[id].begin <= hi && lo <= open[id].end <= hi
  }

  lemma {:induction false} FrameStays(xs: seq<Partial>, items: seq<Item>, p: nat, open: map<nat, Span>, lo: int, hi: int)
    requires Loaded(xs, p, Inline(items)) && JumpsHome(xs, items, p, open) && Straight(items) && SpansIn(open, lo, hi)
    requires lo <= Pos(xs, p) && Pos(xs, p + |Inline(items)|) <= hi
    ensures Stays(Resolve(xs), Pos(xs, p), Pos(xs, p + |Inline(items)|), lo, hi)
    decreases items
  {
    hide ItemJumpsHome, ItemStraight, InlineItem, Pos, Resolve, SpansIn, Stays;
    if items == [] {
      PosBound(xs, p);
      StaysNowhere(Resolve(xs), Pos(xs, p), lo, hi);
    } else {
      var p1 := p + |InlineItem(items[0])|;
      LoadedSplit(xs, p, InlineItem(items[0]), Inline(items[1..]));
      PosMonotone(xs, p1, p1 + |Inline(items[1..])|);
      PosMonotone(xs, p, p1);
      ItemStays(xs, items[0], p, open, lo, hi);
      FrameStays(xs, items[1..], p1, open, lo, hi);
      StaysBoth(Resolve(xs), Pos(xs, p), Pos(xs, p1), Pos(xs, p1 + |Inline(items[1..])|), lo, hi);
    }
  }

  lemma StaysNowhere(code: seq<Instruction>, from: nat, lo: int, hi: int)
    requires from <= |code|
    ensures Stays(code, from, from, lo, hi)
  {
  }

  lemma {:induction false} ItemStays(xs: seq<Partial>, x: Item, p: nat, open: map<nat, Span>, lo: int, hi: int)
    requires Loaded(xs, p, InlineItem(x)) && ItemJumpsHome(xs, x, p, open) && ItemStraight(x) && SpansIn(open, lo, hi)
    requires lo <= Pos(xs, p) && Pos(xs, p + |InlineItem(x)|) <= hi
    ensures Stays(Resolve(xs), Pos(xs, p), Pos(xs, p + |InlineItem(x)|), lo, hi)
    decreases x
  {
    hide Pos, Resolve, Stays, LoopShape, BranchShape, Inline, JumpsHome, Straight, Leads;
    match x {
      case Plain(i) =>
        assert Instrs([i]) == [Instr(i)];
        CodeLoaded(xs, p, [i]);
        StaysStraight(Resolve(xs), Pos(xs, p), [i], lo, hi);
      case ContinueItem(id) =>
        LoadedAt(xs, p, [ContinueTo(id)], 0);
        PosStep(xs, p);
        StaysJump(Resolve(xs), Pos(xs, p), open[id].begin, lo, hi);
      case BreakItem(id) =>
        LoadedAt(xs, p, [BreakTo(id)], 0);
        PosStep(xs, p);
        StaysJump(Resolve(xs), Pos(xs, p), open[id].end, lo, hi);
      case Loop(_, _, _, _) => LoopStays(xs, x, p, open, lo, hi);
      case Branch(_, _, _, _, _) => BranchStays(xs, x, p, open, lo, hi);
    }
  }

  lemma {:induction false} LoopStays(xs: seq<Partial>, x: Item, p: nat, open: map<nat, Span>, lo: int, hi: int)
    requires x.Loop? && Loaded(xs, p, InlineItem(x)) && ItemJumpsHome(xs, x, p, open) && ItemStraight(x) && SpansIn(open, lo, hi)
    requires lo <= Pos(xs, p) && Pos(xs, p + |InlineItem(x)|) <= hi
    ensures Stays(Resolve(xs), Pos(xs, p), Pos(xs, p + |InlineItem(x)|), lo, hi)
    decreases x, 0
  {
    hide Pos, Len, Resolve, Stays, LoopShape, Inline, JumpsHome, Straight, Loaded, Leads;
    var Loop(id, cond, result, body) := x;
    var inner := Inline(body);
    LoopLayout(xs, p, id, cond, result, inner);
    var pb := p + 1 + |cond| + 1;
    var pl := pb + |inner|;
    var begin, end := Pos(xs, p), Pos(xs, pl + 2);
    var code := Resolve(xs);
    LoadedSplit(code, begin, cond, [RelJumpNegateCondition(Len(inner) + 2, result)]);
    StaysStraight(code, begin, cond, lo, hi);
    StaysJump(code, begin + |cond|, end, lo, hi);
    StaysBoth(code, begin, begin + |cond|, begin + |cond| + 1, lo, hi);
    FrameStays(xs, body, pb, open[id := Span(begin, end)], lo, hi);
    StaysBoth(code, begin, Pos(xs, pb), Pos(xs, pl), lo, hi);
    StaysJump(code, end - 1, begin, lo, hi);
    StaysBoth(code, begin, Pos(xs, pl), end, lo, hi);
  }

  lemma {:induction false} BranchStays(xs: seq<Partial>, x: Item, p: nat, open: map<nat, Span>, lo: int, hi: int)
    requires x.Branch? && Loaded(xs, p, InlineItem(x)) && ItemJumpsHome(xs, x, p, open) && ItemStraight(x) && SpansIn(open, lo, hi)
    requires lo <= Pos(xs, p) && Pos(xs, p + |InlineItem(x)|) <= hi
    ensures Stays(Resolve(xs), Pos(xs, p), Pos(xs, p + |InlineItem(x)|), lo, hi)
    decreases x, 0
  {
    hide Pos, Len, Resolve, Stays, BranchShape, Inline, JumpsHome, Straight, Loaded, Leads;
    var Branch(_, cond, result, thn, els) := x;
    BranchLayout(xs, p, cond, result, Inline(thn), Inline(els));
    var pf := p + |cond| + 1;
    var ps := pf + |Inline(els)|;
    var pe := ps + 1 + |Inline(thn)|;
    var code, begin := Resolve(xs), Pos(xs, p);
    LoadedSplit(code, begin, cond, [RelJumpCondition(Len(Inline(els)) + 2, result)]);
    StaysStraight(code, begin, cond, lo, hi);
    StaysJump(code, begin + |cond|, Pos(xs, ps + 1), lo, hi);
    StaysBoth(code, begin, begin + |cond|, Pos(xs, pf), lo, hi);
    FrameStays(xs, els, pf, open, lo, hi);
    StaysBoth(code, begin, Pos(xs, pf), Pos(xs, ps), lo, hi);
    StaysJump(code, Pos(xs, ps), Pos(xs, pe), lo, hi);
    StaysBoth(code, begin, Pos(xs, ps), Pos(xs, ps + 1), lo, hi);
    FrameStays(xs, thn, ps + 1, open, lo, hi);
    StaysBoth(code, begin, Pos(xs, ps + 1), Pos(xs, pe), lo, hi);
  }

  // ---------------------------------------------------------------- the code of expressions does not jump

  lemma {:induction false} ExprStraight(tmps: seq<Temp>)
    ensures StraightCode(TranslateExpr(tmps))
    decreases tmps, 1
  {
    hide TranslateTmp;
    if tmps != [] {
      TmpStraight(tmps[0]);
      ExprStraight(tmps[1..]);
    }
  }

  lemma {:induction false} TmpStraight(t: Temp)
    ensures StraightCode(TranslateTmp(t))
    decreases t, 0
  {
    hide TranslateExpr, AccessCode;
    if t.value.TAccess? {
      AccessStraight(t.value.access);
    }
  }

  lemma {:induction false} AccessStraight(a: TmpAccess)
    ensures StraightCode(AccessCode(a))
    decreases a, 1
  {
    hide TranslateExpr, PathCode;
    if a.rootIndex.Index? {
      ExprStraight(a.rootIndex.order);
    }
    PathStraight(a.path);
  }

  lemma {:induction false} PathStraight(path: seq<TmpSeg>)
    ensures StraightCode(PathCode(path))
    decreases path, 1
  {
    hide TranslateExpr;
    if path != [] {
      if path[0].TFieldIndex? {
        ExprStraight(path[0].index);
      }
      PathStraight(path[1..]);
    }
  }

  lemma {:induction false} StraightAppend(a: seq<Item>, b: seq<Item>)
    requires Straight(a) && Straight(b)
    ensures Straight(a + b)
  {
    hide ItemStraight;
    if a == [] {
      assert a + b == b;
    } else {
      assert (a + b)[1..] == a[1..] + b;
      StraightAppend(a[1..], b);
    }
  }

  lemma {:induction false} PlainStraight(code: seq<Instruction>)
    requires StraightCode(code)
    ensures Straight(PlainItems(code))
  {
    if code != [] {
      assert PlainItems(code)[1..] == PlainItems(code[1..]);
      PlainStraight(code[1..]);
    }
  }

  lemma StraightOne(x: Item)
    requires ItemStraight(x)
    ensures Straight([x])
  {
    hide ItemStraight;
    assert [x][1..] == [];
  }

  lemma {:induction false} BlockStraight(stmts: seq<Stmt>, n: nat, loop: nat)
    ensures Straight(BlockCode(stmts, n, loop).items)
    decreases stmts
  {
    hide StmtCode;
    if stmts != [] {
      var c := StmtCode(stmts[0], n, loop);
      StmtStraight(stmts[0], n, loop);
      BlockStraight(stmts[1..], c.next, loop);
      StraightAppend(c.items, BlockCode(stmts[1..], c.next, loop).items);
    }
  }

  lemma {:induction false} StmtStraight(s: Stmt, n: nat, loop: nat)
    ensures Straight(StmtCode(s, n, loop).items)
    decreases s
  {
    hide Straight, Flatten, BlockCode, ArmsCode, FlattenAccess, TranslateExpr, AccessCode;
    var items := StmtCode(s, n, loop).items;
    match s {
      case ExprStmt(e) =>
        ExprStraight(Flatten(e, n).tmps);
        PlainStraight(ExprCode(Flatten(e, n)));
      case Local(x, e) =>
        ExprStraight(Flatten(e, n).tmps);
        PlainStraight(LocalCode(x, Flatten(e, n)));
      case Assign(root, rootIndex, path, value) =>
        var a := FlattenAccess(root, rootIndex, path, n);
        var f := Flatten(value, a.next);
        ExprStraight(f.tmps);
        AccessStraight(a.access);
        PlainStraight(AssignCode(a.access, f));
      case Return(None) => StraightOne(items[0]);
      case Return(Some(e)) =>
        ExprStraight(Flatten(e, n).tmps);
        PlainStraight(ReturnCode(Flatten(e, n)));
      case Break => StraightOne(items[0]);
      case Continue => StraightOne(items[0]);
      case While(cond, body) =>
        var f := Flatten(cond, n + 1);
        ExprStraight(f.tmps);
        BlockStraight(body, f.next, n);
        StraightOne(items[0]);
      case If(cond, body, rest) =>
        var b := BlockCode(body, n, loop);
        var f := Flatten(cond, b.next + 1);
        ExprStraight(f.tmps);
        BlockStraight(body, n, loop);
        ArmsStraight(rest, f.next, loop);
        StraightOne(items[0]);
    }
  }

  lemma {:induction false} ArmsStraight(a: Arms, n: nat, loop: nat)
    ensures Straight(ArmsCode(a, n, loop).items)
    decreases a
  {
    hide Flatten, BlockCode, TranslateExpr;
    match a {
      case NoMore =>
      case Default(b) => BlockStraight(b, n, loop);
      case Elif(cond, body, rest) =>
        var f := Flatten(cond, BlockCode(body, n, loop).next + 1);
        ExprStraight(f.tmps);
        BlockStraight(body, n, loop);
        ArmsStraight(rest, f.next, loop);
        StraightOne(ArmsCode(a, n, loop).items[0]);
    }
  }

  /** No jump of a compiled function leads outside its code. */
  lemma JumpsStayInside(d: FnDef)
    requires JumpsInLoops(d.body, false)
    ensures var code := CompileFn(d).code;
      forall i :: 0 <= i < |code| && IsBranching(code[i]) ==> exists target: nat :: Leads(code, i, target)
  {
    hide Inline, Resolve, JumpsHome, JumpsInLoops, BlockCode, Straight, Pos, Leads;
    CompiledJumps(d);
    var xs, items := Inline(FunctionItems(d)), FunctionItems(d);
    assert Loaded(xs, 0, xs) by {
      assert xs[0..|xs|] == xs;
    }
    BlockStraight(d.body, d.firstId, 0);
    var body := BlockCode(d.body, d.firstId, 0).items;
    if d.returnsUnit {
      StraightOne(Plain(Instruction.Return(None)));
      StraightAppend(body, [Plain(Instruction.Return(None))]);
    } else {
      assert body + [] == body;
    }
    PosBound(xs, |xs|);
    PosZero(xs);
    FrameStays(xs, items, 0, map[], 0, |Resolve(xs)|);
  }
}
