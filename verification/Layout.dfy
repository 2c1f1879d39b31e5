/** Where the pieces of inlined frames sit, in partial code with markers and in emitted code. */
module Layout {
  import opened Values
  import opened Syntax
  import opened ByteCode
  import opened ExprFlow
  import opened ByteExpr
  import opened Frames
  import opened SecondPass
  import opened ThirdPass

  // ---------------------------------------------------------------- markers

  ghost predicate MarkersWithin(xs: seq<Partial>, lo: nat, hi: nat) {
    forall i :: 0 <= i < |xs| && IsMarker(xs[i]) ==> lo <= xs[i].id < hi
  }

  lemma MarkersConcat(a: seq<Partial>, b: seq<Partial>, lo: nat, mid: nat, hi: nat)
    requires lo <= mid <= hi
    requires UniqueMarkers(a) && MarkersWithin(a, lo, mid)
    requires UniqueMarkers(b) && MarkersWithin(b, mid, hi)
    ensures UniqueMarkers(a + b) && MarkersWithin(a + b, lo, hi)
    ensures UniqueMarkers(b + a) && MarkersWithin(b + a, lo, hi)
  {
  }

  lemma MarkersPlain(code: seq<Instruction>, lo: nat, hi: nat)
    ensures UniqueMarkers(Instrs(code)) && MarkersWithin(Instrs(code), lo, hi)
  {
  }

  lemma MarkersLoop(id: nat, cond: seq<Instruction>, result: Arg, body: seq<Partial>, hi: nat)
    requires id < hi && UniqueMarkers(body) && MarkersWithin(body, id + 1, hi)
    ensures UniqueMarkers(LoopShape(id, cond, result, body)) && MarkersWithin(LoopShape(id, cond, result, body), id, hi)
  {
    var a := Instrs(cond) + [Instr(RelJumpNegateCondition(Len(body) + 2, result))];
    var z := [Instr(RelJump(-(Len(body) + |cond|) - 1))];
    MarkersConcat(a, body, id + 1, id + 1, hi);
    MarkersConcat(a + body, z, id + 1, hi, hi);
    var inner := a + body + z;
    assert LoopShape(id, cond, result, body) == [LoopBegin(id)] + inner + [LoopEnd(id)];
    var all := [LoopBegin(id)] + inner + [LoopEnd(id)];
    forall i, j | 0 <= i < j < |all| && IsMarker(all[i])
      ensures all[i] != all[j]
    {
      assert 0 < i ==> all[i] == inner[i - 1];
      assert j < |all| - 1 ==> all[j] == inner[j - 1];
    }
    forall i | 0 <= i < |all| && IsMarker(all[i])
      ensures id <= all[i].id < hi
    {
      assert 0 < i < |all| - 1 ==> all[i] == inner[i - 1];
    }
  }

  lemma MarkersBranch(cond: seq<Instruction>, result: Arg, thn: seq<Partial>, els: seq<Partial>, lo: nat, mid: nat, hi: nat)
    requires lo <= mid <= hi
    requires UniqueMarkers(thn) && MarkersWithin(thn, lo, mid)
    requires UniqueMarkers(els) && MarkersWithin(els, mid, hi)
    ensures UniqueMarkers(BranchShape(cond, result, thn, els)) && MarkersWithin(BranchShape(cond, result, thn, els), lo, hi)
  {
    var a := Instrs(cond) + [Instr(RelJumpCondition(Len(els) + 2, result))];
    var z := [Instr(RelJump(Len(thn) + 1))];
    MarkersConcat(a, els, mid, mid, hi);
    MarkersConcat(a + els, z, mid, hi, hi);
    MarkersConcat(thn, a + els + z, lo, mid, hi);
    assert BranchShape(cond, result, thn, els) == (a + els + z) + thn;
  }

  /** Every marker of a compiled body stands once, under an identifier handed out while compiling it. */
  lemma {:induction false} BlockMarkers(stmts: seq<Stmt>, n: nat, loop: nat)
    ensures var c := BlockCode(stmts, n, loop);
      UniqueMarkers(Inline(c.items)) && MarkersWithin(Inline(c.items), n, c.next)
    decreases stmts
  {
    if stmts != [] {
      var c := StmtCode(stmts[0], n, loop);
      var rest := BlockCode(stmts[1..], c.next, loop);
      StmtMarkers(stmts[0], n, loop);
      BlockMarkers(stmts[1..], c.next, loop);
      InlineAppend(c.items, rest.items);
      MarkersConcat(Inline(c.items), Inline(rest.items), n, c.next, rest.next);
    }
  }

  lemma {:induction false} StmtMarkers(s: Stmt, n: nat, loop: nat)
    ensures var c := StmtCode(s, n, loop);
      UniqueMarkers(Inline(c.items)) && MarkersWithin(Inline(c.items), n, c.next)
    decreases s
  {
    hide UniqueMarkers, MarkersWithin, Flatten, TranslateExpr, InlineItem, Inline, LoopShape, BranchShape;
    var c := StmtCode(s, n, loop);
    match s {
      case ExprStmt(e) =>
        InlinePlain(ExprCode(Flatten(e, n)));
        MarkersPlain(ExprCode(Flatten(e, n)), n, c.next);
      case Local(x, e) =>
        InlinePlain(LocalCode(x, Flatten(e, n)));
        MarkersPlain(LocalCode(x, Flatten(e, n)), n, c.next);
      case Assign(root, rootIndex, path, value) =>
        var a := FlattenAccess(root, rootIndex, path, n);
        var code := AssignCode(a.access, Flatten(value, a.next));
        InlinePlain(code);
        MarkersPlain(code, n, c.next);
      case Return(None) =>
        InlineSingle(c.items[0]);
        MarkersPlain([Instruction.Return(None)], n, c.next);
        assert Instrs([Instruction.Return(None)]) == [Instr(Instruction.Return(None))];
      case Return(Some(e)) =>
        InlinePlain(ReturnCode(Flatten(e, n)));
        MarkersPlain(ReturnCode(Flatten(e, n)), n, c.next);
      case Break =>
        InlineSingle(c.items[0]);
        MarkersNone([BreakTo(loop)], n);
      case Continue =>
        InlineSingle(c.items[0]);
        MarkersNone([ContinueTo(loop)], n);
      case While(cond, body) =>
        var f := Flatten(cond, n + 1);
        var b := BlockCode(body, f.next, n);
        BlockMarkers(body, f.next, n);
        MarkersWiden(Inline(b.items), f.next, b.next, n + 1, b.next);
        InlineSingle(c.items[0]);
        MarkersLoop(n, ExprCode(f), TmpArg(ResultId(f)), Inline(b.items), b.next);
      case If(cond, body, rest) =>
        BlockMarkers(body, n, loop);
        var b := BlockCode(body, n, loop);
        var f := Flatten(cond, b.next + 1);
        ArmsMarkers(rest, f.next, loop);
        var r := ArmsCode(rest, f.next, loop);
        MarkersWiden(Inline(b.items), n, b.next, n, f.next);
        InlineSingle(c.items[0]);
        MarkersBranch(ExprCode(f), TmpArg(ResultId(f)), Inline(b.items), Inline(r.items), n, f.next, r.next);
    }
  }

  lemma {:induction false} ArmsMarkers(a: Arms, n: nat, loop: nat)
    ensures var c := ArmsCode(a, n, loop);
      UniqueMarkers(Inline(c.items)) && MarkersWithin(Inline(c.items), n, c.next)
    decreases a
  {
    hide UniqueMarkers, MarkersWithin, Flatten, TranslateExpr, InlineItem, LoopShape, BranchShape, BlockCode;
    match a {
      case NoMore =>
        MarkersPlain([], n, n);
        assert Inline([]) == Instrs([]);
      case Default(b) => BlockMarkers(b, n, loop);
      case Elif(cond, body, rest) =>
        BlockMarkers(body, n, loop);
        var b := BlockCode(body, n, loop);
        var f := Flatten(cond, b.next + 1);
        ArmsMarkers(rest, f.next, loop);
        var r := ArmsCode(rest, f.next, loop);
        MarkersWiden(Inline(b.items), n, b.next, n, f.next);
        InlineSingle(ArmsCode(a, n, loop).items[0]);
        MarkersBranch(ExprCode(f), TmpArg(ResultId(f)), Inline(b.items), Inline(r.items), n, f.next, r.next);
    }
  }

  lemma MarkersWiden(xs: seq<Partial>, lo: nat, hi: nat, lo': nat, hi': nat)
    requires UniqueMarkers(xs) && MarkersWithin(xs, lo, hi) && lo' <= lo && hi <= hi'
    ensures UniqueMarkers(xs) && MarkersWithin(xs, lo', hi')
  {
  }

  lemma MarkersNone(xs: seq<Partial>, n: nat)
    requires |xs| == 1 && !IsMarker(xs[0])
    ensures UniqueMarkers(xs) && MarkersWithin(xs, n, n)
  {
  }

  lemma InlineSingle(x: Item)
    ensures Inline([x]) == InlineItem(x)
    ensures x.Plain? ==> InlineItem(x) == [Instr(x.instr)]
    ensures x.BreakItem? ==> InlineItem(x) == [BreakTo(x.id)]
    ensures x.ContinueItem? ==> InlineItem(x) == [ContinueTo(x.id)]
    ensures x.Loop? ==> InlineItem(x) == LoopShape(x.id, x.cond, x.result, Inline(x.body))
    ensures x.Branch? ==> InlineItem(x) == BranchShape(x.cond, x.result, Inline(x.thn), Inline(x.els))
  {
    assert Inline([x]) == InlineItem(x) + Inline([]);
  }

  lemma FunctionMarkers(d: FnDef)
    ensures UniqueMarkers(Inline(FunctionItems(d)))
  {
    hide BlockCode, InlineItem;
    var c := BlockCode(d.body, d.firstId, 0);
    BlockMarkers(d.body, d.firstId, 0);
    if d.returnsUnit {
      var ret := Plain(Instruction.Return(None));
      InlineAppend(c.items, [ret]);
      InlineSingle(ret);
      MarkersConcat(Inline(c.items), [Instr(ret.instr)], d.firstId, c.next, c.next);
    } else {
      assert c.items + [] == c.items;
    }
  }

  // ---------------------------------------------------------------- positions

  ghost predicate Loaded<T>(code: seq<T>, ip: nat, seg: seq<T>) {
    ip + |seg| <= |code| && code[ip..ip + |seg|] == seg
  }

  lemma LoadedSplit<T>(code: seq<T>, ip: nat, a: seq<T>, b: seq<T>)
    requires Loaded(code, ip, a + b)
    ensures Loaded(code, ip, a) && Loaded(code, ip + |a|, b)
  {
    assert code[ip..ip + |a|] == (a + b)[..|a|];
    assert code[ip + |a|..ip + |a| + |b|] == (a + b)[|a|..];
  }

  lemma LoadedAt<T>(code: seq<T>, ip: nat, seg: seq<T>, i: nat)
    requires Loaded(code, ip, seg) && i < |seg|
    ensures ip + i < |code| && code[ip + i] == seg[i]
  {
    assert code[ip..ip + |seg|][i] == code[ip + i];
  }

  lemma PosBound(xs: seq<Partial>, i: nat)
    requires i <= |xs|
    ensures Pos(xs, i) <= |Resolve(xs)| == Pos(xs, |xs|)
  {
    ResolvePrefixLength(xs, |xs|);
    ResolvePrefixLength(xs, i);
    ResolvePrefixExtends(xs, i, |xs|);
  }

  /** Plain instructions keep their order and place when the code is resolved. */
  lemma CodeLoaded(xs: seq<Partial>, p: nat, seg: seq<Instruction>)
    requires Loaded(xs, p, Instrs(seg))
    ensures Loaded(Resolve(xs), Pos(xs, p), seg) && Pos(xs, p + |seg|) == Pos(xs, p) + |seg|
  {
    hide ResolvePrefix, Len;
    PosSlice(xs, p, Instrs(seg));
    LenInstrs(seg);
    PosBound(xs, p + |seg|);
    forall i | 0 <= i < |seg|
      ensures Resolve(xs)[Pos(xs, p) + i] == seg[i]
    {
      assert xs[p..p + |seg|][i] == Instrs(seg)[i];
      assert xs[p..p + i] == Instrs(seg)[..i] == Instrs(seg[..i]);
      PosSlice(xs, p, Instrs(seg[..i]));
      LenInstrs(seg[..i]);
      ResolveAt(xs, p + i);
    }
  }

  lemma MarkerFound(xs: seq<Partial>, i: nat)
    requires UniqueMarkers(xs) && i < |xs| && IsMarker(xs[i])
    ensures IndexOf(xs, xs[i]) == i
  {
  }

  /** Where the pieces of an inlined loop sit, in partial code and in emitted code. */
  lemma LoopLayout(xs: seq<Partial>, p: nat, id: nat, cond: seq<Instruction>, result: Arg, body: seq<Partial>)
    requires Loaded(xs, p, LoopShape(id, cond, result, body))
    ensures var pj := p + 1 + |cond|;
      var pl := pj + 1 + |body|;
      && pl + 2 == p + |LoopShape(id, cond, result, body)| <= |xs|
      && xs[p] == LoopBegin(id) && xs[pl + 1] == LoopEnd(id)
      && Loaded(Resolve(xs), Pos(xs, p), cond + [RelJumpNegateCondition(Len(body) + 2, result)])
      && Loaded(xs, pj + 1, body)
      && Loaded(Resolve(xs), Pos(xs, pl), [RelJump(-(Len(body) + |cond|) - 1)])
      && Pos(xs, pj + 1) == Pos(xs, p) + |cond| + 1
      && Pos(xs, pl) == Pos(xs, pj + 1) + Len(body)
      && Pos(xs, pl + 1) == Pos(xs, pl + 2) == Pos(xs, pl) + 1
  {
    hide Resolve, Pos, Len;
    var skip := RelJumpNegateCondition(Len(body) + 2, result);
    var looper := RelJump(-(Len(body) + |cond|) - 1);
    var head := cond + [skip];
    assert Instrs(head) == Instrs(cond) + [Instr(skip)];
    assert Instrs([looper]) == [Instr(looper)];
    var shape := [LoopBegin(id)] + (Instrs(head) + (body + (Instrs([looper]) + [LoopEnd(id)])));
    assert shape == LoopShape(id, cond, result, body);
    LoadedSplit(xs, p, [LoopBegin(id)], Instrs(head) + (body + (Instrs([looper]) + [LoopEnd(id)])));
    LoadedSplit(xs, p + 1, Instrs(head), body + (Instrs([looper]) + [LoopEnd(id)]));
    var pb := p + 1 + |head|;
    LoadedSplit(xs, pb, body, Instrs([looper]) + [LoopEnd(id)]);
    LoadedSplit(xs, pb + |body|, Instrs([looper]), [LoopEnd(id)]);
    LoadedAt(xs, p, [LoopBegin(id)], 0);
    LoadedAt(xs, pb + |body| + 1, [LoopEnd(id)], 0);
    PosStep(xs, p);
    CodeLoaded(xs, p + 1, head);
    PosSlice(xs, pb, body);
    CodeLoaded(xs, pb + |body|, [looper]);
    PosStep(xs, pb + |body| + 1);
  }

  lemma BranchLayout(xs: seq<Partial>, p: nat, cond: seq<Instruction>, result: Arg, thn: seq<Partial>, els: seq<Partial>)
    requires Loaded(xs, p, BranchShape(cond, result, thn, els))
    ensures var pf := p + |cond| + 1;
      var ps := pf + |els|;
      && ps + 1 + |thn| == p + |BranchShape(cond, result, thn, els)| <= |xs|
      && Loaded(Resolve(xs), Pos(xs, p), cond + [RelJumpCondition(Len(els) + 2, result)])
      && Loaded(xs, pf, els) && Loaded(xs, ps + 1, thn)
      && Loaded(Resolve(xs), Pos(xs, ps), [RelJump(Len(thn) + 1)])
      && Pos(xs, pf) == Pos(xs, p) + |cond| + 1
      && Pos(xs, ps) == Pos(xs, pf) + Len(els)
      && Pos(xs, ps + 1) == Pos(xs, ps) + 1
      && Pos(xs, ps + 1 + |thn|) == Pos(xs, ps + 1) + Len(thn)
  {
    hide Resolve, Pos, Len;
    var jump := RelJumpCondition(Len(els) + 2, result);
    var skip := RelJump(Len(thn) + 1);
    var head := cond + [jump];
    assert Instrs(head) == Instrs(cond) + [Instr(jump)];
    assert Instrs([skip]) == [Instr(skip)];
    var shape := Instrs(head) + (els + (Instrs([skip]) + thn));
    assert shape == BranchShape(cond, result, thn, els);
    LoadedSplit(xs, p, Instrs(head), els + (Instrs([skip]) + thn));
    var pf := p + |head|;
    LoadedSplit(xs, pf, els, Instrs([skip]) + thn);
    LoadedSplit(xs, pf + |els|, Instrs([skip]), thn);
    CodeLoaded(xs, p, head);
    PosSlice(xs, pf, els);
    CodeLoaded(xs, pf + |els|, [skip]);
    PosSlice(xs, pf + |els| + 1, thn);
  }
}
