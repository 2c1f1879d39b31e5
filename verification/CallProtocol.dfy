/** Calls and returns over whole runs: where suspended frames stand, and when the register is full. */
module CallProtocol {
  import opened Values
  import opened Syntax
  import opened ByteCode
  import opened ExprFlow
  import opened ByteExpr
  import opened Frames
  import opened SecondPass
  import opened ThirdPass
  import opened Machine
  import opened Evaluator
  import opened Compiler
  import opened Correctness
  import opened Safety

  /** Every call is followed by the instruction that takes its result. */
  predicate CallsTaken(code: seq<Instruction>) {
    forall i :: 0 <= i < |code| && code[i].FnCall? ==> i + 1 < |code| && code[i + 1].TakeReturn?
  }

  // ---------------------------------------------------------------- compiled code takes what it calls for

  lemma TakenAppend(a: seq<Instruction>, b: seq<Instruction>)
    requires CallsTaken(a) && CallsTaken(b)
    ensures CallsTaken(a + b)
  {
    var code := a + b;
    forall i | 0 <= i < |code| && code[i].FnCall? ensures i + 1 < |code| && code[i + 1].TakeReturn? {
      if i < |a| {
        assert a[i].FnCall? && code[i + 1] == a[i + 1];
      } else {
        assert b[i - |a|].FnCall? && code[i + 1] == b[i + 1 - |a|];
      }
    }
  }

  lemma {:induction false} ExprTaken(tmps: seq<Temp>)
    ensures CallsTaken(TranslateExpr(tmps))
    decreases tmps, 1
  {
    hide CallsTaken;
    if tmps == [] {
      NoCalls([]);
    } else {
      TmpTaken(tmps[0]);
      ExprTaken(tmps[1..]);
      TakenAppend(TranslateTmp(tmps[0]), TranslateExpr(tmps[1..]));
    }
  }

  lemma NoCalls(code: seq<Instruction>)
    requires forall i :: 0 <= i < |code| ==> !code[i].FnCall?
    ensures CallsTaken(code)
  {
  }

  lemma {:induction false} TmpTaken(t: Temp)
    ensures CallsTaken(TranslateTmp(t))
    decreases t, 0
  {
    hide TranslateExpr, AccessCode;
    match t.value {
      case TAccess(access) =>
        AccessTaken(access);
        NoCalls([Store(TmpLoc(t.id), Loc(AccessLocation(access)))]);
        TakenAppend(AccessCode(access), [Store(TmpLoc(t.id), Loc(AccessLocation(access)))]);
      case _ =>
    }
  }

  lemma {:induction false} AccessTaken(a: TmpAccess)
    ensures CallsTaken(AccessCode(a))
    decreases a, 1
  {
    hide CallsTaken, TranslateExpr;
    if a.rootIndex.Index? {
      ExprTaken(a.rootIndex.order);
    } else {
      NoCalls([]);
    }
    PathTaken(a.path);
    TakenAppend(IndexCode(a.rootIndex), PathCode(a.path));
  }

  lemma {:induction false} PathTaken(path: seq<TmpSeg>)
    ensures CallsTaken(PathCode(path))
    decreases path, 1
  {
    hide CallsTaken, TranslateExpr;
    NoCalls([]);
    if path != [] {
      if path[0].TFieldIndex? {
        ExprTaken(path[0].index);
      }
      PathTaken(path[1..]);
      TakenAppend(if path[0].TField? then [] else TranslateExpr(path[0].index), PathCode(path[1..]));
    }
  }

  /** The same of partial code: a call and its taker stand side by side, with no marker between them. */
  predicate PartialTaken(xs: seq<Partial>) {
    forall i :: 0 <= i < |xs| && xs[i].Instr? && xs[i].instr.FnCall? ==>
      i + 1 < |xs| && xs[i + 1].Instr? && xs[i + 1].instr.TakeReturn?
  }

  lemma PartialAppend(a: seq<Partial>, b: seq<Partial>)
    requires PartialTaken(a) && PartialTaken(b)
    ensures PartialTaken(a + b)
  {
    var xs := a + b;
    forall i | 0 <= i < |xs| && xs[i].Instr? && xs[i].instr.FnCall?
      ensures i + 1 < |xs| && xs[i + 1].Instr? && xs[i + 1].instr.TakeReturn?
    {
      if i < |a| {
        assert xs[i + 1] == a[i + 1];
      } else {
        assert b[i - |a|] == xs[i] && xs[i + 1] == b[i + 1 - |a|];
      }
    }
  }

  lemma InstrsTaken(code: seq<Instruction>)
    requires CallsTaken(code)
    ensures PartialTaken(Instrs(code))
  {
  }

  lemma PartialNone(xs: seq<Partial>)
    requires forall i :: 0 <= i < |xs| && xs[i].Instr? ==> !xs[i].instr.FnCall?
    ensures PartialTaken(xs)
  {
  }

  /** Frames whose own instructions take what they call for. */
  predicate ItemsTaken(items: seq<Item>) {
    PlainTaken(items) && forall x :: x in items ==> ItemTaken(x)
  }

  predicate ItemTaken(x: Item) {
    match x
    case Loop(_, cond, _, body) => CallsTaken(cond) && ItemsTaken(body)
    case Branch(_, cond, _, thn, els) => CallsTaken(cond) && ItemsTaken(thn) && ItemsTaken(els)
    case _ => true
  }

  predicate PlainTaken(items: seq<Item>) {
    forall i :: 0 <= i < |items| && items[i].Plain? && items[i].instr.FnCall? ==>
      i + 1 < |items| && items[i + 1].Plain? && items[i + 1].instr.TakeReturn?
  }

  lemma ItemsAppend(a: seq<Item>, b: seq<Item>)
    requires ItemsTaken(a) && ItemsTaken(b)
    ensures ItemsTaken(a + b)
  {
    var items := a + b;
    forall i | 0 <= i < |items| && items[i].Plain? && items[i].instr.FnCall?
      ensures i + 1 < |items| && items[i + 1].Plain? && items[i + 1].instr.TakeReturn?
    {
      if i < |a| {
        assert items[i + 1] == a[i + 1];
      } else {
        assert b[i - |a|] == items[i] && items[i + 1] == b[i + 1 - |a|];
      }
    }
  }

  lemma PlainItemsTaken(code: seq<Instruction>)
    requires CallsTaken(code)
    ensures ItemsTaken(PlainItems(code))
  {
  }

  lemma OneTaken(x: Item)
    requires ItemTaken(x) && (x.Plain? ==> !x.instr.FnCall?)
    ensures ItemsTaken([x])
  {
  }

  /** Inlining: what starts with a plain instruction still does, and jumps are no calls. */
  lemma {:induction false} InlineTaken(items: seq<Item>)
    requires ItemsTaken(items)
    ensures PartialTaken(Inline(items))
    decreases items
  {
    hide CallsTaken, ItemTaken, PartialTaken;
    if items == [] {
      PartialNone([]);
    } else {
      var rest := items[1..];
      assert ItemsTaken(rest) by {
        forall i | 0 <= i < |rest| && rest[i].Plain? && rest[i].instr.FnCall?
          ensures i + 1 < |rest| && rest[i + 1].Plain? && rest[i + 1].instr.TakeReturn?
        {
          assert items[i + 1] == rest[i];
        }
      }
      InlineTaken(rest);
      assert ItemTaken(items[0]);
      if items[0].Plain? && items[0].instr.FnCall? {
        assert Inline(rest) == InlineItem(rest[0]) + Inline(rest[1..]);
        TakenFirst(items[0].instr, Inline(rest));
      } else {
        ItemInlineTaken(items[0]);
        PartialAppend(InlineItem(items[0]), Inline(rest));
      }
    }
  }

  lemma TakenFirst(call: Instruction, rest: seq<Partial>)
    requires PartialTaken(rest) && rest != [] && rest[0].Instr? && rest[0].instr.TakeReturn?
    ensures PartialTaken([Instr(call)] + rest)
  {
    var xs := [Instr(call)] + rest;
    forall i | 0 <= i < |xs| && xs[i].Instr? && xs[i].instr.FnCall?
      ensures i + 1 < |xs| && xs[i + 1].Instr? && xs[i + 1].instr.TakeReturn?
    {
      if i > 0 {
        assert rest[i - 1] == xs[i];
      }
    }
  }

  lemma {:induction false} ItemInlineTaken(x: Item)
    requires ItemTaken(x) && (x.Plain? ==> !x.instr.FnCall?)
    ensures PartialTaken(InlineItem(x))
    decreases x
  {
    hide CallsTaken, Inline, PartialTaken, ItemsTaken;
    match x {
      case Loop(id, cond, result, body) =>
        InlineTaken(body);
        InstrsTaken(cond);
        var b := Inline(body);
        var enter, back := [Instr(RelJumpNegateCondition(Len(b) + 2, result))], [Instr(RelJump(-(Len(b) + |cond|) - 1))];
        PartialNone([LoopBegin(id)]);
        PartialNone(enter);
        PartialNone(back);
        PartialNone([LoopEnd(id)]);
        PartialAppend([LoopBegin(id)], Instrs(cond));
        PartialAppend([LoopBegin(id)] + Instrs(cond), enter);
        PartialAppend([LoopBegin(id)] + Instrs(cond) + enter, b);
        PartialAppend([LoopBegin(id)] + Instrs(cond) + enter + b, back);
        PartialAppend([LoopBegin(id)] + Instrs(cond) + enter + b + back, [LoopEnd(id)]);
      case Branch(_, cond, result, thn, els) =>
        InlineTaken(thn);
        InlineTaken(els);
        InstrsTaken(cond);
        var t, e := Inline(thn), Inline(els);
        var enter, skip := [Instr(RelJumpCondition(Len(e) + 2, result))], [Instr(RelJump(Len(t) + 1))];
        PartialNone(enter);
        PartialNone(skip);
        PartialAppend(Instrs(cond), enter);
        PartialAppend(Instrs(cond) + enter, e);
        PartialAppend(Instrs(cond) + enter + e, skip);
        PartialAppend(Instrs(cond) + enter + e + skip, t);
      case _ => PartialNone(InlineItem(x));
    }
  }

  lemma {:induction false} BlockTaken(stmts: seq<Stmt>, n: nat, loop: nat)
    ensures ItemsTaken(BlockCode(stmts, n, loop).items)
    decreases stmts
  {
    hide StmtCode, ItemsTaken;
    if stmts == [] {
      NothingTaken();
    } else {
      var c := StmtCode(stmts[0], n, loop);
      StmtTaken(stmts[0], n, loop);
      BlockTaken(stmts[1..], c.next, loop);
      ItemsAppend(c.items, BlockCode(stmts[1..], c.next, loop).items);
    }
  }

  lemma NothingTaken()
    ensures ItemsTaken([])
  {
  }

  /** An expression's code, and one more instruction behind it. */
  lemma CodeTaken(tmps: seq<Temp>, last: Instruction)
    requires !last.FnCall?
    ensures CallsTaken(TranslateExpr(tmps)) && CallsTaken(TranslateExpr(tmps) + [last])
    ensures ItemsTaken(PlainItems(TranslateExpr(tmps))) && ItemsTaken(PlainItems(TranslateExpr(tmps) + [last]))
  {
    hide CallsTaken, ItemsTaken, TranslateExpr;
    ExprTaken(tmps);
    NoCalls([last]);
    TakenAppend(TranslateExpr(tmps), [last]);
    PlainItemsTaken(TranslateExpr(tmps));
    PlainItemsTaken(TranslateExpr(tmps) + [last]);
  }

  lemma {:induction false} StmtTaken(s: Stmt, n: nat, loop: nat)
    ensures ItemsTaken(StmtCode(s, n, loop).items)
    decreases s
  {
    hide ItemsTaken, CallsTaken, Flatten, BlockCode, ArmsCode, TranslateExpr, FlattenAccess;
    var items := StmtCode(s, n, loop).items;
    match s {
      case ExprStmt(e) => CodeTaken(Flatten(e, n).tmps, Jump(0));
      case Local(x, e) =>
        var f := Flatten(e, n);
        CodeTaken(f.tmps, Store(Namespace(User(x)), TmpArg(ResultId(f))));
      case Assign(root, rootIndex, path, value) =>
        var a := FlattenAccess(root, rootIndex, path, n).access;
        var f := Flatten(value, FlattenAccess(root, rootIndex, path, n).next);
        var last := Store(AccessLocation(a), TmpArg(ResultId(f)));
        ExprTaken(f.tmps);
        AccessTaken(a);
        NoCalls([last]);
        TakenAppend(ExprCode(f), AccessCode(a));
        TakenAppend(ExprCode(f) + AccessCode(a), [last]);
        PlainItemsTaken(AssignCode(a, f));
      case Return(Some(e)) =>
        var f := Flatten(e, n);
        CodeTaken(f.tmps, Instruction.Return(Some(TmpArg(ResultId(f)))));
      case While(cond, body) =>
        var f := Flatten(cond, n + 1);
        ExprTaken(f.tmps);
        BlockTaken(body, f.next, n);
        OneTaken(items[0]);
      case If(cond, body, rest) =>
        var f := Flatten(cond, BlockCode(body, n, loop).next + 1);
        ExprTaken(f.tmps);
        BlockTaken(body, n, loop);
        ArmsTaken(rest, f.next, loop);
        OneTaken(items[0]);
      case _ => OneTaken(items[0]);
    }
  }

  lemma {:induction false} ArmsTaken(a: Arms, n: nat, loop: nat)
    ensures ItemsTaken(ArmsCode(a, n, loop).items)
    decreases a
  {
    hide ItemsTaken, CallsTaken, Flatten, BlockCode, TranslateExpr;
    match a {
      case NoMore => NothingTaken();
      case Default(b) => BlockTaken(b, n, loop);
      case Elif(cond, body, rest) =>
        var f := Flatten(cond, BlockCode(body, n, loop).next + 1);
        ExprTaken(f.tmps);
        BlockTaken(body, n, loop);
        ArmsTaken(rest, f.next, loop);
        OneTaken(ArmsCode(a, n, loop).items[0]);
    }
  }

  /** Where an emitted instruction came from. */
  lemma {:induction false} ResolveOrigin(xs: seq<Partial>, n: nat, j: nat) returns (i: nat)
    requires n <= |xs| && j < |ResolvePrefix(xs, n)|
    ensures i < n && !IsMarker(xs[i]) && Pos(xs, i) == j && ResolvePrefix(xs, n)[j] == Meant(xs, i)
    decreases n
  {
    hide Len, Meant;
    ResolvePrefixLength(xs, n - 1);
    if j < |ResolvePrefix(xs, n - 1)| {
      i := ResolveOrigin(xs, n - 1, j);
    } else {
      i := n - 1;
    }
  }

  lemma ResolveTaken(xs: seq<Partial>)
    requires PartialTaken(xs)
    ensures CallsTaken(Resolve(xs))
  {
    hide Len, ResolvePrefix, IndexOf;
    var code := Resolve(xs);
    forall j | 0 <= j < |code| && code[j].FnCall? ensures j + 1 < |code| && code[j + 1].TakeReturn? {
      var i := ResolveOrigin(xs, |xs|, j);
      assert xs[i].Instr? && xs[i + 1].Instr?;
      PosStep(xs, i);
      ResolveAt(xs, i + 1);
    }
  }

  /** Every compiled function takes what it calls for. */
  lemma CompiledTaken(d: FnDef)
    ensures CallsTaken(CompileFn(d).code)
  {
    hide CallsTaken, ItemsTaken, BlockCode, Inline, Resolve, PartialTaken;
    BlockTaken(d.body, d.firstId, 0);
    NothingTaken();
    OneTaken(Plain(Instruction.Return(None)));
    ItemsAppend(BlockCode(d.body, d.firstId, 0).items, if d.returnsUnit then [Plain(Instruction.Return(None))] else []);
    InlineTaken(FunctionItems(d));
    ResolveTaken(Inline(FunctionItems(d)));
  }

  // ---------------------------------------------------------------- and so no run is ever out of step

  /** A suspended frame: it has made a call, and will take the result next. */
  ghost predicate Suspended(p: Program, f: Frame) {
    && f.ByteFrame? && f.fn in p.code && 0 < f.ip < |p.code[f.fn].code|
    && p.code[f.fn].code[f.ip - 1].FnCall? && p.code[f.fn].code[f.ip].TakeReturn?
  }

  ghost predicate InStep(p: Program, s: State) {
    forall i :: 0 <= i < |s.stack| ==> Suspended(p, s.stack[i])
  }

  ghost predicate ProgramTaken(p: Program) {
    forall id :: id in p.code ==> CallsTaken(p.code[id].code)
  }

  lemma StepInStep(p: Program, s: State)
    requires ProgramTaken(p) && InStep(p, s) && Step(p, s).Running?
    ensures InStep(p, Step(p, s).state)
  {
    hide Execute, CreateFrame, CallsTaken;
    if s.top.ByteFrame? {
      var code := p.code[s.top.fn].code;
      var a := Execute(p.floats, code[s.top.ip], s.top.env, s.register).value;
      if a.PushStack? {
        PushIsCall(p.floats, code[s.top.ip], s.top.env, s.register);
        CallAt(code, s.top.ip);
      }
    }
  }

  lemma CallAt(code: seq<Instruction>, i: nat)
    requires CallsTaken(code) && i < |code| && code[i].FnCall?
    ensures i + 1 < |code| && code[i + 1].TakeReturn?
  {
  }

  lemma PushIsCall(fl: Floats, instr: Instruction, env: Env, reg: Option<Value>)
    ensures Execute(fl, instr, env, reg).Success? && Execute(fl, instr, env, reg).value.PushStack? ==> instr.FnCall?
  {
    hide ArgValue, ArgValues, Fetch, StoreAt, IntOperand, FloatOperand, BoolOperand, FieldValues, ValueEq, NegateValue, IntArith;
  }

  lemma {:induction false} RunInStep(p: Program, s: State, n: nat)
    requires ProgramTaken(p) && InStep(p, s) && Run(p, s, n).Running?
    ensures InStep(p, Run(p, s, n).state)
    decreases n
  {
    hide Step, ProgramTaken, InStep;
    if n > 0 {
      StepInStep(p, s);
      RunInStep(p, Step(p, s).state, n - 1);
    }
  }

  /** In every reachable state every suspended frame stands right behind its call, at the instruction that takes the result. */
  lemma CallersWait(w: World, id: FnId, args: seq<Value>, k: nat)
    requires RunFrom(CompileWorld(w), id, args, k).Running?
    ensures InStep(CompileWorld(w), RunFrom(CompileWorld(w), id, args, k).state)
  {
    hide Step, Run, CreateFrame;
    var p := CompileWorld(w);
    forall f | f in p.code ensures CallsTaken(p.code[f].code) {
      CompiledTaken(w.fns[f]);
    }
    RunInStep(p, Start(p, id, args).state, k);
  }

  /** In every reachable state of a traced program the top frame has an instruction to execute, and when that takes
      a result, there is one in the register. */
  lemma TopReady(w: World, id: FnId, args: seq<Value>, k: nat)
    requires Compilable(w) && Traced(w) && RunFrom(CompileWorld(w), id, args, k).Running?
    ensures var s, p := RunFrom(CompileWorld(w), id, args, k).state, CompileWorld(w);
      s.top.ByteFrame? && s.top.fn in p.code ==>
        && s.top.ip < |p.code[s.top.fn].code|
        && (p.code[s.top.fn].code[s.top.ip].TakeReturn? ==> s.register.Some?)
  {
    hide CompileWorld, Traced, Compilable, Run;
    var p := CompileWorld(w);
    var s := RunFrom(p, id, args, k).state;
    ControlStays(w, id, args, k + 1);
    NextIs(p, Start(p, id, args).state, k);
  }

  lemma NextIs(p: Program, s: State, k: nat)
    requires Run(p, s, k).Running?
    ensures Run(p, s, k + 1) == Step(p, Run(p, s, k).state)
  {
    hide Step;
    RunAdd(p, s, k, 1);
    var s' := Run(p, s, k).state;
    assert Run(p, s', 1) == match Step(p, s') case Running(t) => Run(p, t, 0) case o => o;
  }
}
