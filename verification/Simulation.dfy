/** The compiled code does what the evaluator says, for every outcome: a value, a fault, or a computation
    that is still going when its fuel is spent. */
module Simulation {
  import opened Values
  import opened Syntax
  import opened ByteCode
  import opened ExprFlow
  import opened ByteExpr
  import opened Frames
  import opened SecondPass
  import opened ThirdPass
  import opened Layout
  import opened Machine
  import opened Evaluator
  import opened Compiler
  import opened SimBase
  import opened SimFlow

  // ---------------------------------------------------------------- expressions

  lemma {:induction false} ExprSim(c: Ctx, e: Expr, n: nat, ip: nat, vars: Vars, tmps: Vars, reg: Option<Value>, fuel: nat)
    returns (k: nat, tmps': Vars, reg': Option<Value>)
    requires CtxOk(c) && VarsOk(vars) && TmpsOk(tmps)
    requires Loaded(CodeOf(c), ip, TranslateExpr(Flatten(e, n).tmps))
    ensures Follows(c, ip, |TranslateExpr(Flatten(e, n).tmps)|, vars, tmps, reg,
                    Eval(c.w, e, vars, fuel), Flatten(e, n).next - 1, n, Flatten(e, n).next, fuel, k, tmps', reg')
    decreases fuel, 1, e, 2
  {
    hide Run, Execute, CompileWorld, CompileFn, Resolve, Step, TranslateExpr, EvalCall, EvalList, EvalChain, EvalIndex, EvalPath, FlattenCall, FlattenList, FlattenChain, FlattenIndex, FlattenPath, ReadPath, ValueEq, Keeps, Loaded, TmpsOk, WorldOk, Small;
    var fl := c.p.floats;
    var code := CodeOf(c);
    RunZero(c.p, At(c, ip, vars, tmps, reg));
    TranslateEmpty();
    match e {
      case Lit(l) =>
        PushLoaded(code, ip, [], n, TLit(l));
        LoadedAt(code, ip, TranslateTmp(Temp(n, TLit(l))), 0);
        LitExec(fl, l, n, Env(vars, tmps), reg);
        k, tmps', reg' := Finish(c, ip, ip, n, vars, tmps, reg, 0, tmps, reg, Success(LitValue(l)), n, fuel);
      case Var(x) =>
        PushLoaded(code, ip, [], n, TVar(x));
        LoadedAt(code, ip, TranslateTmp(Temp(n, TVar(x))), 0);
        VarExec(fl, User(x), n, Env(vars, tmps), reg);
        k, tmps', reg' := Finish(c, ip, ip, n, vars, tmps, reg, 0, tmps, reg, Lookup(vars, User(x)), n, fuel);
      case FnRef(id) =>
        PushLoaded(code, ip, [], n, TFn(id));
        LoadedAt(code, ip, TranslateTmp(Temp(n, TFn(id))), 0);
        VarExec(fl, FnName(id), n, Env(vars, tmps), reg);
        k, tmps', reg' := Finish(c, ip, ip, n, vars, tmps, reg, 0, tmps, reg, Lookup(vars, FnName(id)), n, fuel);
      case Bin(_, _, _, _) =>
        k, tmps', reg' := BinSim(c, e, n, ip, vars, tmps, reg, fuel);
      case Uni(_, _) =>
        k, tmps', reg' := UniSim(c, e, n, ip, vars, tmps, reg, fuel);
      case Call(call) =>
        k, tmps', reg' := CallSim(c, call, [], [], n, ip, vars, tmps, reg, fuel);
      case Chain(_, _) =>
        k, tmps', reg' := ChainSim(c, e, n, ip, vars, tmps, reg, fuel);
      case StructInit(_, _) =>
        k, tmps', reg' := StructInitSim(c, e, n, ip, vars, tmps, reg, fuel);
      case ArrayList(_) =>
        k, tmps', reg' := ArrayListSim(c, e, n, ip, vars, tmps, reg, fuel);
      case ArrayFill(_, _) =>
        k, tmps', reg' := ArrayFillSim(c, e, n, ip, vars, tmps, reg, fuel);
      case Indexing(_, _) =>
        k, tmps', reg' := IndexingSim(c, e, n, ip, vars, tmps, reg, fuel);
      case Access(root, rootIndex, path) =>
        k, tmps', reg' := AccessSim(c, root, rootIndex, path, n, ip, vars, tmps, reg, fuel);
    }
  }

  lemma {:induction false} BinSim(c: Ctx, e: Expr, n: nat, ip: nat, vars: Vars, tmps: Vars, reg: Option<Value>, fuel: nat)
    returns (k: nat, tmps': Vars, reg': Option<Value>)
    requires CtxOk(c) && VarsOk(vars) && TmpsOk(tmps) && e.Bin?
    requires Loaded(CodeOf(c), ip, TranslateExpr(Flatten(e, n).tmps))
    ensures Follows(c, ip, |TranslateExpr(Flatten(e, n).tmps)|, vars, tmps, reg,
                    Eval(c.w, e, vars, fuel), Flatten(e, n).next - 1, n, Flatten(e, n).next, fuel, k, tmps', reg')
    decreases fuel, 1, e, 1
  {
    hide Run, Execute, CompileWorld, CompileFn, Resolve, Step, TranslateExpr, Eval, Flatten, BinValue, BinInstr, Loaded, Small, WorldOk;
    var fl := c.p.floats;
    var code := CodeOf(c);
    var Bin(op, num, l, r) := e;
    BinEquation(c.w, op, num, l, r, n, vars, fuel);
    var f1 := Flatten(l, n);
    var f2 := Flatten(r, f1.next);
    var v := TBin(op, num, f1.next - 1, f2.next - 1);
    PushLoaded(code, ip, f1.tmps + f2.tmps, f2.next, v);
    AppendLoaded(code, ip, f1.tmps, f2.tmps);
    var k1, t1, r1 := ExprSim(c, l, n, ip, vars, tmps, reg, fuel);
    var a := Eval(c.w, l, vars, fuel);
    if a.Failure? { return k1, t1, r1; }
    var k2, t2, r2 := TwoSim(c, r, n, f1.next, ip, |TranslateExpr(f1.tmps)|, vars, tmps, reg, k1, t1, r1, fuel);
    var b := Eval(c.w, r, vars, fuel);
    if b.Failure? { return k2, t2, r2; }
    var ip1 := ip + |TranslateExpr(f1.tmps + f2.tmps)|;
    LoadedAt(code, ip1, TranslateTmp(Temp(f2.next, v)), 0);
    BinExec(fl, op, num, f1.next - 1, f2.next - 1, f2.next, Env(vars, t2), r2, a.value, b.value);
    k, tmps', reg' := Finish(c, ip, ip1, f2.next, vars, tmps, reg, k2, t2, r2, BinValue(fl, op, num, a.value, b.value), n, fuel);
  }

  lemma {:induction false} UniSim(c: Ctx, e: Expr, n: nat, ip: nat, vars: Vars, tmps: Vars, reg: Option<Value>, fuel: nat)
    returns (k: nat, tmps': Vars, reg': Option<Value>)
    requires CtxOk(c) && VarsOk(vars) && TmpsOk(tmps) && e.Uni?
    requires Loaded(CodeOf(c), ip, TranslateExpr(Flatten(e, n).tmps))
    ensures Follows(c, ip, |TranslateExpr(Flatten(e, n).tmps)|, vars, tmps, reg,
                    Eval(c.w, e, vars, fuel), Flatten(e, n).next - 1, n, Flatten(e, n).next, fuel, k, tmps', reg')
    decreases fuel, 1, e, 1
  {
    hide Run, Execute, CompileWorld, CompileFn, Resolve, Step, TranslateExpr, Eval, Flatten, UniValue, Small, WorldOk;
    var fl := c.p.floats;
    var code := CodeOf(c);
    var Uni(op, e1) := e;
    UniEquation(c.w, op, e1, n, vars, fuel);
    var f := Flatten(e1, n);
    var v := TUni(op, f.next - 1);
    PushLoaded(code, ip, f.tmps, f.next, v);
    var k1, t1, r1 := ExprSim(c, e1, n, ip, vars, tmps, reg, fuel);
    var a := Eval(c.w, e1, vars, fuel);
    if a.Failure? { return k1, t1, r1; }
    var ip1 := ip + |TranslateExpr(f.tmps)|;
    LoadedAt(code, ip1, TranslateTmp(Temp(f.next, v)), 0);
    UniExec(fl, op, f.next - 1, f.next, Env(vars, t1), r1, a.value);
    k, tmps', reg' := Finish(c, ip, ip1, f.next, vars, tmps, reg, k1, t1, r1, UniValue(fl, op, a.value), n, fuel);
  }

  lemma {:induction false} ChainSim(c: Ctx, e: Expr, n: nat, ip: nat, vars: Vars, tmps: Vars, reg: Option<Value>, fuel: nat)
    returns (k: nat, tmps': Vars, reg': Option<Value>)
    requires CtxOk(c) && VarsOk(vars) && TmpsOk(tmps) && e.Chain?
    requires Loaded(CodeOf(c), ip, TranslateExpr(Flatten(e, n).tmps))
    ensures Follows(c, ip, |TranslateExpr(Flatten(e, n).tmps)|, vars, tmps, reg,
                    Eval(c.w, e, vars, fuel), Flatten(e, n).next - 1, n, Flatten(e, n).next, fuel, k, tmps', reg')
    decreases fuel, 1, e, 1
  {
    hide Run, Execute, CompileWorld, CompileFn, Resolve, Step, TranslateExpr, Eval, Flatten, EvalCall, FlattenCall, EvalChain, FlattenChain, Loaded, Small, WorldOk;
    var fl := c.p.floats;
    var code := CodeOf(c);
    var Chain(base, chain) := e;
    ChainEquation(c.w, base, chain, n, vars, fuel);
    var fb := FlattenCall(base, [], n);
    var fc := FlattenChain(chain, fb.next - 1, fb.next);
    AppendLoaded(code, ip, fb.tmps, fc.tmps);
    var k1, t1, r1 := CallSim(c, base, [], [], n, ip, vars, tmps, reg, fuel);
    var v := EvalCall(c.w, base, [], vars, fuel);
    if v.Failure? { return k1, t1, r1; }
    var ip1 := ip + |TranslateExpr(fb.tmps)|;
    var k2, t2, r2 := StagesSim(c, chain, fb.next - 1, v.value, fb.next, ip1, vars, t1, r1, fuel);
    ThenFollows(c, ip, ip1, |TranslateExpr(fc.tmps)|, vars, tmps, reg, n, fb.next, fc.next, k1, t1, r1,
                EvalChain(c.w, chain, v.value, vars, fuel), if chain == [] then fb.next - 1 else fc.next - 1, fuel, k2, t2, r2);
    k, tmps', reg' := k1 + k2, t2, r2;
  }

  lemma {:induction false} StructInitSim(c: Ctx, e: Expr, n: nat, ip: nat, vars: Vars, tmps: Vars, reg: Option<Value>, fuel: nat)
    returns (k: nat, tmps': Vars, reg': Option<Value>)
    requires CtxOk(c) && VarsOk(vars) && TmpsOk(tmps) && e.StructInit?
    requires Loaded(CodeOf(c), ip, TranslateExpr(Flatten(e, n).tmps))
    ensures Follows(c, ip, |TranslateExpr(Flatten(e, n).tmps)|, vars, tmps, reg,
                    Eval(c.w, e, vars, fuel), Flatten(e, n).next - 1, n, Flatten(e, n).next, fuel, k, tmps', reg')
    decreases fuel, 1, e, 1
  {
    hide Run, Execute, CompileWorld, CompileFn, Resolve, Step, TranslateExpr, EvalCall, EvalList, EvalChain, EvalIndex, EvalPath, FlattenCall, FlattenList, FlattenChain, FlattenIndex, FlattenPath, ReadPath, ValueEq, Small, WorldOk;
    var fl := c.p.floats;
    var code := CodeOf(c);
    var StructInit(names, inits) := e;
    var f := FlattenList(inits, n);
    var v := TStruct(names, f.ids);
    PushLoaded(code, ip, f.tmps, f.next, v);
    var k1, t1, r1 := ListSim(c, inits, n, ip, vars, tmps, reg, fuel);
    var vs := EvalList(c.w, inits, vars, fuel);
    if vs.Failure? { return k1, t1, r1; }
    var ip1 := ip + |TranslateExpr(f.tmps)|;
    LoadedAt(code, ip1, TranslateTmp(Temp(f.next, v)), 0);
    StructExec(fl, names, f.ids, vs.value, f.next, Env(vars, t1), r1);
    k, tmps', reg' := Finish(c, ip, ip1, f.next, vars, tmps, reg, k1, t1, r1, Success(Struct(FieldMap(names, vs.value))), n, fuel);
  }

  lemma {:induction false} ArrayListSim(c: Ctx, e: Expr, n: nat, ip: nat, vars: Vars, tmps: Vars, reg: Option<Value>, fuel: nat)
    returns (k: nat, tmps': Vars, reg': Option<Value>)
    requires CtxOk(c) && VarsOk(vars) && TmpsOk(tmps) && e.ArrayList?
    requires Loaded(CodeOf(c), ip, TranslateExpr(Flatten(e, n).tmps))
    ensures Follows(c, ip, |TranslateExpr(Flatten(e, n).tmps)|, vars, tmps, reg,
                    Eval(c.w, e, vars, fuel), Flatten(e, n).next - 1, n, Flatten(e, n).next, fuel, k, tmps', reg')
    decreases fuel, 1, e, 1
  {
    hide Run, Execute, CompileWorld, CompileFn, Resolve, Step, TranslateExpr, EvalCall, EvalList, EvalChain, EvalIndex, EvalPath, FlattenCall, FlattenList, FlattenChain, FlattenIndex, FlattenPath, ReadPath, ValueEq, Small, WorldOk;
    var fl := c.p.floats;
    var code := CodeOf(c);
    var ArrayList(es) := e;
    var f := FlattenList(es, n);
    var v := TArrayList(f.ids);
    PushLoaded(code, ip, f.tmps, f.next, v);
    var k1, t1, r1 := ListSim(c, es, n, ip, vars, tmps, reg, fuel);
    var vs := EvalList(c.w, es, vars, fuel);
    if vs.Failure? { return k1, t1, r1; }
    var ip1 := ip + |TranslateExpr(f.tmps)|;
    LoadedAt(code, ip1, TranslateTmp(Temp(f.next, v)), 0);
    ArrayListExec(fl, f.ids, vs.value, f.next, Env(vars, t1), r1);
    k, tmps', reg' := Finish(c, ip, ip1, f.next, vars, tmps, reg, k1, t1, r1, Success(Arr(vs.value)), n, fuel);
  }

  lemma {:induction false} ArrayFillSim(c: Ctx, e: Expr, n: nat, ip: nat, vars: Vars, tmps: Vars, reg: Option<Value>, fuel: nat)
    returns (k: nat, tmps': Vars, reg': Option<Value>)
    requires CtxOk(c) && VarsOk(vars) && TmpsOk(tmps) && e.ArrayFill?
    requires Loaded(CodeOf(c), ip, TranslateExpr(Flatten(e, n).tmps))
    ensures Follows(c, ip, |TranslateExpr(Flatten(e, n).tmps)|, vars, tmps, reg,
                    Eval(c.w, e, vars, fuel), Flatten(e, n).next - 1, n, Flatten(e, n).next, fuel, k, tmps', reg')
    decreases fuel, 1, e, 1
  {
    hide Run, Execute, CompileWorld, CompileFn, Resolve, Step, TranslateExpr, Eval, Flatten, Small, WorldOk;
    var fl := c.p.floats;
    var code := CodeOf(c);
    var ArrayFill(e1, size) := e;
    ArrayFillEquation(c.w, e1, size, n, vars, fuel);
    var f := Flatten(e1, n);
    var v := TArrayFill(f.next - 1, size);
    PushLoaded(code, ip, f.tmps, f.next, v);
    var k1, t1, r1 := ExprSim(c, e1, n, ip, vars, tmps, reg, fuel);
    var a := Eval(c.w, e1, vars, fuel);
    if a.Failure? { return k1, t1, r1; }
    var ip1 := ip + |TranslateExpr(f.tmps)|;
    LoadedAt(code, ip1, TranslateTmp(Temp(f.next, v)), 0);
    ArrayFillExec(fl, f.next - 1, size, f.next, Env(vars, t1), r1, a.value);
    k, tmps', reg' := Finish(c, ip, ip1, f.next, vars, tmps, reg, k1, t1, r1, Success(Arr(seq(size, _ => a.value))), n, fuel);
  }

  lemma {:induction false} IndexingSim(c: Ctx, e: Expr, n: nat, ip: nat, vars: Vars, tmps: Vars, reg: Option<Value>, fuel: nat)
    returns (k: nat, tmps': Vars, reg': Option<Value>)
    requires CtxOk(c) && VarsOk(vars) && TmpsOk(tmps) && e.Indexing?
    requires Loaded(CodeOf(c), ip, TranslateExpr(Flatten(e, n).tmps))
    ensures Follows(c, ip, |TranslateExpr(Flatten(e, n).tmps)|, vars, tmps, reg,
                    Eval(c.w, e, vars, fuel), Flatten(e, n).next - 1, n, Flatten(e, n).next, fuel, k, tmps', reg')
    decreases fuel, 1, e, 1
  {
    hide Run, Execute, CompileWorld, CompileFn, Resolve, Step, TranslateExpr, Eval, Flatten, ReadPath, Loaded, VarsOk, TmpsOk, Small, WorldOk;
    var fl := c.p.floats;
    var code := CodeOf(c);
    var Indexing(a, i) := e;
    IndexingEquation(c.w, a, i, n, vars, fuel);
    var f1 := Flatten(a, n);
    var f2 := Flatten(i, f1.next);
    var v := TIndexing(f1.next - 1, f2.next - 1);
    PushLoaded(code, ip, f1.tmps + f2.tmps, f2.next, v);
    AppendLoaded(code, ip, f1.tmps, f2.tmps);
    var k1, t1, r1 := ExprSim(c, a, n, ip, vars, tmps, reg, fuel);
    var va := Eval(c.w, a, vars, fuel);
    if va.Failure? { return k1, t1, r1; }
    var k2, t2, r2 := TwoSim(c, i, n, f1.next, ip, |TranslateExpr(f1.tmps)|, vars, tmps, reg, k1, t1, r1, fuel);
    var vi := Eval(c.w, i, vars, fuel);
    if vi.Failure? { return k2, t2, r2; }
    var ip1 := ip + |TranslateExpr(f1.tmps + f2.tmps)|;
    LoadedAt(code, ip1, TranslateTmp(Temp(f2.next, v)), 0);
    IndexingExec(fl, f1.next - 1, f2.next - 1, f2.next, Env(vars, t2), r2, va.value, vi.value);
    k, tmps', reg' := Finish(c, ip, ip1, f2.next, vars, tmps, reg, k2, t2, r2, ReadPath(va.value, [ToIndex(vi.value)]), n, fuel);
  }

  /** A second operand, run behind a first. */
  lemma {:induction false} TwoSim(c: Ctx, e: Expr, n: nat, n1: nat, ip: nat, len1: nat, vars: Vars, tmps: Vars, reg: Option<Value>,
                                  k1: nat, t1: Vars, r1: Option<Value>, fuel: nat)
    returns (k: nat, t2: Vars, r2: Option<Value>)
    requires CtxOk(c) && VarsOk(vars) && n <= n1
    requires Ran(c, ip, ip + len1, vars, tmps, reg, n, n1, k1, t1, r1)
    requires Loaded(CodeOf(c), ip + len1, TranslateExpr(Flatten(e, n1).tmps))
    ensures Follows(c, ip, len1 + |TranslateExpr(Flatten(e, n1).tmps)|, vars, tmps, reg,
                    Eval(c.w, e, vars, fuel), Flatten(e, n1).next - 1, n, Flatten(e, n1).next, fuel, k, t2, r2)
    ensures Eval(c.w, e, vars, fuel).Success? ==> Keeps(t1, t2, n1, Flatten(e, n1).next)
    decreases fuel, 1, e, 3
  {
    hide Run, Execute, CompileWorld, CompileFn, Resolve, Step, TranslateExpr, Eval, Flatten;
    var k2;
    k2, t2, r2 := ExprSim(c, e, n1, ip + len1, vars, t1, r1, fuel);
    ThenFollows(c, ip, ip + len1, |TranslateExpr(Flatten(e, n1).tmps)|, vars, tmps, reg, n, n1, Flatten(e, n1).next, k1, t1, r1,
                Eval(c.w, e, vars, fuel), Flatten(e, n1).next - 1, fuel, k2, t2, r2);
    k := k1 + k2;
  }

  lemma ThenFollows(c: Ctx, ip: nat, ip1: nat, len: nat, vars: Vars, tmps: Vars, reg: Option<Value>, n: nat, n1: nat, m: nat,
                    k1: nat, t1: Vars, r1: Option<Value>, r: Result<Value>, id: TmpId, fuel: nat, k2: nat, t2: Vars, r2: Option<Value>)
    requires Ran(c, ip, ip1, vars, tmps, reg, n, n1, k1, t1, r1) && n <= n1 <= m && ip <= ip1
    requires Follows(c, ip1, len, vars, t1, r1, r, id, n1, m, fuel, k2, t2, r2)
    ensures Follows(c, ip, ip1 - ip + len, vars, tmps, reg, r, id, n, m, fuel, k1 + k2, t2, r2)
  {
    var s1 := At(c, ip1, vars, t1, r1);
    if r.Success? {
      RanThen(c, ip, ip1, ip1 + len, vars, tmps, reg, n, n1, m, k1, t1, r1, k2, t2, r2);
    } else {
      StopsAfter(c.p, At(c, ip, vars, tmps, reg), k1, s1, k2, r.error, fuel);
    }
  }

  lemma {:induction false} ListIdsBelow(es: seq<Expr>, n: nat)
    ensures forall i :: 0 <= i < |es| ==> n <= FlattenList(es, n).ids[i] < FlattenList(es, n).next
  {
    if es != [] {
      ListIdsBelow(es[1..], Flatten(es[0], n).next);
    }
  }

  lemma {:induction false} ListSim(c: Ctx, es: seq<Expr>, n: nat, ip: nat, vars: Vars, tmps: Vars, reg: Option<Value>, fuel: nat)
    returns (k: nat, tmps': Vars, reg': Option<Value>)
    requires CtxOk(c) && VarsOk(vars) && TmpsOk(tmps)
    requires Loaded(CodeOf(c), ip, TranslateExpr(FlattenList(es, n).tmps))
    ensures FollowsList(c, ip, |TranslateExpr(FlattenList(es, n).tmps)|, vars, tmps, reg,
                        EvalList(c.w, es, vars, fuel), FlattenList(es, n).ids, n, FlattenList(es, n).next, fuel, k, tmps', reg')
    decreases fuel, 1, es
  {
    hide Run, Execute, CompileWorld, CompileFn, Resolve, Step, TranslateExpr, Eval, Flatten, Small, WorldOk;
    if es == [] {
      RunZero(c.p, At(c, ip, vars, tmps, reg));
      TranslateEmpty();
      return 0, tmps, reg;
    }
    var f := Flatten(es[0], n);
    var rest := FlattenList(es[1..], f.next);
    AppendLoaded(CodeOf(c), ip, f.tmps, rest.tmps);
    var k1, t1, r1 := ExprSim(c, es[0], n, ip, vars, tmps, reg, fuel);
    var v := Eval(c.w, es[0], vars, fuel);
    if v.Failure? { return k1, t1, r1; }
    var ip1 := ip + |TranslateExpr(f.tmps)|;
    var k2, t2, r2 := ListSim(c, es[1..], f.next, ip1, vars, t1, r1, fuel);
    var vs := EvalList(c.w, es[1..], vars, fuel);
    k, tmps', reg' := k1 + k2, t2, r2;
    if vs.Failure? {
      StopsAfter(c.p, At(c, ip, vars, tmps, reg), k1, At(c, ip1, vars, t1, r1), k2, vs.error, fuel);
    } else {
      RanThen(c, ip, ip1, ip1 + |TranslateExpr(rest.tmps)|, vars, tmps, reg, n, f.next, rest.next, k1, t1, r1, k2, t2, r2);
      ListHolds(t1, t2, f.next, rest.next, v.value, rest.ids, vs.value);
    }
  }

  lemma ListHolds(t1: Vars, t2: Vars, n: nat, m: nat, v: Value, ids: seq<TmpId>, vs: seq<Value>)
    requires n > 0 && Holds(t1, n - 1, v) && Keeps(t1, t2, n, m) && HoldAll(t2, ids, vs)
    ensures HoldAll(t2, [n - 1] + ids, [v] + vs)
  {
    forall i | 0 <= i < |ids| + 1 ensures Holds(t2, ([n - 1] + ids)[i], ([v] + vs)[i]) {
      if i > 0 {
        assert Holds(t2, ids[i - 1], vs[i - 1]);
      }
    }
  }

  // ---------------------------------------------------------------- paths

  ghost predicate FollowsPath(c: Ctx, ip: nat, len: nat, vars: Vars, tmps: Vars, reg: Option<Value>,
                              r: Result<seq<PathStep>>, path: seq<TmpSeg>, n: nat, m: nat, fuel: nat,
                              k: nat, tmps': Vars, reg': Option<Value>)
  {
    if r.Success? then
      && Ran(c, ip, ip + len, vars, tmps, reg, n, m, k, tmps', reg')
      && PathSteps(Env(vars, tmps'), PathAccess(path)) == Success(r.value)
    else Stops(c.p, At(c, ip, vars, tmps, reg), k, r.error, fuel)
  }

  lemma {:induction false} PathSim(c: Ctx, path: seq<Seg>, n: nat, ip: nat, vars: Vars, tmps: Vars, reg: Option<Value>, fuel: nat)
    returns (k: nat, tmps': Vars, reg': Option<Value>)
    requires CtxOk(c) && VarsOk(vars) && TmpsOk(tmps)
    requires Loaded(CodeOf(c), ip, PathCode(FlattenPath(path, n).path))
    ensures FollowsPath(c, ip, |PathCode(FlattenPath(path, n).path)|, vars, tmps, reg,
                        EvalPath(c.w, path, vars, fuel), FlattenPath(path, n).path, n, FlattenPath(path, n).next, fuel, k, tmps', reg')
    decreases fuel, 1, path
  {
    hide Run, Execute, CompileWorld, CompileFn, Resolve, Step, TranslateExpr, Eval, Flatten, PathSteps, EvalPath, FlattenPath, PathCode, PathAccess, Small, WorldOk;
    RunZero(c.p, At(c, ip, vars, tmps, reg));
    if path == [] {
      NoPath(c.w, n, vars, fuel, Env(vars, tmps));
      return 0, tmps, reg;
    }
    match path[0] {
      case SegField(f) =>
        FieldEquation(c.w, path, n, vars, fuel, Env(vars, tmps));
        k, tmps', reg' := PathSim(c, path[1..], n, ip, vars, tmps, reg, fuel);
        FieldEquation(c.w, path, n, vars, fuel, Env(vars, tmps'));
      case SegIndex(f, e) =>
        var fe := Flatten(e, n);
        var rest := FlattenPath(path[1..], fe.next);
        FieldIndexEquation(c.w, path, n, vars, fuel, Env(vars, tmps));
        LoadedSplit(CodeOf(c), ip, TranslateExpr(fe.tmps), PathCode(rest.path));
        var k1, t1, r1 := ExprSim(c, e, n, ip, vars, tmps, reg, fuel);
        var v := Eval(c.w, e, vars, fuel);
        if v.Failure? { return k1, t1, r1; }
        var ip1 := ip + |TranslateExpr(fe.tmps)|;
        var k2, t2, r2 := PathSim(c, path[1..], fe.next, ip1, vars, t1, r1, fuel);
        var steps := EvalPath(c.w, path[1..], vars, fuel);
        k, tmps', reg' := k1 + k2, t2, r2;
        if steps.Failure? {
          StopsAfter(c.p, At(c, ip, vars, tmps, reg), k1, At(c, ip1, vars, t1, r1), k2, steps.error, fuel);
        } else {
          RanThen(c, ip, ip1, ip1 + |PathCode(rest.path)|, vars, tmps, reg, n, fe.next, rest.next, k1, t1, r1, k2, t2, r2);
          GetTmp(Env(vars, t2), fe.next - 1, v.value);
          FieldIndexEquation(c.w, path, n, vars, fuel, Env(vars, t2));
        }
    }
  }

  /** The steps a path takes, root index first. */
  function EvalSteps(w: World, rootIndex: Option<Expr>, path: seq<Seg>, vars: Vars, fuel: nat): Result<seq<PathStep>> {
    var s0 :- EvalIndex(w, rootIndex, vars, fuel);
    var s1 :- EvalPath(w, path, vars, fuel);
    Success(s0 + s1)
  }

  ghost predicate FollowsSteps(c: Ctx, ip: nat, len: nat, vars: Vars, tmps: Vars, reg: Option<Value>,
                               r: Result<seq<PathStep>>, a: TmpAccess, n: nat, m: nat, fuel: nat,
                               k: nat, tmps': Vars, reg': Option<Value>)
  {
    if r.Success? then
      && Ran(c, ip, ip + len, vars, tmps, reg, n, m, k, tmps', reg')
      && StepsReady(Env(vars, tmps'), a, r.value)
    else Stops(c.p, At(c, ip, vars, tmps, reg), k, r.error, fuel)
  }

  lemma {:induction false} StepsSim(c: Ctx, root: string, rootIndex: Option<Expr>, path: seq<Seg>, n: nat, ip: nat,
                                    vars: Vars, tmps: Vars, reg: Option<Value>, fuel: nat)
    returns (k: nat, tmps': Vars, reg': Option<Value>)
    requires CtxOk(c) && VarsOk(vars) && TmpsOk(tmps)
    requires Loaded(CodeOf(c), ip, AccessCode(FlattenAccess(root, rootIndex, path, n).access))
    ensures FollowsSteps(c, ip, |AccessCode(FlattenAccess(root, rootIndex, path, n).access)|, vars, tmps, reg,
                         EvalSteps(c.w, rootIndex, path, vars, fuel), FlattenAccess(root, rootIndex, path, n).access,
                         n, FlattenAccess(root, rootIndex, path, n).next, fuel, k, tmps', reg')
    decreases fuel, 1, Access(root, rootIndex, path), 0
  {
    hide Run, Execute, CompileWorld, CompileFn, Resolve, Step, TranslateExpr, Eval, Flatten, EvalPath, FlattenPath, PathCode, PathAccess, Small, WorldOk;
    var fi := FlattenIndex(rootIndex, n);
    var fp := FlattenPath(path, fi.next);
    LoadedSplit(CodeOf(c), ip, IndexCode(fi.index), PathCode(fp.path));
    match rootIndex {
      case None =>
        k, tmps', reg' := PathSim(c, path, n, ip, vars, tmps, reg, fuel);
        if EvalPath(c.w, path, vars, fuel).Success? {
          var s1 := EvalPath(c.w, path, vars, fuel).value;
          assert [] + s1 == s1;
        }
      case Some(e) =>
        var k1, t1, r1 := ExprSim(c, e, n, ip, vars, tmps, reg, fuel);
        var v := Eval(c.w, e, vars, fuel);
        if v.Failure? { return k1, t1, r1; }
        var ip1 := ip + |IndexCode(fi.index)|;
        var k2, t2, r2 := PathSim(c, path, fi.next, ip1, vars, t1, r1, fuel);
        var steps := EvalPath(c.w, path, vars, fuel);
        k, tmps', reg' := k1 + k2, t2, r2;
        if steps.Failure? {
          StopsAfter(c.p, At(c, ip, vars, tmps, reg), k1, At(c, ip1, vars, t1, r1), k2, steps.error, fuel);
        } else {
          RanThen(c, ip, ip1, ip1 + |PathCode(fp.path)|, vars, tmps, reg, n, fi.next, fp.next, k1, t1, r1, k2, t2, r2);
          LastTmpOfFlatten(e, n);
          GetTmp(Env(vars, t2), fi.next - 1, v.value);
        }
    }
  }

  lemma {:induction false} AccessSim(c: Ctx, root: string, rootIndex: Option<Expr>, path: seq<Seg>, n: nat, ip: nat,
                                     vars: Vars, tmps: Vars, reg: Option<Value>, fuel: nat)
    returns (k: nat, tmps': Vars, reg': Option<Value>)
    requires CtxOk(c) && VarsOk(vars) && TmpsOk(tmps)
    requires Loaded(CodeOf(c), ip, TranslateExpr(Flatten(Access(root, rootIndex, path), n).tmps))
    ensures Follows(c, ip, |TranslateExpr(Flatten(Access(root, rootIndex, path), n).tmps)|, vars, tmps, reg,
                    Eval(c.w, Access(root, rootIndex, path), vars, fuel),
                    Flatten(Access(root, rootIndex, path), n).next - 1, n, Flatten(Access(root, rootIndex, path), n).next, fuel, k, tmps', reg')
    decreases fuel, 1, Access(root, rootIndex, path), 1
  {
    hide Run, Execute, CompileWorld, CompileFn, Resolve, Step, TranslateExpr, EvalIndex, EvalPath, FlattenIndex, FlattenPath, AccessCode, ReadPath, Keeps, AccessLocation, Small, WorldOk;
    var fa := FlattenAccess(root, rootIndex, path, n);
    var a := fa.access;
    AccessEquation(c.w, root, rootIndex, path, n, vars, fuel);
    TranslateEmpty();
    PushLoaded(CodeOf(c), ip, [], fa.next, TAccess(a));
    var store := Store(TmpLoc(fa.next), Loc(AccessLocation(a)));
    LoadedSplit(CodeOf(c), ip, AccessCode(a), [store]);
    var k1, t1, r1 := StepsSim(c, root, rootIndex, path, n, ip, vars, tmps, reg, fuel);
    var steps := EvalSteps(c.w, rootIndex, path, vars, fuel);
    if steps.Failure? { return k1, t1, r1; }
    var ip1 := ip + |AccessCode(a)|;
    LoadedAt(CodeOf(c), ip1, [store], 0);
    AccessExec(c.p.floats, a, steps.value, fa.next, Env(vars, t1), r1);
    var r := if User(root) in vars then ReadPath(vars[User(root)], steps.value) else Failure(UnboundPanic);
    assert Eval(c.w, Access(root, rootIndex, path), vars, fuel) == r;
    k, tmps', reg' := Finish(c, ip, ip1, fa.next, vars, tmps, reg, k1, t1, r1, r, n, fuel);
  }

  // ---------------------------------------------------------------- calls

  lemma HoldAllConcat(tmps: Vars, a: seq<TmpId>, va: seq<Value>, b: seq<TmpId>, vb: seq<Value>)
    requires HoldAll(tmps, a, va) && HoldAll(tmps, b, vb)
    ensures HoldAll(tmps, a + b, va + vb)
  {
    forall i | 0 <= i < |a + b| ensures Holds(tmps, (a + b)[i], (va + vb)[i]) {
      if i >= |a| {
        assert Holds(tmps, b[i - |a|], vb[i - |a|]);
      } else {
        assert Holds(tmps, a[i], va[i]);
      }
    }
  }

  lemma {:induction false} CallSim(c: Ctx, call: CallExpr, pre: seq<TmpId>, preVals: seq<Value>, n: nat, ip: nat,
                                   vars: Vars, tmps: Vars, reg: Option<Value>, fuel: nat)
    returns (k: nat, tmps': Vars, reg': Option<Value>)
    requires CtxOk(c) && VarsOk(vars) && TmpsOk(tmps)
    requires HoldAll(tmps, pre, preVals) && forall i :: 0 <= i < |pre| ==> pre[i] < n
    requires Loaded(CodeOf(c), ip, TranslateExpr(FlattenCall(call, pre, n).tmps))
    ensures Follows(c, ip, |TranslateExpr(FlattenCall(call, pre, n).tmps)|, vars, tmps, reg,
                    EvalCall(c.w, call, preVals, vars, fuel), FlattenCall(call, pre, n).next - 1, n, FlattenCall(call, pre, n).next, fuel, k, tmps', reg')
    decreases fuel, 1, call
  {
    hide Run, Execute, CompileWorld, CompileFn, Resolve, Step, TranslateExpr, Eval, Flatten, EvalList, FlattenList, Invoke, Lookup, CalleeTmp, Loaded, Small, WorldOk;
    var code := CodeOf(c);
    var callee := CalleeTmp(call.callee, n);
    RunZero(c.p, At(c, ip, vars, tmps, reg));
    var fa := FlattenList(call.args, n + 1);
    var v := TCall(n, pre + fa.ids);
    PushLoaded(code, ip, [callee] + fa.tmps, fa.next, v);
    AppendLoaded(code, ip, [callee], fa.tmps);
    TranslateOne(callee);
    var f := Lookup(vars, CalleeName(call.callee));
    var k1, t1, r1 := CalleeSim(c, call.callee, n, ip, vars, tmps, reg, fuel);
    if f.Failure? { return k1, t1, r1; }
    var k2, t2, r2 := ListSim(c, call.args, n + 1, ip + 1, vars, t1, r1, fuel);
    var args := EvalList(c.w, call.args, vars, fuel);
    if args.Failure? {
      StopsAfter(c.p, At(c, ip, vars, tmps, reg), k1, At(c, ip + 1, vars, t1, r1), k2, args.error, fuel);
      return k1 + k2, t2, r2;
    }
    var ip2 := ip + 1 + |TranslateExpr(fa.tmps)|;
    RanThen(c, ip, ip + 1, ip2, vars, tmps, reg, n, n + 1, fa.next, k1, t1, r1, k2, t2, r2);
    HoldAllKeeps(tmps, t2, pre, preVals, n, fa.next);
    HoldAllConcat(t2, pre, preVals, fa.ids, args.value);
    var r := Invoke(c.w, f.value, preVals + args.value, fuel);
    var k3 := InvokeSim(c, ip2, n, pre + fa.ids, fa.next, vars, t2, r2, f.value, preVals + args.value, fuel);
    k, reg' := k1 + k2 + k3, None;
    tmps' := if r.Success? then t2[TmpName(fa.next) := r.value] else t2;
    var s2 := At(c, ip2, vars, t2, r2);
    if r.Success? {
      RunThen(c.p, At(c, ip, vars, tmps, reg), k1 + k2, s2, k3);
    } else {
      StopsAfter(c.p, At(c, ip, vars, tmps, reg), k1 + k2, s2, k3, r.error, fuel);
    }
  }

  lemma CalleeSim(c: Ctx, callee: Callee, n: nat, ip: nat, vars: Vars, tmps: Vars, reg: Option<Value>, fuel: nat)
    returns (k: nat, tmps': Vars, reg': Option<Value>)
    requires CtxOk(c) && TmpsOk(tmps) && Loaded(CodeOf(c), ip, TranslateTmp(CalleeTmp(callee, n)))
    ensures |TranslateTmp(CalleeTmp(callee, n))| == 1
    ensures Follows(c, ip, 1, vars, tmps, reg, Lookup(vars, CalleeName(callee)), n, n, n + 1, fuel, k, tmps', reg')
  {
    hide Run, Execute, CompileWorld, CompileFn, Resolve, Step;
    RunZero(c.p, At(c, ip, vars, tmps, reg));
    LoadedAt(CodeOf(c), ip, TranslateTmp(CalleeTmp(callee, n)), 0);
    VarExec(c.p.floats, CalleeName(callee), n, Env(vars, tmps), reg);
    k, tmps', reg' := Finish(c, ip, ip, n, vars, tmps, reg, 0, tmps, reg, Lookup(vars, CalleeName(callee)), n, fuel);
  }

  lemma {:induction false} StagesSim(c: Ctx, cs: seq<CallExpr>, previous: TmpId, v: Value, n: nat, ip: nat,
                                    vars: Vars, tmps: Vars, reg: Option<Value>, fuel: nat)
    returns (k: nat, tmps': Vars, reg': Option<Value>)
    requires CtxOk(c) && VarsOk(vars) && TmpsOk(tmps)
    requires Holds(tmps, previous, v) && previous < n
    requires Loaded(CodeOf(c), ip, TranslateExpr(FlattenChain(cs, previous, n).tmps))
    ensures Follows(c, ip, |TranslateExpr(FlattenChain(cs, previous, n).tmps)|, vars, tmps, reg,
                    EvalChain(c.w, cs, v, vars, fuel),
                    if cs == [] then previous else FlattenChain(cs, previous, n).next - 1, n, FlattenChain(cs, previous, n).next, fuel, k, tmps', reg')
    decreases fuel, 1, cs
  {
    hide Run, Execute, CompileWorld, CompileFn, Resolve, Step, TranslateExpr, Eval, Flatten, EvalCall, FlattenCall, EvalChain, FlattenChain, Loaded, Small, WorldOk;
    if cs == [] {
      RunZero(c.p, At(c, ip, vars, tmps, reg));
      TranslateEmpty();
      NoStages(c.w, previous, v, n, vars, fuel);
      return 0, tmps, reg;
    }
    StagesEquation(c.w, cs, previous, v, n, vars, fuel);
    var f := FlattenCall(cs[0], [previous], n);
    var rest := FlattenChain(cs[1..], f.next - 1, f.next);
    AppendLoaded(CodeOf(c), ip, f.tmps, rest.tmps);
    assert HoldAll(tmps, [previous], [v]);
    var k1, t1, r1 := CallSim(c, cs[0], [previous], [v], n, ip, vars, tmps, reg, fuel);
    var v1 := EvalCall(c.w, cs[0], [v], vars, fuel);
    if v1.Failure? { return k1, t1, r1; }
    var ip1 := ip + |TranslateExpr(f.tmps)|;
    var k2, t2, r2 := StagesSim(c, cs[1..], f.next - 1, v1.value, f.next, ip1, vars, t1, r1, fuel);
    ThenFollows(c, ip, ip1, |TranslateExpr(rest.tmps)|, vars, tmps, reg, n, f.next, rest.next, k1, t1, r1,
                EvalChain(c.w, cs[1..], v1.value, vars, fuel),
                if cs[1..] == [] then f.next - 1 else rest.next - 1, fuel, k2, t2, r2);
    k, tmps', reg' := k1 + k2, t2, r2;
  }

  /** The frame of a caller, suspended at the instruction behind its call. */
  function Suspended(c: Ctx, ip: nat, vars: Vars, tmps: Vars): Frame {
    ByteFrame(c.fn, ip, Env(vars, tmps))
  }

  lemma CallStep(c: Ctx, ip: nat, fnId: TmpId, argIds: seq<TmpId>, vars: Vars, tmps: Vars, reg: Option<Value>, f: Value, vs: seq<Value>)
    requires CtxOk(c) && ip < |CodeOf(c)| && CodeOf(c)[ip] == FnCall(TmpLoc(fnId), TmpArgs(argIds))
    requires Holds(tmps, fnId, f) && HoldAll(tmps, argIds, vs)
    ensures Run(c.p, At(c, ip, vars, tmps, reg), 1)
         == if !f.Fn? then Faulted(ExpectedFunction)
            else var frame := CreateFrame(c.p, f.id, vs);
              if frame.Failure? then Faulted(frame.error)
              else Running(State(frame.value, c.stack + [Suspended(c, ip + 1, vars, tmps)], reg))
  {
    ArgsRead(Env(vars, tmps), argIds, vs);
    OneStep(c.p, At(c, ip, vars, tmps, reg));
  }

  lemma ReturnTaken(c: Ctx, ip: nat, id: TmpId, vars: Vars, tmps: Vars, s: State, v: Value)
    requires CtxOk(c) && ip + 1 < |CodeOf(c)| && CodeOf(c)[ip + 1] == TakeReturn(TmpLoc(id))
    requires s.stack == c.stack + [Suspended(c, ip + 1, vars, tmps)]
    ensures Pop(s, v) == Running(At(c, ip + 1, vars, tmps, Some(v)))
    ensures Run(c.p, Pop(s, v).state, 1) == Running(At(c, ip + 2, vars, tmps[TmpName(id) := v], None))
  {
    StoreStep(c, ip + 1, vars, tmps, Some(v), id, Success(v), None);
  }

  /** A call instruction and the instruction that takes its result, for every outcome of the call. */
  lemma {:induction false} InvokeSim(c: Ctx, ip: nat, fnId: TmpId, argIds: seq<TmpId>, id: TmpId, vars: Vars, tmps: Vars,
                                     reg: Option<Value>, f: Value, vs: seq<Value>, fuel: nat)
    returns (k: nat)
    requires CtxOk(c) && VarsOk(vars) && TmpsOk(tmps)
    requires Loaded(CodeOf(c), ip, [FnCall(TmpLoc(fnId), TmpArgs(argIds)), TakeReturn(TmpLoc(id))])
    requires Holds(tmps, fnId, f) && HoldAll(tmps, argIds, vs)
    ensures var r := Invoke(c.w, f, vs, fuel);
      if r.Success?
      then Run(c.p, At(c, ip, vars, tmps, reg), k) == Running(At(c, ip + 2, vars, tmps[TmpName(id) := r.value], None))
      else Stops(c.p, At(c, ip, vars, tmps, reg), k, r.error, fuel)
    decreases fuel, 0
  {
    hide Run, Execute, CompileWorld, CompileFn, Resolve, Step, ExecBlock, CreateFrame, BindParams, JumpsInLoops, Small, WorldOk, TmpsOk, HoldAll, Holds;
    var call := [FnCall(TmpLoc(fnId), TmpArgs(argIds)), TakeReturn(TmpLoc(id))];
    LoadedAt(CodeOf(c), ip, call, 0);
    LoadedAt(CodeOf(c), ip, call, 1);
    var s0 := At(c, ip, vars, tmps, reg);
    CallStep(c, ip, fnId, argIds, vars, tmps, reg, f, vs);
    var frame := CreateFrame(c.p, if f.Fn? then f.id else 0, vs);
    FrameOf(c.w, if f.Fn? then f.id else 0, vs);
    if !f.Fn? || frame.Failure? {
      return 1;
    }
    var s1 := State(frame.value, c.stack + [Suspended(c, ip + 1, vars, tmps)], reg);
    if f.id in c.w.builtins {
      BuiltinStep(c.p, f.id, vs, s1.stack, reg);
      RunThen(c.p, s0, 1, s1, 1);
      var v := c.w.builtin(f.id, vs);
      if v.None? {
        return 2;
      }
      ReturnTaken(c, ip, id, vars, tmps, s1, v.value);
      RunThen(c.p, s0, 2, Pop(s1, v.value).state, 1);
      return 3;
    }
    if fuel == 0 {
      RunZero(c.p, s0);
      return 0;
    }
    var c2 := Ctx(c.w, c.p, f.id, s1.stack);
    CtxOf(c.w, f.id, s1.stack);
    var vars0 := BindParams(Evaluator.ModuleVars(c.w), c.w.fns[f.id].params, vs);
    BindParamsOk(Evaluator.ModuleVars(c.w), c.w.fns[f.id].params, vs);
    var k2 := BodySim(c2, vars0, reg, fuel - 1);
    var r := CallFn(c.w, f.id, vs, fuel);
    if r.Failure? {
      StopsAfter(c.p, s0, 1, s1, k2, r.error, fuel - 1);
      return 1 + k2;
    }
    ReturnTaken(c, ip, id, vars, tmps, s1, r.value);
    RunThen(c.p, s0, 1, s1, k2);
    RunThen(c.p, s0, 1 + k2, Pop(s1, r.value).state, 1);
    k := 1 + k2 + 1;
  }

  // ---------------------------------------------------------------- statements

  /** A condition and the jump behind it: control goes one of two ways, or the condition fails. */
  lemma {:induction false} ConditionSim(c: Ctx, cond: Expr, n: nat, ip: nat, jump: Instruction, onTrue: nat, onFalse: nat,
                                        vars: Vars, tmps: Vars, reg: Option<Value>, fuel: nat)
    returns (k: nat, tmps': Vars, reg': Option<Value>)
    requires CtxOk(c) && VarsOk(vars) && TmpsOk(tmps)
    requires Loaded(CodeOf(c), ip, TranslateExpr(Flatten(cond, n).tmps) + [jump])
    requires onTrue <= |CodeOf(c)| && onFalse <= |CodeOf(c)|
    requires var f := Flatten(cond, n);
      var ipj := ip + |TranslateExpr(f.tmps)|;
      || (jump == RelJumpNegateCondition(onFalse - ipj, TmpArg(f.next - 1)) && onTrue == ipj + 1)
      || (jump == RelJumpCondition(onTrue - ipj, TmpArg(f.next - 1)) && onFalse == ipj + 1)
    ensures var r := EvalCondition(c.w, cond, vars, fuel);
      var s := At(c, ip, vars, tmps, reg);
      && (r.Success? ==>
            && k >= 1 && TmpsOk(tmps')
            && Run(c.p, s, k) == Running(At(c, if r.value then onTrue else onFalse, vars, tmps', reg')))
      && (r.Failure? ==> Stops(c.p, s, k, r.error, fuel))
    decreases fuel, 1, cond, 4
  {
    hide Run, Step, Execute, CompileWorld, Resolve, Eval, Flatten, TranslateExpr;
    var f := Flatten(cond, n);
    LoadedSplit(CodeOf(c), ip, TranslateExpr(f.tmps), [jump]);
    var ipj := ip + |TranslateExpr(f.tmps)|;
    LoadedAt(CodeOf(c), ipj, [jump], 0);
    var k1, t1, r1 := ExprSim(c, cond, n, ip, vars, tmps, reg, fuel);
    k, tmps', reg' := k1, t1, r1;
    var v := Eval(c.w, cond, vars, fuel);
    if v.Failure? { return; }
    var b := EvalCondition(c.w, cond, vars, fuel);
    ConditionExec(c, ipj, jump, f.next - 1, v.value, onTrue, onFalse, vars, t1, r1);
    RunThen(c.p, At(c, ip, vars, tmps, reg), k1, At(c, ipj, vars, t1, r1), 1);
    k := k1 + 1;
  }

  lemma ConditionExec(c: Ctx, ip: nat, jump: Instruction, id: TmpId, v: Value, onTrue: nat, onFalse: nat,
                      vars: Vars, tmps: Vars, reg: Option<Value>)
    requires CtxOk(c) && ip < |CodeOf(c)| && CodeOf(c)[ip] == jump && Holds(tmps, id, v)
    requires onTrue <= |CodeOf(c)| && onFalse <= |CodeOf(c)|
    requires || (jump == RelJumpNegateCondition(onFalse - ip, TmpArg(id)) && onTrue == ip + 1)
             || (jump == RelJumpCondition(onTrue - ip, TmpArg(id)) && onFalse == ip + 1)
    ensures Run(c.p, At(c, ip, vars, tmps, reg), 1)
         == if v.Bool? then Running(At(c, if v.b then onTrue else onFalse, vars, tmps, reg)) else Faulted(ExpectedBool)
  {
    hide CompileWorld, Resolve;
    assert Fetch(Env(vars, tmps), TmpLoc(id)) == Success(v);
    OneStep(c.p, At(c, ip, vars, tmps, reg));
  }

  lemma NoStatements(w: World, n: nat, loop: nat, vars: Vars, fuel: nat)
    ensures Inline(BlockCode([], n, loop).items) == [] && ExecBlock(w, [], vars, fuel) == Next(vars)
  {
  }

  /** A list of statements is its first one and the rest, in every respect. */
  lemma FirstStatement(w: World, stmts: seq<Stmt>, n: nat, loop: nat, inside: bool, vars: Vars, fuel: nat)
    requires stmts != []
    ensures var c, flow := StmtCode(stmts[0], n, loop), ExecStmt(w, stmts[0], vars, fuel);
      && BlockCode(stmts, n, loop).items == c.items + BlockCode(stmts[1..], c.next, loop).items
      && ExecBlock(w, stmts, vars, fuel) == (if flow.Next? then ExecBlock(w, stmts[1..], flow.vars, fuel) else flow)
      && (JumpsInLoops(stmts, inside) <==> StmtJumpsInLoops(stmts[0], inside) && JumpsInLoops(stmts[1..], inside))
  {
    hide StmtCode, ExecStmt, StmtJumpsInLoops;
  }

  lemma {:induction false} BlockSim(t: Site, stmts: seq<Stmt>, n: nat, p: nat, vars: Vars, tmps: Vars, reg: Option<Value>, fuel: nat)
    returns (k: nat, tmps': Vars, reg': Option<Value>)
    requires SiteOk(t) && VarsOk(vars) && TmpsOk(tmps) && JumpsInLoops(stmts, t.inside)
    requires Loaded(t.code, p, Inline(BlockCode(stmts, n, t.loop).items))
    ensures FlowDone(t, Pos(t.code, p), Pos(t.code, p + |Inline(BlockCode(stmts, n, t.loop).items)|), vars, tmps, reg,
                     ExecBlock(t.c.w, stmts, vars, fuel), fuel, k, tmps', reg')
    decreases fuel, 2, stmts
  {
    hide Run, Step, CompileWorld, Resolve, Pos, Len, ExecStmt, ExecBlock, StmtCode, BlockCode, Inline, InlineItem, StmtJumpsInLoops, UniqueMarkers, VarsOk, JumpsInLoops;
    var s := t.c;
    if stmts == [] {
      NoStatements(s.w, n, t.loop, vars, fuel);
      RunZero(s.p, At(s, Pos(t.code, p), vars, tmps, reg));
      return 0, tmps, reg;
    }
    var c := StmtCode(stmts[0], n, t.loop);
    var rest := BlockCode(stmts[1..], c.next, t.loop);
    FirstStatement(s.w, stmts, n, t.loop, t.inside, vars, fuel);
    InlineAppend(c.items, rest.items);
    LoadedSplit(t.code, p, Inline(c.items), Inline(rest.items));
    k, tmps', reg' := StmtSim(t, stmts[0], n, p, vars, tmps, reg, fuel);
    var flow := ExecStmt(s.w, stmts[0], vars, fuel);
    if flow.Next? {
      var p1 := p + |Inline(c.items)|;
      var k2, t2, r2 := BlockSim(t, stmts[1..], c.next, p1, flow.vars, tmps', reg', fuel);
      FlowThen(t, Pos(t.code, p), vars, tmps, reg, Pos(t.code, p1), flow.vars, fuel, k, tmps', reg',
               Pos(t.code, p1 + |Inline(rest.items)|), ExecBlock(s.w, stmts[1..], flow.vars, fuel), k2, t2, r2);
      k, tmps', reg' := k + k2, t2, r2;
    }
  }

  lemma {:induction false} StmtSim(t: Site, s: Stmt, n: nat, p: nat, vars: Vars, tmps: Vars, reg: Option<Value>, fuel: nat)
    returns (k: nat, tmps': Vars, reg': Option<Value>)
    requires SiteOk(t) && VarsOk(vars) && TmpsOk(tmps) && StmtJumpsInLoops(s, t.inside)
    requires Loaded(t.code, p, Inline(StmtCode(s, n, t.loop).items))
    ensures FlowDone(t, Pos(t.code, p), Pos(t.code, p + |Inline(StmtCode(s, n, t.loop).items)|), vars, tmps, reg,
                     ExecStmt(t.c.w, s, vars, fuel), fuel, k, tmps', reg')
    decreases fuel, 2, s, 2
  {
    hide Run, Step, CompileWorld, Resolve, Pos, Len, InlineItem, UniqueMarkers, Eval, Flatten, TranslateExpr, EvalIndex, EvalPath,
      AssignVars, ExecBlock, ExecArms, ExecWhile, EvalCondition, BlockCode, ArmsCode, Inline, Loaded, FlowDone, SiteOk;
    match s {
      case ExprStmt(e) => k, tmps', reg' := ExprStmtSim(t, e, n, p, vars, tmps, reg, fuel);
      case Local(x, e) => k, tmps', reg' := LocalSim(t, x, e, n, p, vars, tmps, reg, fuel);
      case Assign(_, _, _, _) => k, tmps', reg' := AssignSim(t, s, n, p, vars, tmps, reg, fuel);
      case Return(None) => k, tmps', reg' := ReturnUnitSim(t, n, p, vars, tmps, reg, fuel);
      case Return(Some(e)) => k, tmps', reg' := ReturnSim(t, e, n, p, vars, tmps, reg, fuel);
      case Break => k, tmps', reg' := JumpSim(t, s, n, p, vars, tmps, reg, fuel);
      case Continue => k, tmps', reg' := JumpSim(t, s, n, p, vars, tmps, reg, fuel);
      case While(cond, body) =>
        var f := Flatten(cond, n + 1);
        var b := BlockCode(body, f.next, n);
        InlineSingle(StmtCode(s, n, t.loop).items[0]);
        k, tmps', reg' := WhileSim(t, cond, body, n, p, vars, tmps, reg, fuel);
      case If(cond, body, rest) =>
        InlineSingle(StmtCode(s, n, t.loop).items[0]);
        k, tmps', reg' := IfSim(t, cond, body, rest, n, p, vars, tmps, reg, fuel);
    }
  }

  lemma {:induction false} ExprStmtSim(t: Site, e: Expr, n: nat, p: nat, vars: Vars, tmps: Vars, reg: Option<Value>, fuel: nat)
    returns (k: nat, tmps': Vars, reg': Option<Value>)
    requires SiteOk(t) && VarsOk(vars) && TmpsOk(tmps)
    requires Loaded(t.code, p, Inline(StmtCode(ExprStmt(e), n, t.loop).items))
    ensures FlowDone(t, Pos(t.code, p), Pos(t.code, p + |Inline(StmtCode(ExprStmt(e), n, t.loop).items)|), vars, tmps, reg,
                     ExecStmt(t.c.w, ExprStmt(e), vars, fuel), fuel, k, tmps', reg')
    decreases fuel, 2, e, 0
  {
    hide Run, Step, CompileWorld, Resolve, Pos, Len, Inline, UniqueMarkers, Eval, Flatten, TranslateExpr;
    var code := ExprCode(Flatten(e, n));
    InlinePlain(code);
    CodeLoaded(t.code, p, code);
    k, tmps', reg' := ExprSim(t.c, e, n, Pos(t.code, p), vars, tmps, reg, fuel);
  }

  lemma {:induction false} LocalSim(t: Site, x: string, e: Expr, n: nat, p: nat, vars: Vars, tmps: Vars, reg: Option<Value>, fuel: nat)
    returns (k: nat, tmps': Vars, reg': Option<Value>)
    requires SiteOk(t) && VarsOk(vars) && TmpsOk(tmps)
    requires Loaded(t.code, p, Inline(StmtCode(Local(x, e), n, t.loop).items))
    ensures FlowDone(t, Pos(t.code, p), Pos(t.code, p + |Inline(StmtCode(Local(x, e), n, t.loop).items)|), vars, tmps, reg,
                     ExecStmt(t.c.w, Local(x, e), vars, fuel), fuel, k, tmps', reg')
    decreases fuel, 2, e, 0
  {
    hide Run, Step, CompileWorld, Resolve, Pos, Len, Inline, UniqueMarkers, Eval, Flatten, TranslateExpr, PlainItems, VarsOk, Small, WorldOk;
    var f := Flatten(e, n);
    var store := Store(Namespace(User(x)), TmpArg(f.next - 1));
    assert LocalCode(x, f) == ExprCode(f) + [store];
    InlinePlain(LocalCode(x, f));
    CodeLoaded(t.code, p, LocalCode(x, f));
    var ip := Pos(t.code, p);
    LoadedSplit(CodeOf(t.c), ip, ExprCode(f), [store]);
    k, tmps', reg' := ExprSim(t.c, e, n, ip, vars, tmps, reg, fuel);
    var v := Eval(t.c.w, e, vars, fuel);
    if v.Success? {
      var ip1 := ip + |ExprCode(f)|;
      LoadedAt(CodeOf(t.c), ip1, [store], 0);
      LocalExec(t.c.p.floats, x, f.next - 1, v.value, Env(vars, tmps'), reg');
      VarsStep(t.c, ip1, vars, tmps', reg', Success(vars[User(x) := v.value]));
      RunThen(t.c.p, At(t.c, ip, vars, tmps, reg), k, At(t.c, ip1, vars, tmps', reg'), 1);
      k := k + 1;
    }
  }

  lemma {:induction false} AssignSim(t: Site, s: Stmt, n: nat, p: nat, vars: Vars, tmps: Vars, reg: Option<Value>, fuel: nat)
    returns (k: nat, tmps': Vars, reg': Option<Value>)
    requires SiteOk(t) && VarsOk(vars) && TmpsOk(tmps) && s.Assign?
    requires Loaded(t.code, p, Inline(StmtCode(s, n, t.loop).items))
    ensures FlowDone(t, Pos(t.code, p), Pos(t.code, p + |Inline(StmtCode(s, n, t.loop).items)|), vars, tmps, reg,
                     ExecStmt(t.c.w, s, vars, fuel), fuel, k, tmps', reg')
    decreases fuel, 2, s, 0
  {
    hide Run, Step, CompileWorld, Resolve, Pos, Len, Inline, UniqueMarkers, Eval, Flatten, TranslateExpr, EvalIndex, EvalPath, AssignVars, AccessCode, AccessLocation, FlattenIndex, FlattenPath, StepsReady, Execute, Keeps, TmpsOk, Small, WorldOk;
    var Assign(root, rootIndex, path, value) := s;
    var c := t.c;
    var a := FlattenAccess(root, rootIndex, path, n);
    var f := Flatten(value, a.next);
    var store := Store(AccessLocation(a.access), TmpArg(f.next - 1));
    var rest := AccessCode(a.access) + [store];
    assert AssignCode(a.access, f) == ExprCode(f) + rest;
    InlinePlain(AssignCode(a.access, f));
    CodeLoaded(t.code, p, AssignCode(a.access, f));
    var ip := Pos(t.code, p);
    LoadedSplit(CodeOf(c), ip, ExprCode(f), rest);
    var ip1 := ip + |ExprCode(f)|;
    LoadedSplit(CodeOf(c), ip1, AccessCode(a.access), [store]);
    var k1, t1, r1 := ExprSim(c, value, a.next, ip, vars, tmps, reg, fuel);
    k, tmps', reg' := k1, t1, r1;
    var v := Eval(c.w, value, vars, fuel);
    if v.Failure? { return; }
    var k2, t2, r2 := StepsSim(c, root, rootIndex, path, n, ip1, vars, t1, r1, fuel);
    var steps := EvalSteps(c.w, rootIndex, path, vars, fuel);
    var ip2 := ip1 + |AccessCode(a.access)|;
    k, tmps', reg' := k1 + k2, t2, r2;
    if steps.Failure? {
      StopsAfter(c.p, At(c, ip, vars, tmps, reg), k1, At(c, ip1, vars, t1, r1), k2, steps.error, fuel);
      return;
    }
    KeptAbove(t1, t2, n, a.next, f.next - 1, v.value);
    LoadedAt(CodeOf(c), ip2, [store], 0);
    AssignExec(c.p.floats, a.access, steps.value, f.next - 1, v.value, Env(vars, t2), r2);
    var flow := AssignVars(vars, root, steps.value, v.value);
    VarsStep(c, ip2, vars, t2, r2, if flow.Next? then Success(flow.vars) else Failure(flow.fault));
    RunThen(c.p, At(c, ip, vars, tmps, reg), k1, At(c, ip1, vars, t1, r1), k2);
    RunThen(c.p, At(c, ip, vars, tmps, reg), k1 + k2, At(c, ip2, vars, t2, r2), 1);
    k := k1 + k2 + 1;
  }

  lemma KeptAbove(tmps: Vars, tmps': Vars, n: nat, m: nat, id: TmpId, v: Value)
    requires Holds(tmps, id, v) && Keeps(tmps, tmps', n, m) && id >= m
    ensures Holds(tmps', id, v)
  {
  }

  lemma ReturnUnitSim(t: Site, n: nat, p: nat, vars: Vars, tmps: Vars, reg: Option<Value>, fuel: nat)
    returns (k: nat, tmps': Vars, reg': Option<Value>)
    requires SiteOk(t) && VarsOk(vars) && TmpsOk(tmps)
    requires Loaded(t.code, p, Inline(StmtCode(Stmt.Return(None), n, t.loop).items))
    ensures FlowDone(t, Pos(t.code, p), Pos(t.code, p + |Inline(StmtCode(Stmt.Return(None), n, t.loop).items)|), vars, tmps, reg,
                     ExecStmt(t.c.w, Stmt.Return(None), vars, fuel), fuel, k, tmps', reg')
  {
    hide Run, Step, CompileWorld, Resolve, Pos, Len, Inline, UniqueMarkers;
    var ret := Instruction.Return(None);
    InlineSingle(Plain(ret));
    assert Instrs([ret]) == [Instr(ret)];
    CodeLoaded(t.code, p, [ret]);
    LoadedAt(CodeOf(t.c), Pos(t.code, p), [ret], 0);
    ReturnStep(t.c, Pos(t.code, p), None, vars, tmps, reg, Unit);
    k, tmps', reg' := 1, tmps, reg;
  }

  lemma {:induction false} ReturnSim(t: Site, e: Expr, n: nat, p: nat, vars: Vars, tmps: Vars, reg: Option<Value>, fuel: nat)
    returns (k: nat, tmps': Vars, reg': Option<Value>)
    requires SiteOk(t) && VarsOk(vars) && TmpsOk(tmps)
    requires Loaded(t.code, p, Inline(StmtCode(Stmt.Return(Some(e)), n, t.loop).items))
    ensures FlowDone(t, Pos(t.code, p), Pos(t.code, p + |Inline(StmtCode(Stmt.Return(Some(e)), n, t.loop).items)|), vars, tmps, reg,
                     ExecStmt(t.c.w, Stmt.Return(Some(e)), vars, fuel), fuel, k, tmps', reg')
    decreases fuel, 2, e, 0
  {
    hide Run, Step, CompileWorld, Resolve, Pos, Len, Inline, UniqueMarkers, Eval, Flatten, TranslateExpr, PlainItems, Small, WorldOk;
    var f := Flatten(e, n);
    var ret := Instruction.Return(Some(TmpArg(f.next - 1)));
    assert ReturnCode(f) == ExprCode(f) + [ret];
    InlinePlain(ReturnCode(f));
    CodeLoaded(t.code, p, ReturnCode(f));
    var ip := Pos(t.code, p);
    LoadedSplit(CodeOf(t.c), ip, ExprCode(f), [ret]);
    k, tmps', reg' := ExprSim(t.c, e, n, ip, vars, tmps, reg, fuel);
    var v := Eval(t.c.w, e, vars, fuel);
    if v.Success? {
      var ip1 := ip + |ExprCode(f)|;
      LoadedAt(CodeOf(t.c), ip1, [ret], 0);
      ReturnStep(t.c, ip1, Some(TmpArg(f.next - 1)), vars, tmps', reg', v.value);
      RunThen(t.c.p, At(t.c, ip, vars, tmps, reg), k, At(t.c, ip1, vars, tmps', reg'), 1);
      k := k + 1;
    }
  }

  lemma JumpSim(t: Site, s: Stmt, n: nat, p: nat, vars: Vars, tmps: Vars, reg: Option<Value>, fuel: nat)
    returns (k: nat, tmps': Vars, reg': Option<Value>)
    requires SiteOk(t) && VarsOk(vars) && TmpsOk(tmps) && t.inside && (s.Break? || s.Continue?)
    requires Loaded(t.code, p, Inline(StmtCode(s, n, t.loop).items))
    ensures FlowDone(t, Pos(t.code, p), Pos(t.code, p + |Inline(StmtCode(s, n, t.loop).items)|), vars, tmps, reg,
                     ExecStmt(t.c.w, s, vars, fuel), fuel, k, tmps', reg')
  {
    hide Run, Step, CompileWorld, Resolve, Pos, Len, Inline, UniqueMarkers;
    var item := StmtCode(s, n, t.loop).items[0];
    InlineSingle(item);
    LoadedAt(t.code, p, InlineItem(item), 0);
    MarkerJump(t, p, if s.Break? then t.end else t.begin, vars, tmps, reg);
    k, tmps', reg' := 1, tmps, reg;
  }

  /** The flow out of one turn of a loop: a false condition leaves it like a break. */
  function TurnFlow(w: World, cond: Expr, body: seq<Stmt>, vars: Vars, fuel: nat): Flow {
    var go := EvalCondition(w, cond, vars, fuel);
    if go.Failure? then Stopped(go.error) else if !go.value then Broke(vars) else ExecBlock(w, body, vars, fuel)
  }

  lemma WhileEquation(w: World, cond: Expr, body: seq<Stmt>, vars: Vars, fuel: nat)
    ensures var flow := TurnFlow(w, cond, body, vars, fuel);
      ExecWhile(w, cond, body, vars, fuel)
        == match flow {
             case Next(v) => if fuel == 0 then Stopped(OutOfFuel) else ExecWhile(w, cond, body, v, fuel - 1)
             case Continued(v) => if fuel == 0 then Stopped(OutOfFuel) else ExecWhile(w, cond, body, v, fuel - 1)
             case Broke(v) => Next(v)
             case _ => flow
           }
  {
    hide EvalCondition, ExecBlock;
  }

  /** After one turn control is back at the condition, behind the loop, or out of the function. */
  ghost predicate Turned(t: Site, ip: nat, there: nat, vars: Vars, tmps: Vars, reg: Option<Value>,
                         flow: Flow, fuel: nat, k: nat, tmps': Vars, reg': Option<Value>)
  {
    var s := At(t.c, ip, vars, tmps, reg);
    match flow
    case Next(v) => k >= 1 && Run(t.c.p, s, k) == Running(At(t.c, ip, v, tmps', reg')) && VarsOk(v) && TmpsOk(tmps')
    case Continued(v) => k >= 1 && Run(t.c.p, s, k) == Running(At(t.c, ip, v, tmps', reg')) && VarsOk(v) && TmpsOk(tmps')
    case Broke(v) => Run(t.c.p, s, k) == Running(At(t.c, there, v, tmps', reg')) && VarsOk(v) && TmpsOk(tmps')
    case Returned(v) => Run(t.c.p, s, k) == Pop(s, v)
    case Stopped(f) => Stops(t.c.p, s, k, f, fuel)
  }

  lemma {:induction false} TurnSim(t: Site, cond: Expr, body: seq<Stmt>, n: nat, p: nat, vars: Vars, tmps: Vars, reg: Option<Value>, fuel: nat)
    returns (k: nat, tmps': Vars, reg': Option<Value>)
    requires SiteOk(t) && VarsOk(vars) && TmpsOk(tmps) && JumpsInLoops(body, true)
    requires var f := Flatten(cond, n + 1);
      Loaded(t.code, p, LoopShape(n, ExprCode(f), TmpArg(ResultId(f)), Inline(BlockCode(body, f.next, n).items)))
    ensures var f := Flatten(cond, n + 1);
      var shape := LoopShape(n, ExprCode(f), TmpArg(ResultId(f)), Inline(BlockCode(body, f.next, n).items));
      Turned(t, Pos(t.code, p), Pos(t.code, p + |shape|), vars, tmps, reg,
             TurnFlow(t.c.w, cond, body, vars, fuel), fuel, k, tmps', reg')
    decreases fuel, 2, While(cond, body), 0
  {
    hide Run, Step, CompileWorld, Resolve, Pos, Len, Inline, UniqueMarkers, Eval, Flatten, TranslateExpr, EvalCondition, ExecBlock,
      BlockCode, JumpsInLoops, LoopShape, Loaded, FlowDone;
    var c := t.c;
    var f := Flatten(cond, n + 1);
    var b := BlockCode(body, f.next, n);
    var inner := Inline(b.items);
    LoopLayout(t.code, p, n, ExprCode(f), TmpArg(ResultId(f)), inner);
    var pb := p + 1 + |ExprCode(f)| + 1;
    var pl := pb + |inner|;
    var t2 := t.(inside := true, loop := n, begin := p, end := pl + 1);
    var ip, ipb, ipl, ipe := Pos(t.code, p), Pos(t.code, pb), Pos(t.code, pl), Pos(t.code, pl + 2);
    PosBound(t.code, pl + 2);
    var k1, tm1, r1 := ConditionSim(c, cond, n + 1, ip, RelJumpNegateCondition(Len(inner) + 2, TmpArg(ResultId(f))),
                                    ipb, ipe, vars, tmps, reg, fuel);
    k, tmps', reg' := k1, tm1, r1;
    var go := EvalCondition(c.w, cond, vars, fuel);
    if go.Failure? || !go.value { return; }
    var k2, tm2, r2 := BlockSim(t2, body, f.next, pb, vars, tm1, r1, fuel);
    var flow := ExecBlock(c.w, body, vars, fuel);
    FlowAfter(t2, ip, vars, tmps, reg, k1, ipb, ipl, vars, tm1, r1, flow, fuel, k2, tm2, r2);
    k, tmps', reg' := TurnEnd(t, t2, ip, ipl, ipe, [RelJump(-(Len(inner) + |ExprCode(f)|) - 1)],
                              vars, tmps, reg, flow, fuel, k1 + k2, tm2, r2);
  }

  /** What is left of a turn behind its body: the looper, or the jump a break or continue has made. */
  lemma TurnEnd(t: Site, t2: Site, ip: nat, ipl: nat, ipe: nat, looper: seq<Instruction>, vars: Vars, tmps: Vars, reg: Option<Value>,
                flow: Flow, fuel: nat, k0: nat, t0: Vars, r0: Option<Value>)
    returns (k: nat, tmps': Vars, reg': Option<Value>)
    requires CtxOk(t.c) && t2.c == t.c && k0 >= 1 && ip <= ipl
    requires Loaded(CodeOf(t.c), ipl, looper) && looper == [RelJump(ip - ipl)]
    requires t2.begin <= |t2.code| && Pos(t2.code, t2.begin) == ip
    requires t2.end <= |t2.code| && Pos(t2.code, t2.end) == ipe
    requires FlowDone(t2, ip, ipl, vars, tmps, reg, flow, fuel, k0, t0, r0)
    ensures Turned(t, ip, ipe, vars, tmps, reg, flow, fuel, k, tmps', reg')
  {
    hide Run, Step, CompileWorld, Pos;
    k, tmps', reg' := k0, t0, r0;
    if flow.Next? {
      LooperStep(t.c, ipl, ip, looper, flow.vars, t0, r0);
      RunThen(t.c.p, At(t.c, ip, vars, tmps, reg), k0, At(t.c, ipl, flow.vars, t0, r0), 1);
      k := k0 + 1;
    }
  }

  lemma LooperStep(c: Ctx, ipl: nat, ip: nat, looper: seq<Instruction>, vars: Vars, tmps: Vars, reg: Option<Value>)
    requires CtxOk(c) && Loaded(CodeOf(c), ipl, looper) && looper == [RelJump(ip - ipl)] && ip <= ipl
    ensures Run(c.p, At(c, ipl, vars, tmps, reg), 1) == Running(At(c, ip, vars, tmps, reg))
  {
    hide Run, Step, CompileWorld;
    LoadedAt(CodeOf(c), ipl, looper, 0);
    JumpStep(c, ipl, vars, tmps, reg, ip);
  }

  /** The turns of a loop, by induction on the fuel. */
  lemma {:induction false} WhileSim(t: Site, cond: Expr, body: seq<Stmt>, n: nat, p: nat, vars: Vars, tmps: Vars, reg: Option<Value>, fuel: nat)
    returns (k: nat, tmps': Vars, reg': Option<Value>)
    requires SiteOk(t) && VarsOk(vars) && TmpsOk(tmps) && JumpsInLoops(body, true)
    requires var f := Flatten(cond, n + 1);
      Loaded(t.code, p, LoopShape(n, ExprCode(f), TmpArg(ResultId(f)), Inline(BlockCode(body, f.next, n).items)))
    ensures var f := Flatten(cond, n + 1);
      var shape := LoopShape(n, ExprCode(f), TmpArg(ResultId(f)), Inline(BlockCode(body, f.next, n).items));
      FlowDone(t, Pos(t.code, p), Pos(t.code, p + |shape|), vars, tmps, reg,
               ExecWhile(t.c.w, cond, body, vars, fuel), fuel, k, tmps', reg')
    decreases fuel, 2, While(cond, body), 1
  {
    hide Run, Step, CompileWorld, Resolve, Pos, Len, Inline, UniqueMarkers, Eval, Flatten, TranslateExpr, EvalCondition, ExecBlock,
      BlockCode, JumpsInLoops, LoopShape, ExecWhile, TurnFlow, SiteOk;
    var f := Flatten(cond, n + 1);
    var shape := LoopShape(n, ExprCode(f), TmpArg(ResultId(f)), Inline(BlockCode(body, f.next, n).items));
    var ip, ipe := Pos(t.code, p), Pos(t.code, p + |shape|);
    WhileEquation(t.c.w, cond, body, vars, fuel);
    k, tmps', reg' := TurnSim(t, cond, body, n, p, vars, tmps, reg, fuel);
    var flow := TurnFlow(t.c.w, cond, body, vars, fuel);
    if (flow.Next? || flow.Continued?) && fuel > 0 {
      var k2, tm2, r2 := WhileSim(t, cond, body, n, p, flow.vars, tmps', reg', fuel - 1);
      TurnDone(t, ip, ipe, vars, tmps, reg, k, flow.vars, tmps', reg',
               ExecWhile(t.c.w, cond, body, flow.vars, fuel - 1), fuel, k2, tm2, r2);
      k, tmps', reg' := k + k2, tm2, r2;
    }
  }

  /** A turn of at least one step, followed by the remaining turns with one unit of fuel less. */
  lemma TurnDone(t: Site, ip: nat, there: nat, vars0: Vars, tmps0: Vars, reg0: Option<Value>, k0: nat,
                 vars: Vars, tmps: Vars, reg: Option<Value>, flow: Flow, fuel: nat, k: nat, tmps': Vars, reg': Option<Value>)
    requires fuel > 0 && k0 >= 1
    requires Run(t.c.p, At(t.c, ip, vars0, tmps0, reg0), k0) == Running(At(t.c, ip, vars, tmps, reg))
    requires FlowDone(t, ip, there, vars, tmps, reg, flow, fuel - 1, k, tmps', reg')
    ensures FlowDone(t, ip, there, vars0, tmps0, reg0, flow, fuel, k0 + k, tmps', reg')
  {
    hide Run, Step;
    RunThen(t.c.p, At(t.c, ip, vars0, tmps0, reg0), k0, At(t.c, ip, vars, tmps, reg), k);
  }

  lemma {:induction false} IfSim(t: Site, cond: Expr, body: seq<Stmt>, rest: Arms, n: nat, p: nat,
                                 vars: Vars, tmps: Vars, reg: Option<Value>, fuel: nat)
    returns (k: nat, tmps': Vars, reg': Option<Value>)
    requires SiteOk(t) && VarsOk(vars) && TmpsOk(tmps) && JumpsInLoops(body, t.inside) && ArmsJumpsInLoops(rest, t.inside)
    requires Loaded(t.code, p, Inline(StmtCode(If(cond, body, rest), n, t.loop).items))
    ensures FlowDone(t, Pos(t.code, p), Pos(t.code, p + |Inline(StmtCode(If(cond, body, rest), n, t.loop).items)|), vars, tmps, reg,
                     ExecStmt(t.c.w, If(cond, body, rest), vars, fuel), fuel, k, tmps', reg')
    decreases fuel, 2, If(cond, body, rest), 0
  {
    hide Run, Step, CompileWorld, Resolve, Pos, Len, Inline, UniqueMarkers, Eval, Flatten, TranslateExpr, EvalCondition, ExecBlock,
      ExecArms, BlockCode, ArmsCode, JumpsInLoops, ArmsJumpsInLoops, BranchShape;
    var b := BlockCode(body, n, t.loop);
    var f := Flatten(cond, b.next + 1);
    var r := ArmsCode(rest, f.next, t.loop);
    var branch := Branch(b.next, ExprCode(f), TmpArg(ResultId(f)), b.items, r.items);
    InlineSingle(branch);
    var ip := Pos(t.code, p);
    var k1, tm1, r1, pThn, pEls, pEnd := BranchEntry(t, cond, branch, b.next + 1, p, vars, tmps, reg, fuel);
    k, tmps', reg' := k1, tm1, r1;
    var go := EvalCondition(t.c.w, cond, vars, fuel);
    if go.Failure? { return; }
    if go.value {
      var k2, tm2, r2 := BlockSim(t, body, n, pThn, vars, tm1, r1, fuel);
      FlowAfter(t, ip, vars, tmps, reg, k1, Pos(t.code, pThn), Pos(t.code, pEnd), vars, tm1, r1,
                ExecBlock(t.c.w, body, vars, fuel), fuel, k2, tm2, r2);
      k, tmps', reg' := k1 + k2, tm2, r2;
    } else {
      var k2, tm2, r2 := ArmsSim(t, rest, f.next, pEls, vars, tm1, r1, fuel);
      k, tmps', reg' := BranchExit(t, branch, p, pThn, pEls, pEnd, vars, tmps, reg, k1, tm1, r1,
                                   vars, ExecArms(t.c.w, rest, vars, fuel), fuel, k2, tm2, r2);
    }
  }

  /** The condition of a branch, and the positions of its paths: the false path comes first. */
  lemma {:induction false} BranchEntry(t: Site, cond: Expr, x: Item, n: nat, p: nat, vars: Vars, tmps: Vars, reg: Option<Value>, fuel: nat)
    returns (k: nat, tmps': Vars, reg': Option<Value>, pThn: nat, pEls: nat, pEnd: nat)
    requires SiteOk(t) && VarsOk(vars) && TmpsOk(tmps)
    requires x.Branch? && x.cond == ExprCode(Flatten(cond, n)) && x.result == TmpArg(ResultId(Flatten(cond, n)))
    requires Loaded(t.code, p, InlineItem(x))
    ensures pEnd == p + |InlineItem(x)| <= |t.code| && BranchPlaces(t, x, p, pThn, pEls, pEnd)
    ensures var r := EvalCondition(t.c.w, cond, vars, fuel);
      var s := At(t.c, Pos(t.code, p), vars, tmps, reg);
      && (r.Success? ==>
            && TmpsOk(tmps')
            && Run(t.c.p, s, k) == Running(At(t.c, Pos(t.code, if r.value then pThn else pEls), vars, tmps', reg')))
      && (r.Failure? ==> Stops(t.c.p, s, k, r.error, fuel))
    decreases fuel, 1, cond, 5
  {
    hide Run, Step, CompileWorld, Resolve, Pos, Len, Inline, UniqueMarkers, Eval, Flatten, TranslateExpr, EvalCondition, BranchShape;
    InlineSingle(x);
    var thn, els := Inline(x.thn), Inline(x.els);
    BranchLayout(t.code, p, x.cond, x.result, thn, els);
    pEls := p + |x.cond| + 1;
    pThn := pEls + |els| + 1;
    pEnd := pThn + |thn|;
    PosBound(t.code, pThn);
    PosBound(t.code, pEls);
    k, tmps', reg' := ConditionSim(t.c, cond, n, Pos(t.code, p), RelJumpCondition(Len(els) + 2, x.result),
                                   Pos(t.code, pThn), Pos(t.code, pEls), vars, tmps, reg, fuel);
  }

  ghost predicate BranchPlaces(t: Site, x: Item, p: nat, pThn: nat, pEls: nat, pEnd: nat)
    requires x.Branch?
  {
    var thn, els := Inline(x.thn), Inline(x.els);
    && pThn == pEls + |els| + 1 && pEnd == pThn + |thn| <= |t.code|
    && Loaded(t.code, pThn, thn) && Loaded(t.code, pEls, els)
    && Loaded(Resolve(t.code), Pos(t.code, pEls + |els|), [RelJump(Len(thn) + 1)])
    && Pos(t.code, pEnd) == Pos(t.code, pEls + |els|) + 1 + Len(thn)
  }

  /** Falling out of the false path: the jump over the true path. */
  lemma BranchExit(t: Site, x: Item, p: nat, pThn: nat, pEls: nat, pEnd: nat, vars0: Vars, tmps0: Vars, reg0: Option<Value>,
                   k0: nat, tmps: Vars, reg: Option<Value>, vars: Vars, flow: Flow, fuel: nat, k1: nat, t1: Vars, r1: Option<Value>)
    returns (k: nat, tmps': Vars, reg': Option<Value>)
    requires SiteOk(t) && x.Branch? && p <= |t.code| && BranchPlaces(t, x, p, pThn, pEls, pEnd)
    requires Run(t.c.p, At(t.c, Pos(t.code, p), vars0, tmps0, reg0), k0) == Running(At(t.c, Pos(t.code, pEls), vars, tmps, reg))
    requires FlowDone(t, Pos(t.code, pEls), Pos(t.code, pEls + |Inline(x.els)|), vars, tmps, reg, flow, fuel, k1, t1, r1)
    ensures FlowDone(t, Pos(t.code, p), Pos(t.code, pEnd), vars0, tmps0, reg0, flow, fuel, k, tmps', reg')
  {
    hide Run, Step, CompileWorld, Resolve, Pos, Len, Inline, UniqueMarkers;
    var ipx := Pos(t.code, pEls + |Inline(x.els)|);
    FlowAfter(t, Pos(t.code, p), vars0, tmps0, reg0, k0, Pos(t.code, pEls), ipx, vars, tmps, reg, flow, fuel, k1, t1, r1);
    k, tmps', reg' := k0 + k1, t1, r1;
    if flow.Next? {
      var skip := RelJump(Len(Inline(x.thn)) + 1);
      LoadedAt(CodeOf(t.c), ipx, [skip], 0);
      PosBound(t.code, pEnd);
      JumpStep(t.c, ipx, flow.vars, t1, r1, Pos(t.code, pEnd));
      RunThen(t.c.p, At(t.c, Pos(t.code, p), vars0, tmps0, reg0), k, At(t.c, ipx, flow.vars, t1, r1), 1);
      k := k + 1;
    }
  }

  lemma {:induction false} ArmsSim(t: Site, a: Arms, n: nat, p: nat, vars: Vars, tmps: Vars, reg: Option<Value>, fuel: nat)
    returns (k: nat, tmps': Vars, reg': Option<Value>)
    requires SiteOk(t) && VarsOk(vars) && TmpsOk(tmps) && ArmsJumpsInLoops(a, t.inside)
    requires Loaded(t.code, p, Inline(ArmsCode(a, n, t.loop).items))
    ensures FlowDone(t, Pos(t.code, p), Pos(t.code, p + |Inline(ArmsCode(a, n, t.loop).items)|), vars, tmps, reg,
                     ExecArms(t.c.w, a, vars, fuel), fuel, k, tmps', reg')
    decreases fuel, 2, a, 0
  {
    hide Run, Step, CompileWorld, Resolve, Pos, Len, InlineItem, UniqueMarkers, Eval, Flatten, TranslateExpr, EvalCondition, ExecBlock,
      BlockCode, JumpsInLoops, BranchShape;
    var ip := Pos(t.code, p);
    match a {
      case NoMore =>
        RunZero(t.c.p, At(t.c, ip, vars, tmps, reg));
        k, tmps', reg' := 0, tmps, reg;
      case Default(b) =>
        k, tmps', reg' := BlockSim(t, b, n, p, vars, tmps, reg, fuel);
      case Elif(cond, body, rest) =>
        var b := BlockCode(body, n, t.loop);
        var f := Flatten(cond, b.next + 1);
        var r := ArmsCode(rest, f.next, t.loop);
        var branch := Branch(b.next, ExprCode(f), TmpArg(ResultId(f)), b.items, r.items);
        InlineSingle(branch);
        var k1, tm1, r1, pThn, pEls, pEnd := BranchEntry(t, cond, branch, b.next + 1, p, vars, tmps, reg, fuel);
        k, tmps', reg' := k1, tm1, r1;
        var go := EvalCondition(t.c.w, cond, vars, fuel);
        if go.Failure? { return; }
        if go.value {
          var k2, tm2, r2 := BlockSim(t, body, n, pThn, vars, tm1, r1, fuel);
          FlowAfter(t, ip, vars, tmps, reg, k1, Pos(t.code, pThn), Pos(t.code, pEnd), vars, tm1, r1,
                    ExecBlock(t.c.w, body, vars, fuel), fuel, k2, tm2, r2);
          k, tmps', reg' := k1 + k2, tm2, r2;
        } else {
          var k2, tm2, r2 := ArmsSim(t, rest, f.next, pEls, vars, tm1, r1, fuel);
          k, tmps', reg' := BranchExit(t, branch, p, pThn, pEls, pEnd, vars, tmps, reg, k1, tm1, r1,
                                       vars, ExecArms(t.c.w, rest, vars, fuel), fuel, k2, tm2, r2);
        }
    }
  }

  /** A function body from its first instruction to its return. */
  lemma {:induction false} BodySim(c: Ctx, vars: Vars, reg: Option<Value>, fuel: nat) returns (k: nat)
    requires CtxOk(c) && VarsOk(vars)
    ensures var s := At(c, 0, vars, map[], reg);
      var r := FlowResult(c.w.fns[c.fn].returnsUnit, ExecBlock(c.w, c.w.fns[c.fn].body, vars, fuel));
      if r.Success? then Run(c.p, s, k) == Pop(s, r.value) else Stops(c.p, s, k, r.error, fuel)
    decreases fuel, 3
  {
    hide Run, Step, Pos, Len, InlineItem, Inline, BlockCode, ExecBlock, UniqueMarkers, JumpsInLoops, CompileWorld, CompileFn, Resolve;
    CodeOfBody(c);
    var d := c.w.fns[c.fn];
    var code := Inline(FunctionItems(d));
    var body := BlockCode(d.body, d.firstId, 0).items;
    var ret := Instruction.Return(None);
    InlineAppend(body, if d.returnsUnit then [Plain(ret)] else []);
    InlineNothing();
    FunctionMarkers(d);
    var t := Site(c, code, false, 0, 0, 0);
    StartOfCode(code);
    assert code[0..|Inline(body)|] == Inline(body);
    var tm, r1;
    k, tm, r1 := BlockSim(t, d.body, d.firstId, 0, vars, map[], reg, fuel);
    var flow := ExecBlock(c.w, d.body, vars, fuel);
    if flow.Next? {
      var ip := Pos(code, |Inline(body)|);
      var s := At(c, 0, vars, map[], reg);
      if d.returnsUnit {
        InlineSingle(Plain(ret));
        assert Instrs([ret]) == [Instr(ret)];
        assert code[|Inline(body)|..|Inline(body)| + 1] == [Instr(ret)];
        CodeLoaded(code, |Inline(body)|, [ret]);
        LoadedAt(CodeOf(c), ip, [ret], 0);
        ReturnStep(c, ip, None, flow.vars, tm, r1, Unit);
      } else {
        assert code == Inline(body);
        PosBound(code, |code|);
        OffTheEnd(c, flow.vars, tm, r1);
      }
      RunThen(c.p, s, k, At(c, ip, flow.vars, tm, r1), 1);
      k := k + 1;
    }
  }

  lemma CodeOfBody(c: Ctx)
    requires CtxOk(c)
    ensures CodeOf(c) == Resolve(Inline(FunctionItems(c.w.fns[c.fn])))
    ensures JumpsInLoops(c.w.fns[c.fn].body, false)
  {
    hide Resolve, Inline, FunctionItems;
  }

  lemma StartOfCode(code: seq<Partial>)
    ensures Pos(code, 0) == 0
  {
  }
}
