/** Vocabulary of the simulation proof: machine states of a running function, and what it means for a
    run to follow an evaluation. */
module SimBase {
  import opened Values
  import opened Syntax
  import opened ByteCode
  import opened ExprFlow
  import opened ByteExpr
  import opened SecondPass
  import opened ThirdPass
  import opened Layout
  import opened Machine
  import opened Evaluator
  import opened Compiler

  /** A running call: the program, the function on top of the stack, and the frames below it. */
  datatype Ctx = Ctx(w: World, p: Program, fn: FnId, stack: seq<Frame>)

  /** Code short enough for the instruction pointer's signed offsets. */
  ghost predicate Small(p: Program) {
    forall id :: id in p.code ==> |p.code[id].code| <= MAX_I64
  }

  /** What the graph builder has checked of every body. */
  ghost predicate WorldOk(w: World) {
    forall id :: id in w.fns ==> JumpsInLoops(w.fns[id].body, false)
  }

  ghost predicate CtxOk(c: Ctx) {
    && c.p == CompileWorld(c.w) && WorldOk(c.w) && Small(c.p)
    && c.fn in c.w.fns && c.fn in c.p.code && c.p.floats == c.w.floats
  }

  function CodeOf(c: Ctx): seq<Instruction>
    requires c.fn in c.p.code
  {
    c.p.code[c.fn].code
  }

  function At(c: Ctx, ip: nat, vars: Vars, tmps: Vars, reg: Option<Value>): State {
    State(ByteFrame(c.fn, ip, Env(vars, tmps)), c.stack, reg)
  }

  ghost predicate VarsOk(vars: Vars) { forall k :: k in vars ==> !k.TmpName? }

  ghost predicate TmpsOk(tmps: Vars) { forall k :: k in tmps ==> k.TmpName? }

  /** Only temporaries numbered from `n` up to, not including, `m` may have changed. */
  ghost predicate Keeps(tmps: Vars, tmps': Vars, n: nat, m: nat) {
    forall i: nat :: (i < n || i >= m) && TmpName(i) in tmps ==> TmpName(i) in tmps' && tmps'[TmpName(i)] == tmps[TmpName(i)]
  }

  ghost predicate Holds(tmps: Vars, id: TmpId, v: Value) {
    TmpName(id) in tmps && tmps[TmpName(id)] == v
  }

  ghost predicate HoldAll(tmps: Vars, ids: seq<TmpId>, vs: seq<Value>) {
    |ids| == |vs| && forall i :: 0 <= i < |ids| ==> Holds(tmps, ids[i], vs[i])
  }

  // ---------------------------------------------------------------- runs that follow an evaluation

  /** The run from `s` ends, after `k` steps, as the fault `f` says; if the evaluation ran out of fuel
      the machine is still busy after at least that many steps. */
  ghost predicate Stops(p: Program, s: State, k: nat, f: Fault, fuel: nat) {
    if f == OutOfFuel then k >= fuel && Run(p, s, k).Running? else Run(p, s, k) == Faulted(f)
  }

  lemma RunZero(p: Program, s: State)
    ensures Run(p, s, 0) == Running(s)
  {
  }

  lemma RunThen(p: Program, s: State, m: nat, s': State, n: nat)
    requires Run(p, s, m) == Running(s')
    ensures Run(p, s, m + n) == Run(p, s', n)
  {
    RunAdd(p, s, m, n);
  }

  lemma StopsAfter(p: Program, s: State, m: nat, s': State, k: nat, f: Fault, fuel: nat)
    requires Run(p, s, m) == Running(s') && Stops(p, s', k, f, fuel)
    ensures Stops(p, s, m + k, f, fuel)
  {
    RunThen(p, s, m, s', k);
  }

  lemma OneStep(p: Program, s: State)
    ensures Run(p, s, 1) == Step(p, s)
  {
    var o := Step(p, s);
    if o.Running? {
      assert Run(p, o.state, 0) == o;
    }
  }

  /** The action of an instruction that computes `r` into temporary `m`. */
  function Stored(env: Env, m: TmpId, r: Result<Value>, reg: Option<Value>): Result<Action> {
    if r.Success? then Success(IncrementIP(Env(env.vars, env.tmps[TmpName(m) := r.value]), reg)) else Failure(r.error)
  }

  /** A step of the machine at an instruction that computes `r` into temporary `id`. */
  lemma StoreStep(c: Ctx, ip: nat, vars: Vars, tmps: Vars, reg: Option<Value>, id: TmpId, r: Result<Value>, reg': Option<Value>)
    requires CtxOk(c) && ip < |CodeOf(c)|
    requires r.Failure? ==> r.error != OutOfFuel
    requires Execute(c.p.floats, CodeOf(c)[ip], Env(vars, tmps), reg) == Stored(Env(vars, tmps), id, r, reg')
    ensures r.Success? ==> Run(c.p, At(c, ip, vars, tmps, reg), 1) == Running(At(c, ip + 1, vars, tmps[TmpName(id) := r.value], reg'))
    ensures r.Failure? ==> Run(c.p, At(c, ip, vars, tmps, reg), 1) == Faulted(r.error)
  {
    OneStep(c.p, At(c, ip, vars, tmps, reg));
  }

  /** As `StoreStep`, for an instruction that writes the frame's variables. */
  lemma VarsStep(c: Ctx, ip: nat, vars: Vars, tmps: Vars, reg: Option<Value>, r: Result<Vars>)
    requires CtxOk(c) && ip < |CodeOf(c)|
    requires r.Failure? ==> r.error != OutOfFuel
    requires Execute(c.p.floats, CodeOf(c)[ip], Env(vars, tmps), reg)
          == if r.Success? then Success(IncrementIP(Env(r.value, tmps), reg)) else Failure(r.error)
    ensures r.Success? ==> Run(c.p, At(c, ip, vars, tmps, reg), 1) == Running(At(c, ip + 1, r.value, tmps, reg))
    ensures r.Failure? ==> Run(c.p, At(c, ip, vars, tmps, reg), 1) == Faulted(r.error)
  {
    OneStep(c.p, At(c, ip, vars, tmps, reg));
  }

  /** A step at a jump whose target is inside the code or just behind it. */
  lemma JumpStep(c: Ctx, ip: nat, vars: Vars, tmps: Vars, reg: Option<Value>, target: nat)
    requires CtxOk(c) && ip < |CodeOf(c)| && target <= |CodeOf(c)|
    requires var a := Execute(c.p.floats, CodeOf(c)[ip], Env(vars, tmps), reg);
      a == Success(AddIP(target - ip)) || (a == Success(IncrementIP(Env(vars, tmps), reg)) && target == ip + 1)
    ensures Run(c.p, At(c, ip, vars, tmps, reg), 1) == Running(At(c, target, vars, tmps, reg))
  {
    OneStep(c.p, At(c, ip, vars, tmps, reg));
  }

  // ---------------------------------------------------------------- reading temporaries back

  lemma HoldAllTail(tmps: Vars, ids: seq<TmpId>, vs: seq<Value>)
    requires HoldAll(tmps, ids, vs) && ids != []
    ensures Holds(tmps, ids[0], vs[0]) && HoldAll(tmps, ids[1..], vs[1..])
    ensures TmpArgs(ids)[1..] == TmpArgs(ids[1..])
  {
    forall i | 0 <= i < |ids| - 1 ensures Holds(tmps, ids[1..][i], vs[1..][i]) {
      assert Holds(tmps, ids[i + 1], vs[i + 1]);
    }
  }

  lemma {:induction false} ArgsRead(env: Env, ids: seq<TmpId>, vs: seq<Value>)
    requires HoldAll(env.tmps, ids, vs)
    ensures ArgValues(env, TmpArgs(ids)) == Success(vs)
  {
    if ids == [] {
      assert vs == [];
    } else {
      HoldAllTail(env.tmps, ids, vs);
      ArgsRead(env, ids[1..], vs[1..]);
      assert vs == [vs[0]] + vs[1..];
    }
  }

  /** The initialiser map of arguments and that of their values agree key by key. */
  lemma {:induction false} FieldMapRead(env: Env, names: seq<string>, ids: seq<TmpId>, vs: seq<Value>, k: string)
    requires HoldAll(env.tmps, ids, vs)
    ensures k in FieldMap(names, TmpArgs(ids)) <==> k in FieldMap(names, vs)
    ensures k in FieldMap(names, vs) ==> ArgValue(env, FieldMap(names, TmpArgs(ids))[k]) == Success(FieldMap(names, vs)[k])
  {
    if names != [] && ids != [] {
      HoldAllTail(env.tmps, ids, vs);
      FieldMapRead(env, names[1..], ids[1..], vs[1..], k);
    }
  }

  lemma FieldsRead(env: Env, names: seq<string>, ids: seq<TmpId>, vs: seq<Value>)
    requires HoldAll(env.tmps, ids, vs)
    ensures FieldValues(env, FieldMap(names, TmpArgs(ids))) == Success(FieldMap(names, vs))
  {
    forall k
      ensures k in FieldMap(names, TmpArgs(ids)) <==> k in FieldMap(names, vs)
      ensures k in FieldMap(names, vs) ==> ArgValue(env, FieldMap(names, TmpArgs(ids))[k]) == Success(FieldMap(names, vs)[k])
    {
      FieldMapRead(env, names, ids, vs, k);
    }
    var args := FieldMap(names, TmpArgs(ids));
    assert forall k :: k in args ==> ArgValue(env, args[k]).Success?;
    assert (map k | k in args :: ArgValue(env, args[k]).value) == FieldMap(names, vs);
  }

  lemma {:induction false} ReadPathFault(v: Value, steps: seq<PathStep>)
    ensures ReadPath(v, steps).Failure? ==> ReadPath(v, steps).error != OutOfFuel
  {
    if steps != [] && ReadStep(v, steps[0]).Success? {
      ReadPathFault(ReadStep(v, steps[0]).value, steps[1..]);
    }
  }

  lemma {:induction false} WritePathFault(v: Value, steps: seq<PathStep>, leaf: Value)
    ensures WritePath(v, steps, leaf).Failure? ==> WritePath(v, steps, leaf).error != OutOfFuel
  {
    if steps != [] && ReadStep(v, steps[0]).Success? {
      WritePathFault(ReadStep(v, steps[0]).value, steps[1..], leaf);
    }
  }

  lemma {:induction false} BindParamsOk(vars: Vars, params: seq<string>, args: seq<Value>)
    requires VarsOk(vars)
    ensures VarsOk(BindParams(vars, params, args))
    decreases |params|
  {
    if params != [] && args != [] {
      BindParamsOk(vars[User(params[0]) := args[0]], params[1..], args[1..]);
    }
  }

  // ---------------------------------------------------------------- expressions

  /** The run over an expression's code: on success it stops right behind the code, with the value in
      temporary `id`, older temporaries and all variables untouched. */
  ghost predicate Follows(c: Ctx, ip: nat, len: nat, vars: Vars, tmps: Vars, reg: Option<Value>,
                          r: Result<Value>, id: TmpId, n: nat, m: nat, fuel: nat,
                          k: nat, tmps': Vars, reg': Option<Value>)
  {
    if r.Success? then
      && Run(c.p, At(c, ip, vars, tmps, reg), k) == Running(At(c, ip + len, vars, tmps', reg'))
      && TmpsOk(tmps') && Keeps(tmps, tmps', n, m) && Holds(tmps', id, r.value)
    else Stops(c.p, At(c, ip, vars, tmps, reg), k, r.error, fuel)
  }

  ghost predicate FollowsList(c: Ctx, ip: nat, len: nat, vars: Vars, tmps: Vars, reg: Option<Value>,
                              r: Result<seq<Value>>, ids: seq<TmpId>, n: nat, m: nat, fuel: nat,
                              k: nat, tmps': Vars, reg': Option<Value>)
  {
    if r.Success? then
      && Run(c.p, At(c, ip, vars, tmps, reg), k) == Running(At(c, ip + len, vars, tmps', reg'))
      && TmpsOk(tmps') && Keeps(tmps, tmps', n, m) && HoldAll(tmps', ids, r.value)
    else Stops(c.p, At(c, ip, vars, tmps, reg), k, r.error, fuel)
  }

  /** The run has executed the code between two instruction indexes, starting from `tmps`. */
  ghost predicate Ran(c: Ctx, ip: nat, ip': nat, vars: Vars, tmps: Vars, reg: Option<Value>, n: nat, m: nat,
                      k: nat, tmps': Vars, reg': Option<Value>)
  {
    && Run(c.p, At(c, ip, vars, tmps, reg), k) == Running(At(c, ip', vars, tmps', reg'))
    && TmpsOk(tmps') && Keeps(tmps, tmps', n, m)
  }

  lemma RanThen(c: Ctx, ip: nat, ip1: nat, ip2: nat, vars: Vars, tmps: Vars, reg: Option<Value>, n: nat, n1: nat, m: nat,
                k1: nat, t1: Vars, r1: Option<Value>, k2: nat, t2: Vars, r2: Option<Value>)
    requires Ran(c, ip, ip1, vars, tmps, reg, n, n1, k1, t1, r1) && n <= n1 <= m
    requires Ran(c, ip1, ip2, vars, t1, r1, n1, m, k2, t2, r2)
    ensures Ran(c, ip, ip2, vars, tmps, reg, n, m, k1 + k2, t2, r2)
  {
    RunThen(c.p, At(c, ip, vars, tmps, reg), k1, At(c, ip1, vars, t1, r1), k2);
  }

  lemma HoldAllKeeps(tmps: Vars, tmps': Vars, ids: seq<TmpId>, vs: seq<Value>, n: nat, m: nat)
    requires HoldAll(tmps, ids, vs) && Keeps(tmps, tmps', n, m)
    requires forall i :: 0 <= i < |ids| ==> ids[i] < n
    ensures HoldAll(tmps', ids, vs)
  {
    forall i | 0 <= i < |ids| ensures Holds(tmps', ids[i], vs[i]) {
      assert Holds(tmps, ids[i], vs[i]);
    }
  }

  /** The code of an order followed by one more temporary, piece by piece. */
  lemma PushLoaded(code: seq<Instruction>, ip: nat, sub: seq<Temp>, n: nat, v: TmpValue)
    requires Loaded(code, ip, TranslateExpr(Push(sub, n, v).tmps))
    ensures Loaded(code, ip, TranslateExpr(sub))
    ensures Loaded(code, ip + |TranslateExpr(sub)|, TranslateTmp(Temp(n, v)))
    ensures |TranslateExpr(Push(sub, n, v).tmps)| == |TranslateExpr(sub)| + |TranslateTmp(Temp(n, v))|
  {
    TranslatePush(sub, n, v);
    LoadedSplit(code, ip, TranslateExpr(sub), TranslateTmp(Temp(n, v)));
  }

  lemma AppendLoaded(code: seq<Instruction>, ip: nat, a: seq<Temp>, b: seq<Temp>)
    requires Loaded(code, ip, TranslateExpr(a + b))
    ensures Loaded(code, ip, TranslateExpr(a)) && Loaded(code, ip + |TranslateExpr(a)|, TranslateExpr(b))
    ensures |TranslateExpr(a + b)| == |TranslateExpr(a)| + |TranslateExpr(b)|
  {
    TranslateAppend(a, b);
    LoadedSplit(code, ip, TranslateExpr(a), TranslateExpr(b));
  }

  /** The code before instruction `ip1` has run; that instruction then computes `r` into temporary `m`. */
  lemma Finish(c: Ctx, ip: nat, ip1: nat, m: nat, vars: Vars, tmps: Vars, reg: Option<Value>,
               k1: nat, t1: Vars, r1: Option<Value>, r: Result<Value>, n: nat, fuel: nat)
    returns (k: nat, tmps': Vars, reg': Option<Value>)
    requires CtxOk(c) && ip <= ip1 < |CodeOf(c)| && n <= m
    requires Ran(c, ip, ip1, vars, tmps, reg, n, m, k1, t1, r1)
    requires r.Failure? ==> r.error != OutOfFuel
    requires Execute(c.p.floats, CodeOf(c)[ip1], Env(vars, t1), r1) == Stored(Env(vars, t1), m, r, r1)
    ensures Follows(c, ip, ip1 + 1 - ip, vars, tmps, reg, r, m, n, m + 1, fuel, k, tmps', reg')
  {
    StoreStep(c, ip1, vars, t1, r1, m, r, r1);
    FinishRun(c, ip, ip1, m, vars, tmps, reg, k1, t1, r1, r, n, fuel);
    k, reg' := k1 + 1, r1;
    tmps' := if r.Success? then t1[TmpName(m) := r.value] else t1;
  }

  lemma FinishRun(c: Ctx, ip: nat, ip1: nat, m: nat, vars: Vars, tmps: Vars, reg: Option<Value>,
                  k1: nat, t1: Vars, r1: Option<Value>, r: Result<Value>, n: nat, fuel: nat)
    requires ip <= ip1 && n <= m
    requires Ran(c, ip, ip1, vars, tmps, reg, n, m, k1, t1, r1)
    requires r.Success? ==> Run(c.p, At(c, ip1, vars, t1, r1), 1) == Running(At(c, ip1 + 1, vars, t1[TmpName(m) := r.value], r1))
    requires r.Failure? ==> r.error != OutOfFuel && Run(c.p, At(c, ip1, vars, t1, r1), 1) == Faulted(r.error)
    ensures Follows(c, ip, ip1 + 1 - ip, vars, tmps, reg, r, m, n, m + 1, fuel,
                    k1 + 1, if r.Success? then t1[TmpName(m) := r.value] else t1, r1)
  {
    hide Run;
    RunThen(c.p, At(c, ip, vars, tmps, reg), k1, At(c, ip1, vars, t1, r1), 1);
  }

  /** The code of an index expression leaves its value in the last temporary. */
  lemma LastTmpOfFlatten(e: Expr, n: nat)
    ensures LastTmp(Flatten(e, n).tmps) == Flatten(e, n).next - 1
  {
  }

  // ---------------------------------------------------------------- what single instructions compute

  lemma LitExec(fl: Floats, l: Literal, m: TmpId, env: Env, reg: Option<Value>)
    ensures Execute(fl, Store(TmpLoc(m), LiteralArg(l)), env, reg) == Stored(env, m, Success(LitValue(l)), reg)
  {
  }

  lemma VarExec(fl: Floats, x: Name, m: TmpId, env: Env, reg: Option<Value>)
    ensures Execute(fl, Store(TmpLoc(m), Loc(Namespace(x))), env, reg) == Stored(env, m, Lookup(env.vars, x), reg)
  {
  }

  lemma BinExec(fl: Floats, op: BinOp, num: NumType, l: TmpId, r: TmpId, m: TmpId, env: Env, reg: Option<Value>, a: Value, b: Value)
    requires Holds(env.tmps, l, a) && Holds(env.tmps, r, b)
    ensures Execute(fl, BinInstr(op, num, TmpLoc(m), TmpArg(l), TmpArg(r)), env, reg) == Stored(env, m, BinValue(fl, op, num, a, b), reg)
    ensures BinValue(fl, op, num, a, b).Failure? ==> BinValue(fl, op, num, a, b).error != OutOfFuel
  {
    assert ArgValue(env, TmpArg(l)) == Success(a) && ArgValue(env, TmpArg(r)) == Success(b);
  }

  lemma UniExec(fl: Floats, op: UniOp, x: TmpId, m: TmpId, env: Env, reg: Option<Value>, a: Value)
    requires Holds(env.tmps, x, a)
    ensures Execute(fl, if op.Negate? then NegateInstr(TmpLoc(m), TmpArg(x)) else Invert(TmpLoc(m), TmpArg(x)), env, reg)
         == Stored(env, m, UniValue(fl, op, a), reg)
    ensures UniValue(fl, op, a).Failure? ==> UniValue(fl, op, a).error != OutOfFuel
  {
    assert ArgValue(env, TmpArg(x)) == Success(a);
  }

  lemma StructExec(fl: Floats, names: seq<string>, ids: seq<TmpId>, vs: seq<Value>, m: TmpId, env: Env, reg: Option<Value>)
    requires HoldAll(env.tmps, ids, vs)
    ensures Execute(fl, StoreStructure(TmpLoc(m), FieldMap(names, TmpArgs(ids))), env, reg)
         == Stored(env, m, Success(Struct(FieldMap(names, vs))), reg)
  {
    FieldsRead(env, names, ids, vs);
  }

  lemma ArrayListExec(fl: Floats, ids: seq<TmpId>, vs: seq<Value>, m: TmpId, env: Env, reg: Option<Value>)
    requires HoldAll(env.tmps, ids, vs)
    ensures Execute(fl, StoreArray1(TmpLoc(m), TmpArgs(ids)), env, reg) == Stored(env, m, Success(Arr(vs)), reg)
  {
    ArgsRead(env, ids, vs);
  }

  lemma ArrayFillExec(fl: Floats, x: TmpId, size: nat, m: TmpId, env: Env, reg: Option<Value>, v: Value)
    requires Holds(env.tmps, x, v)
    ensures Execute(fl, StoreArray2(TmpLoc(m), TmpArg(x), size), env, reg)
         == Stored(env, m, Success(Arr(seq(size, _ => v))), reg)
  {
    assert ArgValue(env, TmpArg(x)) == Success(v);
    assert seq(size, _ => v) == seq(size, _ => ArgValue(env, TmpArg(x)).value);
  }

  lemma GetTmp(env: Env, id: TmpId, v: Value)
    requires VarsOk(env.vars) && Holds(env.tmps, id, v)
    ensures Get(env, TmpName(id)) == Some(v)
  {
  }

  lemma IndexingExec(fl: Floats, a: TmpId, i: TmpId, m: TmpId, env: Env, reg: Option<Value>, v: Value, x: Value)
    requires VarsOk(env.vars) && Holds(env.tmps, a, v) && Holds(env.tmps, i, x)
    ensures Execute(fl, Store(TmpLoc(m), Loc(Compound(TmpName(a), Some(TmpName(i)), []))), env, reg)
         == Stored(env, m, ReadPath(v, [ToIndex(x)]), reg)
    ensures ReadPath(v, [ToIndex(x)]).Failure? ==> ReadPath(v, [ToIndex(x)]).error != OutOfFuel
  {
    ReadPathFault(v, [ToIndex(x)]);
    GetTmp(env, a, v);
    GetTmp(env, i, x);
    assert PathSteps(env, []) == Success([]);
    assert CompoundSteps(env, Some(TmpName(i)), []) == Success([ToIndex(x)] + []);
    assert [ToIndex(x)] + [] == [ToIndex(x)];
  }

  /** The index temporaries of a path are in place. */
  ghost predicate StepsReady(env: Env, a: TmpAccess, steps: seq<PathStep>) {
    CompoundSteps(env, RootIndexName(a.rootIndex), PathAccess(a.path)) == Success(steps)
  }

  lemma AccessExec(fl: Floats, a: TmpAccess, steps: seq<PathStep>, m: TmpId, env: Env, reg: Option<Value>)
    requires VarsOk(env.vars) && TmpsOk(env.tmps) && StepsReady(env, a, steps)
    ensures var r := if User(a.root) in env.vars then ReadPath(env.vars[User(a.root)], steps) else Failure(UnboundPanic);
      && Execute(fl, Store(TmpLoc(m), Loc(AccessLocation(a))), env, reg) == Stored(env, m, r, reg)
      && (r.Failure? ==> r.error != OutOfFuel)
  {
    if User(a.root) in env.vars {
      ReadPathFault(env.vars[User(a.root)], steps);
    }
    if a.path == [] && a.rootIndex.NoIndex? {
      assert steps == [];
    } else {
      assert Get(env, User(a.root)).Some? == (User(a.root) in env.vars);
    }
  }

  lemma AssignExec(fl: Floats, a: TmpAccess, steps: seq<PathStep>, x: TmpId, v: Value, env: Env, reg: Option<Value>)
    requires VarsOk(env.vars) && TmpsOk(env.tmps) && StepsReady(env, a, steps) && Holds(env.tmps, x, v)
    ensures var r := AssignVars(env.vars, a.root, steps, v);
      && (r.Next? || (r.Stopped? && r.fault != OutOfFuel))
      && Execute(fl, Store(AccessLocation(a), TmpArg(x)), env, reg)
         == (if r.Next? then Success(IncrementIP(Env(r.vars, env.tmps), reg)) else Failure(r.fault))
      && (r.Next? ==> VarsOk(r.vars))
  {
    assert ArgValue(env, TmpArg(x)) == Success(v);
    if User(a.root) in env.vars {
      WritePathFault(env.vars[User(a.root)], steps, v);
    }
    StepsEmpty(env, a, steps);
    if a.path == [] && a.rootIndex.NoIndex? {
    } else {
      assert Get(env, User(a.root)).Some? == (User(a.root) in env.vars);
    }
  }

  lemma LocalExec(fl: Floats, x: string, id: TmpId, v: Value, env: Env, reg: Option<Value>)
    requires VarsOk(env.vars) && Holds(env.tmps, id, v)
    ensures Execute(fl, Store(Namespace(User(x)), TmpArg(id)), env, reg)
         == Success(IncrementIP(Env(env.vars[User(x) := v], env.tmps), reg))
    ensures VarsOk(env.vars[User(x) := v])
  {
    assert ArgValue(env, TmpArg(id)) == Success(v);
  }

  lemma StepsEmpty(env: Env, a: TmpAccess, steps: seq<PathStep>)
    requires StepsReady(env, a, steps)
    ensures steps == [] <==> (a.path == [] && a.rootIndex.NoIndex?)
  {
  }

  // ---------------------------------------------------------------- defining equations, one operator at a time

  lemma BinEquation(w: World, op: BinOp, num: NumType, l: Expr, r: Expr, n: nat, vars: Vars, fuel: nat)
    ensures var f1 := Flatten(l, n);
      var f2 := Flatten(r, f1.next);
      Flatten(Bin(op, num, l, r), n) == Push(f1.tmps + f2.tmps, f2.next, TBin(op, num, f1.next - 1, f2.next - 1))
    ensures var a := Eval(w, l, vars, fuel);
      var b := Eval(w, r, vars, fuel);
      Eval(w, Bin(op, num, l, r), vars, fuel)
        == if a.Failure? then a else if b.Failure? then b else BinValue(w.floats, op, num, a.value, b.value)
  {
  }

  lemma UniEquation(w: World, op: UniOp, e: Expr, n: nat, vars: Vars, fuel: nat)
    ensures var f := Flatten(e, n);
      Flatten(Uni(op, e), n) == Push(f.tmps, f.next, TUni(op, f.next - 1))
    ensures var a := Eval(w, e, vars, fuel);
      Eval(w, Uni(op, e), vars, fuel) == if a.Failure? then a else UniValue(w.floats, op, a.value)
  {
  }

  lemma ArrayFillEquation(w: World, e: Expr, size: nat, n: nat, vars: Vars, fuel: nat)
    ensures var f := Flatten(e, n);
      Flatten(ArrayFill(e, size), n) == Push(f.tmps, f.next, TArrayFill(f.next - 1, size))
    ensures var a := Eval(w, e, vars, fuel);
      Eval(w, ArrayFill(e, size), vars, fuel) == if a.Failure? then a else Success(Arr(seq(size, _ => a.value)))
  {
  }

  lemma IndexingEquation(w: World, a: Expr, i: Expr, n: nat, vars: Vars, fuel: nat)
    ensures var f1 := Flatten(a, n);
      var f2 := Flatten(i, f1.next);
      Flatten(Indexing(a, i), n) == Push(f1.tmps + f2.tmps, f2.next, TIndexing(f1.next - 1, f2.next - 1))
    ensures var va := Eval(w, a, vars, fuel);
      var vi := Eval(w, i, vars, fuel);
      Eval(w, Indexing(a, i), vars, fuel)
        == if va.Failure? then va else if vi.Failure? then vi else ReadPath(va.value, [ToIndex(vi.value)])
  {
  }

  lemma StagesEquation(w: World, cs: seq<CallExpr>, previous: TmpId, v: Value, n: nat, vars: Vars, fuel: nat)
    requires cs != []
    ensures var f := FlattenCall(cs[0], [previous], n);
      var rest := FlattenChain(cs[1..], f.next - 1, f.next);
      FlattenChain(cs, previous, n) == Flat(f.tmps + rest.tmps, rest.next)
    ensures var r := EvalCall(w, cs[0], [v], vars, fuel);
      EvalChain(w, cs, v, vars, fuel) == if r.Failure? then r else EvalChain(w, cs[1..], r.value, vars, fuel)
  {
  }

  lemma NoStages(w: World, previous: TmpId, v: Value, n: nat, vars: Vars, fuel: nat)
    ensures FlattenChain([], previous, n) == Flat([], n)
    ensures EvalChain(w, [], v, vars, fuel) == Success(v)
  {
  }

  lemma ChainEquation(w: World, base: CallExpr, chain: seq<CallExpr>, n: nat, vars: Vars, fuel: nat)
    ensures var fb := FlattenCall(base, [], n);
      var fc := FlattenChain(chain, fb.next - 1, fb.next);
      Flatten(Chain(base, chain), n) == Flat(fb.tmps + fc.tmps, fc.next)
    ensures var r := EvalCall(w, base, [], vars, fuel);
      Eval(w, Chain(base, chain), vars, fuel) == if r.Failure? then r else EvalChain(w, chain, r.value, vars, fuel)
  {
  }

  lemma AccessEquation(w: World, root: string, rootIndex: Option<Expr>, path: seq<Seg>, n: nat, vars: Vars, fuel: nat)
    ensures var a := FlattenAccess(root, rootIndex, path, n);
      && Flatten(Access(root, rootIndex, path), n) == Push([], a.next, TAccess(a.access))
      && TranslateTmp(Temp(a.next, TAccess(a.access)))
         == AccessCode(a.access) + [Store(TmpLoc(a.next), Loc(AccessLocation(a.access)))]
    ensures var s0 := EvalIndex(w, rootIndex, vars, fuel);
      var s1 := EvalPath(w, path, vars, fuel);
      Eval(w, Access(root, rootIndex, path), vars, fuel)
        == if s0.Failure? then Failure(s0.error) else if s1.Failure? then Failure(s1.error)
           else if User(root) !in vars then Failure(UnboundPanic) else ReadPath(vars[User(root)], s0.value + s1.value)
  {
  }

  lemma NoPath(w: World, n: nat, vars: Vars, fuel: nat, env: Env)
    ensures FlattenPath([], n) == FlatPath([], n) && PathCode([]) == []
    ensures EvalPath(w, [], vars, fuel) == Success([]) == PathSteps(env, PathAccess([]))
  {
  }

  /** A plain field adds a step and no code. */
  lemma FieldEquation(w: World, path: seq<Seg>, n: nat, vars: Vars, fuel: nat, env: Env)
    requires path != [] && path[0].SegField?
    ensures PathCode(FlattenPath(path, n).path) == PathCode(FlattenPath(path[1..], n).path)
    ensures FlattenPath(path, n).next == FlattenPath(path[1..], n).next
    ensures var r := EvalPath(w, path[1..], vars, fuel);
      EvalPath(w, path, vars, fuel) == if r.Failure? then r else Success([ToField(path[0].name)] + r.value)
    ensures var r := PathSteps(env, PathAccess(FlattenPath(path[1..], n).path));
      PathSteps(env, PathAccess(FlattenPath(path, n).path)) == if r.Failure? then r else Success([ToField(path[0].name)] + r.value)
  {
    hide Eval, Flatten, TranslateExpr;
    var rest := FlattenPath(path[1..], n).path;
    var flat := FlattenPath(path, n).path;
    assert flat == [TField(path[0].name)] + rest && flat[1..] == rest;
    assert PathAccess(flat)[1..] == PathAccess(rest);
  }

  /** An indexed field adds the code of its index, and two steps. */
  lemma FieldIndexEquation(w: World, path: seq<Seg>, n: nat, vars: Vars, fuel: nat, env: Env)
    requires path != [] && path[0].SegIndex?
    ensures var fe := Flatten(path[0].index, n);
      && PathCode(FlattenPath(path, n).path) == TranslateExpr(fe.tmps) + PathCode(FlattenPath(path[1..], fe.next).path)
      && FlattenPath(path, n).next == FlattenPath(path[1..], fe.next).next
    ensures var v := Eval(w, path[0].index, vars, fuel);
      var r := EvalPath(w, path[1..], vars, fuel);
      EvalPath(w, path, vars, fuel)
        == if v.Failure? then Failure(v.error) else if r.Failure? then r
           else Success([ToField(path[0].name), ToIndex(v.value)] + r.value)
    ensures var fe := Flatten(path[0].index, n);
      var i := Get(env, TmpName(fe.next - 1));
      var r := PathSteps(env, PathAccess(FlattenPath(path[1..], fe.next).path));
      PathSteps(env, PathAccess(FlattenPath(path, n).path))
        == if i.None? then Failure(UnboundPanic) else if r.Failure? then r
           else Success([ToField(path[0].name), ToIndex(i.value)] + r.value)
  {
    hide Eval, Flatten, TranslateExpr;
    var fe := Flatten(path[0].index, n);
    var rest := FlattenPath(path[1..], fe.next).path;
    var flat := FlattenPath(path, n).path;
    assert flat == [TFieldIndex(path[0].name, fe.tmps)] + rest && flat[1..] == rest;
    assert LastTmp(fe.tmps) == fe.next - 1;
    assert PathAccess(flat)[1..] == PathAccess(rest);
  }

  /** The frame a call creates, in terms of the source program. */
  lemma FrameOf(w: World, id: FnId, args: seq<Value>)
    ensures var p := CompileWorld(w);
      && CreateFrame(p, id, args)
         == (if id in w.builtins then Success(BuiltinFrame(id, args))
             else if id !in w.fns then Failure(UnknownFnPanic)
             else if |w.fns[id].params| != |args| then Failure(InvalidArgCount)
             else Success(ByteFrame(id, 0, Env(BindParams(Evaluator.ModuleVars(w), w.fns[id].params, args), map[]))))
      && p.builtin(id, args) == w.builtin(id, args)
  {
    hide Resolve, BindParams;
    assert Machine.ModuleVars(CompileWorld(w)) == Evaluator.ModuleVars(w);
  }

  lemma CtxOf(w: World, id: FnId, stack: seq<Frame>)
    requires WorldOk(w) && Small(CompileWorld(w)) && id in w.fns
    ensures CtxOk(Ctx(w, CompileWorld(w), id, stack))
  {
  }

  lemma BuiltinStep(p: Program, id: FnId, args: seq<Value>, stack: seq<Frame>, reg: Option<Value>)
    ensures var s := State(BuiltinFrame(id, args), stack, reg);
      Run(p, s, 1) == if p.builtin(id, args).None? then Faulted(BuiltinFault) else Pop(s, p.builtin(id, args).value)
  {
    OneStep(p, State(BuiltinFrame(id, args), stack, reg));
  }
}
