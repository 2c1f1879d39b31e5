/** One flat map of names per call is enough: as long as no block declares a name again that is visible where the block
    starts, a program means the same with its variables spelled by name as with one variable for every declaration. */
module Lexical {
  import opened Values
  import opened Syntax
  import opened ByteCode
  import opened Evaluator
  import opened ResolveScope
  import opened Compiler
  import opened SimBase
  import opened Correctness
  import Machine

  // ---------------------------------------------------------------- the condition

  /** No statement declares a name in `outer` at this level, and no inner block one that is visible at its start.
      Sufficient for the two readings to agree, and checked on the text alone; not necessary, since a name that is
      declared again may never be read afterwards. */
  predicate NoShadowing(stmts: seq<Stmt>, outer: set<string>, visible: set<string>)
    decreases stmts
  {
    stmts == []
    || (StmtNoShadowing(stmts[0], outer, visible)
        && NoShadowing(stmts[1..], outer, if stmts[0].Local? then visible + {stmts[0].name} else visible))
  }

  predicate StmtNoShadowing(s: Stmt, outer: set<string>, visible: set<string>)
    decreases s
  {
    match s
    case Local(x, _) => x !in outer
    case While(_, body) => NoShadowing(body, visible, visible)
    case If(_, body, rest) => NoShadowing(body, visible, visible) && ArmsNoShadowing(rest, visible)
    case _ => true
  }

  predicate ArmsNoShadowing(a: Arms, visible: set<string>)
    decreases a
  {
    match a
    case NoMore => true
    case Default(b) => NoShadowing(b, visible, visible)
    case Elif(_, b, rest) => NoShadowing(b, visible, visible) && ArmsNoShadowing(rest, visible)
  }

  // ---------------------------------------------------------------- programs

  /** A program before its names are bound: every function with the functions its module can name. */
  datatype Source = Source(world: World, names: map<FnId, FnMap>)

  ghost predicate Resolves(src: Source) {
    src.names.Keys == src.world.fns.Keys
    && forall id :: id in src.world.fns ==> BindFn(src.names[id], src.world.fns[id]).Fine?
  }

  ghost function NamedWorld(src: Source): (w: World)
    requires Resolves(src)
    ensures w.floats == src.world.floats && w.builtins == src.world.builtins && w.builtin == src.world.builtin
  {
    src.world.(fns := map id | id in src.world.fns :: BindFn(src.names[id], src.world.fns[id]).value.named)
  }

  ghost function KeyedWorld(src: Source): (w: World)
    requires Resolves(src)
    ensures w.floats == src.world.floats && w.builtins == src.world.builtins && w.builtin == src.world.builtin
  {
    src.world.(fns := map id | id in src.world.fns :: BindFn(src.names[id], src.world.fns[id]).value.keyed)
  }

  ghost predicate Unshadowed(src: Source) {
    forall id :: id in src.world.fns ==> var d := src.world.fns[id]; NoShadowing(d.body, {}, ParamScope(map[], d.params, 0).Keys)
  }

  ghost predicate WellScoped(src: Source) { Resolves(src) && Unshadowed(src) }

  // ---------------------------------------------------------------- agreement of environments

  /** Every visible name holds what the variable of its declaration holds, and functions are bound alike. */
  ghost predicate Agree(scope: Scope, vars: Vars, keyed: Vars) {
    && (forall x :: x in scope ==> Lookup(vars, User(x)) == Lookup(keyed, User(Slot(scope[x]))))
    && (forall id: FnId :: Lookup(vars, FnName(id)) == Lookup(keyed, FnName(id)))
  }

  /** No two visible names share a declaration, and the next identifier is new. */
  predicate Apart(scope: Scope, next: VarId) {
    && (forall x :: x in scope ==> scope[x] < next)
    && (forall x, y :: x in scope && y in scope && x != y ==> scope[x] != scope[y])
  }

  predicate Within(inner: Scope, outer: Scope) {
    forall x :: x in inner ==> x in outer && outer[x] == inner[x]
  }

  lemma SlotsDiffer(i: VarId, j: VarId)
    requires i != j
    ensures Slot(i) != Slot(j)
  {
    assert |Slot(i)| != |Slot(j)|;
  }

  lemma AgreeWithin(inner: Scope, outer: Scope, vars: Vars, keyed: Vars)
    requires Within(inner, outer) && Agree(outer, vars, keyed)
    ensures Agree(inner, vars, keyed)
  {
  }

  lemma AgreeDeclare(scope: Scope, next: VarId, x: string, v: Value, vars: Vars, keyed: Vars)
    requires Agree(scope, vars, keyed) && Apart(scope, next)
    ensures Agree(scope[x := next], vars[User(x) := v], keyed[User(Slot(next)) := v]) && Apart(scope[x := next], next + 1)
  {
    hide Slot;
    forall y | y in scope && y != x
      ensures Lookup(vars[User(x) := v], User(y)) == Lookup(keyed[User(Slot(next)) := v], User(Slot(scope[y])))
    {
      SlotsDiffer(next, scope[y]);
    }
  }

  lemma AgreeUpdate(scope: Scope, next: VarId, x: string, v: Value, vars: Vars, keyed: Vars)
    requires Agree(scope, vars, keyed) && Apart(scope, next) && x in scope
    ensures Agree(scope, vars[User(x) := v], keyed[User(Slot(scope[x])) := v])
  {
    hide Slot;
    forall y | y in scope && y != x
      ensures Lookup(vars[User(x) := v], User(y)) == Lookup(keyed[User(Slot(scope[x])) := v], User(Slot(scope[y])))
    {
      SlotsDiffer(scope[x], scope[y]);
    }
  }

  /** Two flows that came out the same: with what is visible behind the statement, or, for a jump, in the block. */
  ghost predicate FlowsAgree(f: Flow, k: Flow, behind: Scope, outer: Scope) {
    match f
    case Next(vars) => k.Next? && Agree(behind, vars, k.vars)
    case Broke(vars) => k.Broke? && Agree(outer, vars, k.vars)
    case Continued(vars) => k.Continued? && Agree(outer, vars, k.vars)
    case Returned(v) => k == f
    case Stopped(e) => k == f
  }

  // ---------------------------------------------------------------- expressions

  lemma {:induction false} ClosedAgree(w1: World, w2: World, e: Expr, vars: Vars, keyed: Vars, fuel: nat)
    requires !MentionsNames(e) && w1.floats == w2.floats
    ensures Eval(w1, e, vars, fuel) == Eval(w2, e, keyed, fuel)
    decreases e
  {
    hide EvalCall, EvalChain, EvalPath, EvalIndex, ReadPath;
    match e {
      case Lit(_) =>
      case Bin(_, _, l, r) =>
        ClosedAgree(w1, w2, l, vars, keyed, fuel);
        ClosedAgree(w1, w2, r, vars, keyed, fuel);
      case Uni(_, e1) => ClosedAgree(w1, w2, e1, vars, keyed, fuel);
      case StructInit(_, inits) => ClosedListAgree(w1, w2, inits, vars, keyed, fuel);
      case ArrayList(es) => ClosedListAgree(w1, w2, es, vars, keyed, fuel);
      case ArrayFill(e1, _) => ClosedAgree(w1, w2, e1, vars, keyed, fuel);
      case Indexing(a, i) =>
        ClosedAgree(w1, w2, a, vars, keyed, fuel);
        ClosedAgree(w1, w2, i, vars, keyed, fuel);
    }
  }

  lemma {:induction false} ClosedListAgree(w1: World, w2: World, es: seq<Expr>, vars: Vars, keyed: Vars, fuel: nat)
    requires (forall e :: e in es ==> !MentionsNames(e)) && w1.floats == w2.floats
    ensures EvalList(w1, es, vars, fuel) == EvalList(w2, es, keyed, fuel)
    decreases es
  {
    if es != [] {
      ClosedAgree(w1, w2, es[0], vars, keyed, fuel);
      ClosedListAgree(w1, w2, es[1..], vars, keyed, fuel);
    }
  }

  /** What the lemmas below share: a well-scoped program, and where in it we are. */
  datatype Place = Place(src: Source, fns: FnMap, scope: Scope)

  lemma {:induction false} EvalAgree(p: Place, e: Expr, vars: Vars, keyed: Vars, fuel: nat)
    requires WellScoped(p.src) && Agree(p.scope, vars, keyed) && BindExpr(p.scope, p.fns, e).Fine?
    ensures var b := BindExpr(p.scope, p.fns, e).value;
      Eval(NamedWorld(p.src), b.named, vars, fuel) == Eval(KeyedWorld(p.src), b.keyed, keyed, fuel)
    decreases fuel, 1, e, 1
  {
    hide Resolves, Unshadowed, NamedWorld, KeyedWorld, EvalCall, EvalChain, EvalPath, EvalIndex, EvalList, ReadPath, BinValue, UniValue, FieldMap, BindPath, BindCall, BindCalls, BindList;
    match e {
      case Lit(_) =>
      case Var(x) =>
      case FnRef(_) =>
      case Bin(_, _, l, r) =>
        EvalAgree(p, l, vars, keyed, fuel);
        EvalAgree(p, r, vars, keyed, fuel);
      case Uni(_, e1) => EvalAgree(p, e1, vars, keyed, fuel);
      case Call(c) => CallAgree(p, c, [], vars, keyed, fuel);
      case Chain(base, chain) => ChainAgree(p, base, chain, vars, keyed, fuel);
      case StructInit(_, inits) => ListAgree(p, inits, vars, keyed, fuel);
      case ArrayList(es) => ListAgree(p, es, vars, keyed, fuel);
      case ArrayFill(e1, _) => EvalAgree(p, e1, vars, keyed, fuel);
      case Indexing(a, i) =>
        EvalAgree(p, a, vars, keyed, fuel);
        EvalAgree(p, i, vars, keyed, fuel);
      case Access(root, rootIndex, path) => AccessAgree(p, root, rootIndex, path, vars, keyed, fuel);
    }
  }

  lemma {:induction false} AccessAgree(p: Place, root: string, rootIndex: Option<Expr>, path: seq<Seg>, vars: Vars, keyed: Vars, fuel: nat)
    requires WellScoped(p.src) && Agree(p.scope, vars, keyed) && BindExpr(p.scope, p.fns, Access(root, rootIndex, path)).Fine?
    ensures var b := BindExpr(p.scope, p.fns, Access(root, rootIndex, path)).value;
      Eval(NamedWorld(p.src), b.named, vars, fuel) == Eval(KeyedWorld(p.src), b.keyed, keyed, fuel)
    decreases fuel, 1, Access(root, rootIndex, path), 0
  {
    hide Resolves, Unshadowed, NamedWorld, KeyedWorld, ReadPath, BindPath, EvalPath;
    PathAgree(p, path, vars, keyed, fuel);
    if rootIndex.Some? {
      ClosedAgree(NamedWorld(p.src), KeyedWorld(p.src), rootIndex.value, vars, keyed, fuel);
    }
  }

  lemma {:induction false} ListAgree(p: Place, es: seq<Expr>, vars: Vars, keyed: Vars, fuel: nat)
    requires WellScoped(p.src) && Agree(p.scope, vars, keyed) && BindList(p.scope, p.fns, es).Fine?
    ensures var b := BindList(p.scope, p.fns, es).value;
      EvalList(NamedWorld(p.src), b.named, vars, fuel) == EvalList(KeyedWorld(p.src), b.keyed, keyed, fuel)
    decreases fuel, 1, es
  {
    hide Resolves, Unshadowed, NamedWorld, KeyedWorld, Eval, BindExpr, Agree;
    if es != [] {
      EvalAgree(p, es[0], vars, keyed, fuel);
      ListAgree(p, es[1..], vars, keyed, fuel);
    }
  }

  lemma {:induction false} PathAgree(p: Place, path: seq<Seg>, vars: Vars, keyed: Vars, fuel: nat)
    requires WellScoped(p.src) && Agree(p.scope, vars, keyed) && BindPath(p.scope, p.fns, path).Fine?
    ensures var b := BindPath(p.scope, p.fns, path).value;
      EvalPath(NamedWorld(p.src), b.named, vars, fuel) == EvalPath(KeyedWorld(p.src), b.keyed, keyed, fuel)
    decreases fuel, 1, path
  {
    hide Resolves, Unshadowed, NamedWorld, KeyedWorld, Eval, BindExpr, Agree;
    if path != [] {
      if path[0].SegIndex? {
        EvalAgree(p, path[0].index, vars, keyed, fuel);
      }
      PathAgree(p, path[1..], vars, keyed, fuel);
    }
  }

  lemma {:induction false} IndexAgree(p: Place, index: Option<Expr>, vars: Vars, keyed: Vars, fuel: nat)
    requires WellScoped(p.src) && Agree(p.scope, vars, keyed) && BindIndex(p.scope, p.fns, index).Fine?
    ensures var b := BindIndex(p.scope, p.fns, index).value;
      EvalIndex(NamedWorld(p.src), b.named, vars, fuel) == EvalIndex(KeyedWorld(p.src), b.keyed, keyed, fuel)
    decreases fuel, 1, index
  {
    hide Resolves, Unshadowed, NamedWorld, KeyedWorld, Eval, BindExpr, Agree;
    if index.Some? {
      EvalAgree(p, index.value, vars, keyed, fuel);
    }
  }

  lemma {:induction false} CallAgree(p: Place, c: CallExpr, prefix: seq<Value>, vars: Vars, keyed: Vars, fuel: nat)
    requires WellScoped(p.src) && Agree(p.scope, vars, keyed) && BindCall(p.scope, p.fns, c).Fine?
    ensures var b := BindCall(p.scope, p.fns, c).value;
      EvalCall(NamedWorld(p.src), b.named, prefix, vars, fuel) == EvalCall(KeyedWorld(p.src), b.keyed, prefix, keyed, fuel)
    decreases fuel, 1, c
  {
    hide Resolves, Unshadowed, NamedWorld, KeyedWorld, EvalList, BindList, CallFn;
    ListAgree(p, c.args, vars, keyed, fuel);
    var b := BindCall(p.scope, p.fns, c).value;
    var f, args := Lookup(vars, CalleeName(b.named.callee)), EvalList(NamedWorld(p.src), b.named.args, vars, fuel);
    assert f == Lookup(keyed, CalleeName(b.keyed.callee));
    if f.Success? && args.Success? && f.value.Fn? {
      FlatIsLexical(p.src, f.value.id, prefix + args.value, fuel);
    }
  }

  lemma {:induction false} ChainAgree(p: Place, base: CallExpr, chain: seq<CallExpr>, vars: Vars, keyed: Vars, fuel: nat)
    requires WellScoped(p.src) && Agree(p.scope, vars, keyed) && BindExpr(p.scope, p.fns, Chain(base, chain)).Fine?
    ensures var b := BindExpr(p.scope, p.fns, Chain(base, chain)).value;
      Eval(NamedWorld(p.src), b.named, vars, fuel) == Eval(KeyedWorld(p.src), b.keyed, keyed, fuel)
    decreases fuel, 1, Chain(base, chain), 0
  {
    hide Resolves, Unshadowed, NamedWorld, KeyedWorld, EvalCall, EvalChain, BindCall, BindCalls, Agree;
    CallAgree(p, base, [], vars, keyed, fuel);
    var v := EvalCall(NamedWorld(p.src), BindCall(p.scope, p.fns, base).value.named, [], vars, fuel);
    if v.Success? {
      StagesAgree(p, chain, v.value, vars, keyed, fuel);
    }
  }

  lemma {:induction false} StagesAgree(p: Place, cs: seq<CallExpr>, previous: Value, vars: Vars, keyed: Vars, fuel: nat)
    requires WellScoped(p.src) && Agree(p.scope, vars, keyed) && BindCalls(p.scope, p.fns, cs).Fine?
    ensures var b := BindCalls(p.scope, p.fns, cs).value;
      EvalChain(NamedWorld(p.src), b.named, previous, vars, fuel) == EvalChain(KeyedWorld(p.src), b.keyed, previous, keyed, fuel)
    decreases fuel, 1, cs
  {
    hide Resolves, Unshadowed, NamedWorld, KeyedWorld, EvalCall, BindCall, Agree;
    if cs != [] {
      CallAgree(p, cs[0], [previous], vars, keyed, fuel);
      var v := EvalCall(NamedWorld(p.src), BindCall(p.scope, p.fns, cs[0]).value.named, [previous], vars, fuel);
      if v.Success? {
        StagesAgree(p, cs[1..], v.value, vars, keyed, fuel);
      }
    }
  }

  /** A program means the same under either reading. */
  lemma {:induction false} FlatIsLexical(src: Source, id: FnId, args: seq<Value>, fuel: nat)
    requires WellScoped(src)
    ensures CallFn(NamedWorld(src), id, args, fuel) == CallFn(KeyedWorld(src), id, args, fuel)
    decreases fuel, 0, 0
  {
    hide ExecBlock, BindBlock, NoShadowing, Machine.BindParams, ParamScope, Evaluator.ModuleVars;
    var w1, w2 := NamedWorld(src), KeyedWorld(src);
    assert Evaluator.ModuleVars(w1) == Evaluator.ModuleVars(w2) by {
      ModulesAgree(src);
    }
    if id !in w1.builtins && id in w1.fns && |src.world.fns[id].params| == |args| && fuel > 0 {
      var d := src.world.fns[id];
      var top: Scope := map[];
      assert top.Keys == {};
      var scope := ParamScope(map[], d.params, 0);
      var vars0 := Evaluator.ModuleVars(w1);
      EmptyAgree(vars0);
      ParamsAgree(map[], d.params, args, 0, vars0, vars0);
      var vars := Machine.BindParams(vars0, d.params, args);
      var keyed := Machine.BindParams(vars0, Slots(|d.params|, 0), args);
      BlockAgree(Place(src, src.names[id], scope), top, d.body, |d.params|, vars, keyed, fuel - 1);
    }
  }

  lemma ModulesAgree(src: Source)
    requires Resolves(src)
    ensures Evaluator.ModuleVars(NamedWorld(src)) == Evaluator.ModuleVars(KeyedWorld(src))
  {
  }

  lemma EmptyAgree(vars: Vars)
    ensures Agree(map[], vars, vars) && Apart(map[], 0)
  {
  }

  lemma {:induction false} ParamsAgree(scope: Scope, params: seq<string>, args: seq<Value>, next: VarId, vars: Vars, keyed: Vars)
    requires |params| == |args| && Agree(scope, vars, keyed) && Apart(scope, next)
    ensures var behind := ParamScope(scope, params, next);
      && Agree(behind, Machine.BindParams(vars, params, args), Machine.BindParams(keyed, Slots(|params|, next), args))
      && Apart(behind, next + |params|)
    decreases params
  {
    hide Agree, Apart, Slot;
    if params != [] {
      AgreeDeclare(scope, next, params[0], args[0], vars, keyed);
      var ss := Slots(|params|, next);
      assert ss[0] == Slot(next) && ss[1..] == Slots(|params| - 1, next + 1);
      ParamsAgree(scope[params[0] := next], params[1..], args[1..], next + 1, vars[User(params[0]) := args[0]], keyed[User(Slot(next)) := args[0]]);
    }
  }

  // ---------------------------------------------------------------- statements

  lemma {:induction false} BlockAgree(p: Place, outer: Scope, stmts: seq<Stmt>, next: VarId, vars: Vars, keyed: Vars, fuel: nat)
    requires WellScoped(p.src) && Agree(p.scope, vars, keyed) && Apart(p.scope, next)
    requires BindBlock(p.scope, p.fns, stmts, next).Fine?
    requires Within(outer, p.scope) && NoShadowing(stmts, outer.Keys, p.scope.Keys)
    ensures var b := BindBlock(p.scope, p.fns, stmts, next).value;
      && FlowsAgree(ExecBlock(NamedWorld(p.src), b.code.named, vars, fuel), ExecBlock(KeyedWorld(p.src), b.code.keyed, keyed, fuel), b.scope, outer)
      && Within(outer, b.scope)
    decreases fuel, 2, stmts, 0
  {
    hide Resolves, Unshadowed, NamedWorld, KeyedWorld, BindStmt, ExecStmt, Agree, Apart, StmtNoShadowing;
    if stmts != [] {
      var a := BindStmt(p.scope, p.fns, stmts[0], next).value;
      var b := BindBlock(a.scope, p.fns, stmts[1..], a.next).value;
      StmtAgree(p, outer.Keys, stmts[0], next, vars, keyed, fuel);
      ScopeBehind(p, outer, stmts[0], next);
      var f := ExecStmt(NamedWorld(p.src), a.code.named, vars, fuel);
      var k := ExecStmt(KeyedWorld(p.src), a.code.keyed, keyed, fuel);
      if f.Next? {
        BlockAgree(p.(scope := a.scope), outer, stmts[1..], a.next, f.vars, k.vars, fuel);
      } else {
        if f.Broke? || f.Continued? {
          AgreeWithin(outer, p.scope, f.vars, k.vars);
        }
        RestWithin(p.(scope := a.scope), outer, stmts[1..], a.next);
      }
    }
  }

  /** Only declarations change the scope, and not what is visible outside. */
  lemma ScopeBehind(p: Place, outer: Scope, s: Stmt, next: VarId)
    requires Within(outer, p.scope) && StmtNoShadowing(s, outer.Keys, p.scope.Keys) && Apart(p.scope, next)
    requires BindStmt(p.scope, p.fns, s, next).Fine?
    ensures var a := BindStmt(p.scope, p.fns, s, next).value;
      && Within(outer, a.scope) && Apart(a.scope, a.next)
      && a.scope.Keys == if s.Local? then p.scope.Keys + {s.name} else p.scope.Keys
  {
    hide BindBlock, BindArms, BindExpr, BindPath, BindIndex, NoShadowing, ArmsNoShadowing;
  }

  lemma {:induction false} RestWithin(p: Place, outer: Scope, stmts: seq<Stmt>, next: VarId)
    requires Within(outer, p.scope) && NoShadowing(stmts, outer.Keys, p.scope.Keys) && Apart(p.scope, next)
    requires BindBlock(p.scope, p.fns, stmts, next).Fine?
    ensures Within(outer, BindBlock(p.scope, p.fns, stmts, next).value.scope)
    decreases stmts
  {
    hide BindStmt, Apart, Within, StmtNoShadowing;
    if stmts != [] {
      var a := BindStmt(p.scope, p.fns, stmts[0], next).value;
      ScopeBehind(p, outer, stmts[0], next);
      RestWithin(p.(scope := a.scope), outer, stmts[1..], a.next);
    }
  }

  lemma {:induction false} StmtAgree(p: Place, outer: set<string>, s: Stmt, next: VarId, vars: Vars, keyed: Vars, fuel: nat)
    requires WellScoped(p.src) && Agree(p.scope, vars, keyed) && Apart(p.scope, next)
    requires BindStmt(p.scope, p.fns, s, next).Fine? && StmtNoShadowing(s, outer, p.scope.Keys)
    ensures var b := BindStmt(p.scope, p.fns, s, next).value;
      FlowsAgree(ExecStmt(NamedWorld(p.src), b.code.named, vars, fuel), ExecStmt(KeyedWorld(p.src), b.code.keyed, keyed, fuel), b.scope, p.scope)
    decreases fuel, 2, s, 1
  {
    hide Resolves, Unshadowed, NamedWorld, KeyedWorld, Eval, ExecBlock, ExecArms, ExecWhile, EvalCondition, BindExpr, BindPath, BindIndex, BindBlock, BindArms, Agree, Apart, NoShadowing,
      ArmsNoShadowing, AssignVars, EvalIndex, EvalPath;
    match s {
      case ExprStmt(e) => EvalAgree(p, e, vars, keyed, fuel);
      case Local(x, e) =>
        EvalAgree(p, e, vars, keyed, fuel);
        var v := Eval(NamedWorld(p.src), BindExpr(p.scope, p.fns, e).value.named, vars, fuel);
        if v.Success? {
          AgreeDeclare(p.scope, next, x, v.value, vars, keyed);
        }
      case Assign(root, rootIndex, path, value) => AssignAgree(p, s, next, vars, keyed, fuel);
      case Return(None) =>
      case Return(Some(e)) => EvalAgree(p, e, vars, keyed, fuel);
      case Break =>
      case Continue =>
      case While(cond, body) => WhileAgree(p, cond, body, next, vars, keyed, fuel);
      case If(cond, body, rest) =>
        ConditionAgree(p, cond, vars, keyed, fuel);
        InnerAgree(p, body, next, vars, keyed, fuel);
        ArmsAgree(p, rest, BindBlock(p.scope, p.fns, body, next).value.next, vars, keyed, fuel);
    }
  }

  lemma {:induction false} ConditionAgree(p: Place, cond: Expr, vars: Vars, keyed: Vars, fuel: nat)
    requires WellScoped(p.src) && Agree(p.scope, vars, keyed) && BindExpr(p.scope, p.fns, cond).Fine?
    ensures var b := BindExpr(p.scope, p.fns, cond).value;
      EvalCondition(NamedWorld(p.src), b.named, vars, fuel) == EvalCondition(KeyedWorld(p.src), b.keyed, keyed, fuel)
    decreases fuel, 1, cond, 2
  {
    hide Resolves, Unshadowed, NamedWorld, KeyedWorld, Eval, BindExpr, Agree;
    EvalAgree(p, cond, vars, keyed, fuel);
  }

  /** A block in its own scope. */
  lemma {:induction false} InnerAgree(p: Place, body: seq<Stmt>, next: VarId, vars: Vars, keyed: Vars, fuel: nat)
    requires WellScoped(p.src) && Agree(p.scope, vars, keyed) && exists n: VarId :: n <= next && Apart(p.scope, n)
    requires BindBlock(p.scope, p.fns, body, next).Fine? && NoShadowing(body, p.scope.Keys, p.scope.Keys)
    ensures var b := BindBlock(p.scope, p.fns, body, next).value;
      FlowsAgree(ExecBlock(NamedWorld(p.src), b.code.named, vars, fuel), ExecBlock(KeyedWorld(p.src), b.code.keyed, keyed, fuel), p.scope, p.scope)
    decreases fuel, 2, body, 1
  {
    hide Resolves, Unshadowed, NamedWorld, KeyedWorld, ExecBlock, BindBlock, Agree, NoShadowing;
    assert Apart(p.scope, next);
    BlockAgree(p, p.scope, body, next, vars, keyed, fuel);
    var b := BindBlock(p.scope, p.fns, body, next).value;
    var f, k := ExecBlock(NamedWorld(p.src), b.code.named, vars, fuel), ExecBlock(KeyedWorld(p.src), b.code.keyed, keyed, fuel);
    if f.Next? {
      AgreeWithin(p.scope, b.scope, f.vars, k.vars);
    }
  }

  lemma {:induction false} ArmsAgree(p: Place, a: Arms, next: VarId, vars: Vars, keyed: Vars, fuel: nat)
    requires WellScoped(p.src) && Agree(p.scope, vars, keyed) && exists n: VarId :: n <= next && Apart(p.scope, n)
    requires BindArms(p.scope, p.fns, a, next).Fine? && ArmsNoShadowing(a, p.scope.Keys)
    ensures var b := BindArms(p.scope, p.fns, a, next).value;
      FlowsAgree(ExecArms(NamedWorld(p.src), b.code.named, vars, fuel), ExecArms(KeyedWorld(p.src), b.code.keyed, keyed, fuel), p.scope, p.scope)
    decreases fuel, 2, a, 0
  {
    hide Resolves, Unshadowed, NamedWorld, KeyedWorld, ExecBlock, BindBlock, BindExpr, EvalCondition, Agree, NoShadowing, Apart;
    match a {
      case NoMore =>
      case Default(b) => InnerAgree(p, b, next, vars, keyed, fuel);
      case Elif(cond, b, rest) =>
        ConditionAgree(p, cond, vars, keyed, fuel);
        InnerAgree(p, b, next, vars, keyed, fuel);
        ArmsAgree(p, rest, BindBlock(p.scope, p.fns, b, next).value.next, vars, keyed, fuel);
    }
  }

  lemma {:induction false} WhileAgree(p: Place, cond: Expr, body: seq<Stmt>, next: VarId, vars: Vars, keyed: Vars, fuel: nat)
    requires WellScoped(p.src) && Agree(p.scope, vars, keyed) && Apart(p.scope, next)
    requires BindExpr(p.scope, p.fns, cond).Fine? && BindBlock(p.scope, p.fns, body, next).Fine?
    requires NoShadowing(body, p.scope.Keys, p.scope.Keys)
    ensures var c, b := BindExpr(p.scope, p.fns, cond).value, BindBlock(p.scope, p.fns, body, next).value.code;
      FlowsAgree(ExecWhile(NamedWorld(p.src), c.named, b.named, vars, fuel), ExecWhile(KeyedWorld(p.src), c.keyed, b.keyed, keyed, fuel), p.scope, p.scope)
    decreases fuel, 2, While(cond, body), 0
  {
    hide Resolves, Unshadowed, NamedWorld, KeyedWorld, ExecBlock, BindBlock, BindExpr, EvalCondition, Agree, NoShadowing;
    ConditionAgree(p, cond, vars, keyed, fuel);
    InnerAgree(p, body, next, vars, keyed, fuel);
    var b := BindBlock(p.scope, p.fns, body, next).value.code;
    var f, k := ExecBlock(NamedWorld(p.src), b.named, vars, fuel), ExecBlock(KeyedWorld(p.src), b.keyed, keyed, fuel);
    if (f.Next? || f.Continued?) && fuel > 0 {
      WhileAgree(p, cond, body, next, f.vars, k.vars, fuel - 1);
    }
  }

  lemma {:induction false} AssignAgree(p: Place, s: Stmt, next: VarId, vars: Vars, keyed: Vars, fuel: nat)
    requires WellScoped(p.src) && Agree(p.scope, vars, keyed) && Apart(p.scope, next)
    requires s.Assign? && BindStmt(p.scope, p.fns, s, next).Fine?
    ensures var b := BindStmt(p.scope, p.fns, s, next).value;
      FlowsAgree(ExecStmt(NamedWorld(p.src), b.code.named, vars, fuel), ExecStmt(KeyedWorld(p.src), b.code.keyed, keyed, fuel), b.scope, p.scope)
    decreases fuel, 2, s, 0
  {
    hide Resolves, Unshadowed, NamedWorld, KeyedWorld, Eval, EvalIndex, EvalPath, BindExpr, BindPath, BindIndex, Agree, Apart, WritePath, AssignVars;
    var Assign(root, rootIndex, path, value) := s;
    EvalAgree(p, value, vars, keyed, fuel);
    IndexAgree(p, rootIndex, vars, keyed, fuel);
    PathAgree(p, path, vars, keyed, fuel);
    var b := BindStmt(p.scope, p.fns, s, next).value.code.named;
    var w := NamedWorld(p.src);
    var v, s0, s1 := Eval(w, b.value, vars, fuel), EvalIndex(w, b.rootIndex, vars, fuel), EvalPath(w, b.path, vars, fuel);
    if v.Success? && s0.Success? && s1.Success? {
      StoreAgree(p.scope, next, root, s0.value + s1.value, v.value, vars, keyed);
    }
  }

  lemma StoreAgree(scope: Scope, next: VarId, root: string, steps: seq<PathStep>, v: Value, vars: Vars, keyed: Vars)
    requires Agree(scope, vars, keyed) && Apart(scope, next) && root in scope
    ensures FlowsAgree(AssignVars(vars, root, steps, v), AssignVars(keyed, Slot(scope[root]), steps, v), scope, scope)
  {
    hide WritePath, Apart;
    AgreeUpdate(scope, next, root, v, vars, keyed);
    if steps != [] && User(root) in vars {
      assert Lookup(vars, User(root)) == Lookup(keyed, User(Slot(scope[root])));
      var r := WritePath(vars[User(root)], steps, v);
      if r.Success? {
        AgreeUpdate(scope, next, root, r.value, vars, keyed);
      }
    }
  }

  // ---------------------------------------------------------------- running the code

  /** The bytecode, which spells variables by name, behaves as the program with one variable for every declaration:
      the same values, the same faults, and it runs forever for the same arguments. */
  lemma CodeIsLexical(src: Source, id: FnId, args: seq<Value>, v: Value, f: Fault)
    requires WellScoped(src) && Compilable(NamedWorld(src))
    ensures (exists k: nat :: RunFrom(CompileWorld(NamedWorld(src)), id, args, k) == Machine.Finished(v))
       <==> (exists fuel: nat :: CallFn(KeyedWorld(src), id, args, fuel) == Success(v))
    ensures (exists k: nat :: RunFrom(CompileWorld(NamedWorld(src)), id, args, k) == Machine.Faulted(f))
       <==> f != OutOfFuel && (exists fuel: nat :: CallFn(KeyedWorld(src), id, args, fuel) == Failure(f))
    ensures RunsForever(CompileWorld(NamedWorld(src)), id, args) <==> Diverges(KeyedWorld(src), id, args)
  {
    hide RunFrom, CallFn, CompileWorld, Compilable, NamedWorld, KeyedWorld, Resolves, Unshadowed;
    ValuesPreserved(NamedWorld(src), id, args, v);
    SameResults(src, id, args, Success(v));
    FaultsPreserved(NamedWorld(src), id, args, f);
    SameResults(src, id, args, Failure(f));
    DivergencePreserved(NamedWorld(src), id, args);
    forall fuel: nat ensures CallFn(NamedWorld(src), id, args, fuel) == CallFn(KeyedWorld(src), id, args, fuel) {
      FlatIsLexical(src, id, args, fuel);
    }
  }

  lemma SameResults(src: Source, id: FnId, args: seq<Value>, r: Result<Value>)
    requires WellScoped(src)
    ensures (exists fuel: nat :: CallFn(NamedWorld(src), id, args, fuel) == r) <==> (exists fuel: nat :: CallFn(KeyedWorld(src), id, args, fuel) == r)
  {
    hide CallFn, NamedWorld, KeyedWorld, Resolves, Unshadowed;
    if fuel: nat :| CallFn(NamedWorld(src), id, args, fuel) == r {
      FlatIsLexical(src, id, args, fuel);
      assert CallFn(KeyedWorld(src), id, args, fuel) == r;
    }
    if fuel: nat :| CallFn(KeyedWorld(src), id, args, fuel) == r {
      FlatIsLexical(src, id, args, fuel);
      assert CallFn(NamedWorld(src), id, args, fuel) == r;
    }
  }

  // ---------------------------------------------------------------- why the condition is there, and that it is not exact

  /** `let x = 1; if true { let y = 2; } return result;` */
  function Redeclaring(x: string, y: string, result: Expr): seq<Stmt> {
    [Local(x, Lit(LInt(1)))] + ([If(Lit(LBool(true)), [Local(y, Lit(LInt(2)))], NoMore)] + [Stmt.Return(Some(result))])
  }

  lemma RedeclaringRuns(w: World, x: string, y: string, result: Expr, vars: Vars, fuel: nat)
    ensures var r := Eval(w, result, vars[User(x) := Int(1)][User(y) := Int(2)], fuel);
      ExecBlock(w, Redeclaring(x, y, result), vars, fuel) == if r.Success? then Returned(r.value) else Stopped(r.error)
  {
    hide Eval;
    var yes, one, two, last := Lit(LBool(true)), Lit(LInt(1)), Lit(LInt(2)), Stmt.Return(Some(result));
    var v1 := vars[User(x) := Int(1)];
    var v2 := v1[User(y) := Int(2)];
    LitEvals(w, one, vars, fuel);
    LitEvals(w, two, v1, fuel);
    LitEvals(w, yes, v1, fuel);
    var inner := [Local(y, two)];
    ExecCons(w, Local(y, two), [], v1, fuel);
    assert inner + [] == inner;
    assert ExecBlock(w, inner, v1, fuel) == Next(v2);
    assert ExecStmt(w, If(yes, inner, NoMore), v1, fuel) == Next(v2);
    ExecCons(w, Local(x, one), [If(yes, inner, NoMore)] + [last], vars, fuel);
    ExecCons(w, If(yes, inner, NoMore), [last], v1, fuel);
    ExecCons(w, last, [], v2, fuel);
    assert [last] + [] == [last];
  }

  lemma LitEvals(w: World, e: Expr, vars: Vars, fuel: nat)
    requires e.Lit?
    ensures Eval(w, e, vars, fuel) == Success(LitValue(e.lit))
  {
  }

  /** Bound, the outer name is the first variable and the inner one the second. */
  lemma RedeclaringBinds(result: Expr, named: Expr, keyed: Expr)
    requires BindExpr(map["x" := 0], map[], result) == Fine(Pair(named, keyed))
    ensures BindBlock(map[], map[], Redeclaring("x", "x", result), 0)
         == Fine(Bound(Pair(Redeclaring("x", "x", named), Redeclaring(Slot(0), Slot(1), keyed)), map["x" := 0], 2))
  {
    hide Slot;
    var yes, one, two, last := Lit(LBool(true)), Lit(LInt(1)), Lit(LInt(2)), Stmt.Return(Some(result));
    var scope: Scope := map["x" := 0];
    var inner := [Local("x", two)];
    assert scope["x" := 1] == map["x" := 1];
    BindCons(scope, map[], Local("x", two), [], 1);
    assert inner + [] == inner && [Local(Slot(1), two)] + [] == [Local(Slot(1), two)];
    assert BindBlock(scope, map[], inner, 1) == Fine(Bound(Pair(inner, [Local(Slot(1), two)]), map["x" := 1], 2));
    var branch := If(yes, inner, NoMore);
    assert BindStmt(scope, map[], branch, 1) == Fine(Bound(Pair(branch, If(yes, [Local(Slot(1), two)], NoMore)), scope, 2));
    BindCons(scope, map[], last, [], 2);
    assert [last] + [] == [last];
    var ends := Pair([Stmt.Return(Some(named))], [Stmt.Return(Some(keyed))]);
    assert ends.named + [] == ends.named && ends.keyed + [] == ends.keyed;
    assert BindBlock(scope, map[], [last], 2) == Fine(Bound(ends, scope, 2));
    BindCons(scope, map[], branch, [last], 1);
    BindCons(map[], map[], Local("x", one), [branch] + [last], 0);
  }

  /** An inner declaration of a visible name overwrites the outer variable: by name the program returns 2, with a
      variable for every declaration it returns 1. */
  lemma ShadowingLeaks(w: World, vars: Vars, fuel: nat)
    ensures var body := Redeclaring("x", "x", Var("x"));
      var b := BindBlock(map[], map[], body, 0);
      && !NoShadowing(body, {}, {}) && b.Fine?
      && ExecBlock(w, b.value.code.named, vars, fuel) == Returned(Int(2))
      && ExecBlock(w, b.value.code.keyed, vars, fuel) == Returned(Int(1))
  {
    RedeclaringShadows(Var("x"));
    SlotsDiffer(0, 1);
    RedeclaringBinds(Var("x"), Var("x"), Var(Slot(0)));
    RedeclaringRuns(w, "x", "x", Var("x"), vars, fuel);
    RedeclaringRuns(w, Slot(0), Slot(1), Var(Slot(0)), vars, fuel);
  }

  /** A name declared again but not read afterwards does no harm, so the condition is sufficient and not necessary:
      here both readings return 3. */
  lemma UnreadShadowingAgrees(w: World, vars: Vars, fuel: nat)
    ensures var body := Redeclaring("x", "x", Lit(LInt(3)));
      var b := BindBlock(map[], map[], body, 0);
      && !NoShadowing(body, {}, {}) && b.Fine?
      && ExecBlock(w, b.value.code.named, vars, fuel) == ExecBlock(w, b.value.code.keyed, vars, fuel) == Returned(Int(3))
  {
    var three := Lit(LInt(3));
    RedeclaringShadows(three);
    RedeclaringBinds(three, three, three);
    RedeclaringRuns(w, "x", "x", three, vars, fuel);
    RedeclaringRuns(w, Slot(0), Slot(1), three, vars, fuel);
  }

  lemma RedeclaringShadows(result: Expr)
    ensures !NoShadowing(Redeclaring("x", "x", result), {}, {})
  {
    var inner, visible := [Local("x", Lit(LInt(2)))], {} + {"x"};
    var rest := [If(Lit(LBool(true)), inner, NoMore)] + [Stmt.Return(Some(result))];
    assert !NoShadowing(inner, visible, visible);
    assert !NoShadowing(rest, {}, visible);
    assert ([Local("x", Lit(LInt(1)))] + rest)[1..] == rest;
  }
}
