/** Typing of call-free, non-generic bodies.  The checker works on bound names: a name stands for the declaration it is
    bound to, so the type of a variable is found under its name in a context that follows the scopes. */
module TypeChecker {
  import opened Values
  import opened Syntax
  import opened Types

  datatype TSeg = FieldSeg(name: string) | IndexSeg(name: string, index: TExpr)

  /** Expressions before their operators are typed.  `type` names a declared structure. */
  datatype TExpr =
    | TLit(lit: Literal)
    | TVar(name: string)
    | TBin(op: BinOp, lhs: TExpr, rhs: TExpr)
    | TUni(uop: UniOp, operand: TExpr)
    | TNamedInit(typeName: string, names: seq<string>, inits: seq<TExpr>)
    | TAnonInit(names: seq<string>, inits: seq<TExpr>)
    | TList(elems: seq<TExpr>)
    | TFill(elem: TExpr, size: nat)
    | TIndexing(arr: TExpr, indexer: TExpr)
    | TAccess(root: string, rootIndex: Option<TExpr>, path: seq<TSeg>)

  datatype TArms = TNoMore | TDefault(dflt: seq<TStmt>) | TElif(cond: TExpr, body: seq<TStmt>, rest: TArms)

  datatype TStmt =
    | TExprStmt(e: TExpr)
    | TLocal(name: string, annotation: Option<Type>, init: TExpr)
    | TAssign(root: string, rootIndex: Option<TExpr>, path: seq<TSeg>, value: TExpr)
    | TReturn(ret: Option<TExpr>)
    | TBreak
    | TContinue
    | TWhile(cond: TExpr, body: seq<TStmt>)
    | TIf(cond: TExpr, body: seq<TStmt>, rest: TArms)

  /** The checker panics where the source unwraps nothing or finds a field twice. */
  datatype Checked<+T> = Typed(value: T) | TypeError | CheckerPanic {
    predicate IsFailure() { !Typed? }
    function PropagateFailure<U>(): Checked<U>
      requires !Typed?
    {
      if TypeError? then Checked<U>.TypeError else Checked<U>.CheckerPanic
    }
    function Extract(): T
      requires Typed?
    {
      value
    }
  }

  /** A type, and the expression the code generator gets to see. */
  datatype Judged = Judged(t: Type, e: Expr)

  type Context = map<string, Type>
  type Decls = map<string, Type>

  function LitType(l: Literal): Type {
    match l
    case LString(_) => StringT
    case LInt(_) => IntT
    case LFloat(_) => FloatT
    case LBool(_) => BoolT
  }

  function Expect<T>(ok: bool, x: T): Checked<T> {
    if ok then Typed(x) else TypeError
  }

  /** Result type of an operator, and the instruction family it selects. */
  function ResolveBinOp(op: BinOp, l: Type, r: Type): Checked<(Type, NumType)> {
    match op
    case Arith(_) =>
      if l.IntT? && r.IntT? then Typed((IntT, IntType)) else if l.FloatT? && r.FloatT? then Typed((FloatT, FloatType)) else TypeError
    case Compare(_) =>
      if l.IntT? && r.IntT? then Typed((BoolT, IntType)) else if l.FloatT? && r.FloatT? then Typed((BoolT, FloatType)) else TypeError
    case LogicalAnd => Expect(l.BoolT? && r.BoolT?, (BoolT, IntType))
    case LogicalOr => Expect(l.BoolT? && r.BoolT?, (BoolT, IntType))
    case Eq => Expect(ResolveTypes(l, r), (BoolT, IntType))
    case InEq => Expect(ResolveTypes(l, r), (BoolT, IntType))
  }

  function ResolveUniOp(op: UniOp, t: Type): Checked<Type> {
    match op
    case Negate => Expect(t.IntT? || t.FloatT?, t)
    case LogicalInvert => Expect(t.BoolT?, t)
  }

  predicate Distinct(names: seq<string>) {
    names == [] || (names[0] !in names[1..] && Distinct(names[1..]))
  }

  /** The fields of a named initializer, from left to right: an unknown one is an error, a repeated one a panic. */
  function KnownFields(names: seq<string>, seen: set<string>, fields: map<string, Type>): (r: Checked<set<string>>)
    ensures r.Typed? ==> Distinct(names) && (forall x :: x in names ==> x in fields && x !in seen)
    decreases names
  {
    if names == [] then Typed(seen)
    else if names[0] !in fields then TypeError
    else if names[0] in seen then CheckerPanic
    else KnownFields(names[1..], seen + {names[0]}, fields)
  }

  /** A named initializer: known fields only, none twice, none missing, each of a fitting type. */
  function ResolveStructInit(decls: Decls, typeName: string, names: seq<string>, ts: seq<Type>): Checked<Type> {
    if typeName !in decls || !decls[typeName].RecordT? then TypeError
    else
      var t := decls[typeName];
      var _ :- KnownFields(names, {}, t.fields);
      if |names| != |t.fields| || |names| != |ts| then TypeError
      else
        var given := FieldMap(names, ts);
        Expect(forall f :: f in t.fields ==> f in given && ResolveTypes(given[f], t.fields[f]), t)
  }

  function ResolveAnonInit(names: seq<string>, ts: seq<Type>): Checked<Type> {
    Expect(Distinct(names) && |names| == |ts|, WidthT(FieldMap(names, ts)))
  }

  function ResolveArrayList(ts: seq<Type>): Checked<Type> {
    if ts == [] then CheckerPanic else Expect(forall t :: t in ts[1..] ==> ResolveTypes(t, ts[0]), ArrayT(ts[0], |ts|))
  }

  function ElementOf(arr: Type, index: Type): Checked<Type> {
    if arr.ArrayT? && index.IntT? then Typed(arr.elem) else TypeError
  }

  function FieldOf(t: Type, name: string): Checked<Type> {
    if (t.RecordT? || t.WidthT?) && name in t.fields then Typed(t.fields[name]) else TypeError
  }

  function CheckExpr(decls: Decls, ctx: Context, e: TExpr): Checked<Judged>
    decreases e
  {
    match e
    case TLit(l) => Typed(Judged(LitType(l), Lit(l)))
    case TVar(x) => if x in ctx then Typed(Judged(ctx[x], Var(x))) else TypeError
    case TBin(op, l, r) =>
      var a :- CheckExpr(decls, ctx, l);
      var b :- CheckExpr(decls, ctx, r);
      var t :- ResolveBinOp(op, a.t, b.t);
      Typed(Judged(t.0, Bin(op, t.1, a.e, b.e)))
    case TUni(op, e1) =>
      var a :- CheckExpr(decls, ctx, e1);
      var t :- ResolveUniOp(op, a.t);
      Typed(Judged(t, Uni(op, a.e)))
    case TNamedInit(typeName, names, inits) =>
      var a :- CheckList(decls, ctx, inits);
      var t :- ResolveStructInit(decls, typeName, names, a.0);
      Typed(Judged(t, StructInit(names, a.1)))
    case TAnonInit(names, inits) =>
      var a :- CheckList(decls, ctx, inits);
      var t :- ResolveAnonInit(names, a.0);
      Typed(Judged(t, StructInit(names, a.1)))
    case TList(es) =>
      var a :- CheckList(decls, ctx, es);
      var t :- ResolveArrayList(a.0);
      Typed(Judged(t, ArrayList(a.1)))
    case TFill(e1, size) =>
      var a :- CheckExpr(decls, ctx, e1);
      Typed(Judged(ArrayT(a.t, size), ArrayFill(a.e, size)))
    case TIndexing(x, i) =>
      var a :- CheckExpr(decls, ctx, x);
      var b :- CheckExpr(decls, ctx, i);
      var t :- ElementOf(a.t, b.t);
      Typed(Judged(t, Indexing(a.e, b.e)))
    case TAccess(root, rootIndex, path) =>
      var a :- CheckRoot(decls, ctx, root, rootIndex);
      var p :- CheckPath(decls, ctx, a.0, path);
      Typed(Judged(p.0, Access(root, a.1, p.1)))
  }

  function CheckList(decls: Decls, ctx: Context, es: seq<TExpr>): (r: Checked<(seq<Type>, seq<Expr>)>)
    ensures r.Typed? ==> |r.value.0| == |r.value.1| == |es|
    decreases es
  {
    if es == [] then Typed(([], []))
    else
      var a :- CheckExpr(decls, ctx, es[0]);
      var b :- CheckList(decls, ctx, es[1..]);
      Typed(([a.t] + b.0, [a.e] + b.1))
  }

  /** The type a path starts from: the root variable, indexed or not. */
  function CheckRoot(decls: Decls, ctx: Context, root: string, rootIndex: Option<TExpr>): Checked<(Type, Option<Expr>)>
    decreases rootIndex
  {
    if root !in ctx then TypeError
    else match rootIndex {
      case None => Typed((ctx[root], None))
      case Some(e) =>
        var i :- CheckExpr(decls, ctx, e);
        var t :- ElementOf(ctx[root], i.t);
        Typed((t, Some(i.e)))
    }
  }

  function CheckPath(decls: Decls, ctx: Context, t: Type, path: seq<TSeg>): Checked<(Type, seq<Seg>)>
    decreases path
  {
    if path == [] then Typed((t, []))
    else match path[0] {
      case FieldSeg(f) =>
        var t1 :- FieldOf(t, f);
        var rest :- CheckPath(decls, ctx, t1, path[1..]);
        Typed((rest.0, [SegField(f)] + rest.1))
      case IndexSeg(f, e) =>
        var t1 :- FieldOf(t, f);
        var i :- CheckExpr(decls, ctx, e);
        var t2 :- ElementOf(t1, i.t);
        var rest :- CheckPath(decls, ctx, t2, path[1..]);
        Typed((rest.0, [SegIndex(f, i.e)] + rest.1))
    }
  }

  function CheckCondition(decls: Decls, ctx: Context, cond: TExpr): Checked<Expr> {
    var c :- CheckExpr(decls, ctx, cond);
    Expect(ResolveTypes(c.t, BoolT), c.e)
  }

  /** A statement that is typed, and the context behind it. */
  function CheckStmt(decls: Decls, ret: Type, ctx: Context, s: TStmt): Checked<(Stmt, Context)>
    decreases s
  {
    match s
    case TExprStmt(e) =>
      var a :- CheckExpr(decls, ctx, e);
      Typed((ExprStmt(a.e), ctx))
    case TLocal(x, annotation, init) =>
      var a :- CheckExpr(decls, ctx, init);
      if annotation.Some? then Expect(ResolveTypes(a.t, annotation.value), (Local(x, a.e), ctx[x := annotation.value]))
      else Typed((Local(x, a.e), ctx[x := a.t]))
    case TAssign(root, rootIndex, path, value) =>
      var a :- CheckExpr(decls, ctx, value);
      var b :- CheckRoot(decls, ctx, root, rootIndex);
      var p :- CheckPath(decls, ctx, b.0, path);
      Expect(ResolveTypes(a.t, p.0), (Assign(root, b.1, p.1, a.e), ctx))
    case TReturn(None) => Expect(ResolveTypes(UnitT, ret), (Return(None), ctx))
    case TReturn(Some(e)) =>
      var a :- CheckExpr(decls, ctx, e);
      Expect(ResolveTypes(a.t, ret), (Return(Some(a.e)), ctx))
    case TBreak => Typed((Break, ctx))
    case TContinue => Typed((Continue, ctx))
    case TWhile(cond, body) =>
      var c :- CheckCondition(decls, ctx, cond);
      var b :- CheckBlock(decls, ret, ctx, body);
      Typed((While(c, b.0), ctx))
    case TIf(cond, body, rest) =>
      var c :- CheckCondition(decls, ctx, cond);
      var b :- CheckBlock(decls, ret, ctx, body);
      var r :- CheckArms(decls, ret, ctx, rest);
      Typed((If(c, b.0, r), ctx))
  }

  function CheckBlock(decls: Decls, ret: Type, ctx: Context, stmts: seq<TStmt>): Checked<(seq<Stmt>, Context)>
    decreases stmts
  {
    if stmts == [] then Typed(([], ctx))
    else
      var a :- CheckStmt(decls, ret, ctx, stmts[0]);
      var b :- CheckBlock(decls, ret, a.1, stmts[1..]);
      Typed(([a.0] + b.0, b.1))
  }

  lemma CheckCons(decls: Decls, ret: Type, ctx: Context, s: TStmt, rest: seq<TStmt>)
    requires CheckStmt(decls, ret, ctx, s).Typed?
    ensures var a := CheckStmt(decls, ret, ctx, s).value;
      var b := CheckBlock(decls, ret, a.1, rest);
      b.Typed? ==> CheckBlock(decls, ret, ctx, [s] + rest) == Typed(([a.0] + b.value.0, b.value.1))
  {
    hide CheckStmt;
    assert ([s] + rest)[1..] == rest;
  }

  function CheckArms(decls: Decls, ret: Type, ctx: Context, arms: TArms): Checked<Arms>
    decreases arms
  {
    match arms
    case TNoMore => Typed(NoMore)
    case TDefault(body) =>
      var b :- CheckBlock(decls, ret, ctx, body);
      Typed(Default(b.0))
    case TElif(cond, body, rest) =>
      var c :- CheckCondition(decls, ctx, cond);
      var b :- CheckBlock(decls, ret, ctx, body);
      var r :- CheckArms(decls, ret, ctx, rest);
      Typed(Elif(c, b.0, r))
  }

  /** A function: its parameters with their types, its result type. */
  datatype TFn = TFn(params: seq<string>, paramTypes: seq<Type>, body: seq<TStmt>, ret: Type, firstId: nat)

  function ParamContext(ctx: Context, params: seq<string>, types: seq<Type>): Context
    decreases params
  {
    if params == [] || types == [] then ctx else ParamContext(ctx[params[0] := types[0]], params[1..], types[1..])
  }

  function CheckFn(decls: Decls, f: TFn): Checked<FnDef> {
    var b :- CheckBlock(decls, f.ret, ParamContext(map[], f.params, f.paramTypes), f.body);
    Typed(FnDef(f.params, b.0, f.ret.UnitT?, f.firstId))
  }
}
