/** A typed call-free body never confuses one kind of value with another: its only faults are those of arithmetic and of
    indices out of bounds. */
module TypeSoundness {
  import opened Values
  import opened Syntax
  import opened ByteCode
  import opened Evaluator
  import opened Types
  import opened TypeChecker
  import opened Lexical
  import opened ReturnTrace
  import opened Safety
  import opened Compiler
  import opened Correctness
  import Machine

  /** What is left to go wrong. */
  predicate Benign(f: Fault) { f.ArithPanic? || f.IndexPanic? }

  /** A result of this type, or a benign fault. */
  ghost predicate Gives(r: Result<Value>, t: Type) {
    if r.Success? then Inhabits(r.value, t) else Benign(r.error)
  }

  /** Every variable in the context is bound, to a value of its type. */
  ghost predicate Holds(ctx: Context, vars: Vars) {
    forall x :: x in ctx ==> User(x) in vars && Inhabits(vars[User(x)], ctx[x])
  }

  predicate AllFormed(shapes: Shapes, ts: map<string, Type>) {
    forall x :: x in ts ==> Formed(shapes, ts[x])
  }

  /** Where the program is typed: well-formed declarations and types of variables. */
  predicate Sane(shapes: Shapes, decls: Decls, ctx: Context) {
    AllFormed(shapes, decls) && AllFormed(shapes, ctx)
  }

  // ---------------------------------------------------------------- operators, initializers

  lemma BinGives(fl: Floats, op: BinOp, l: Type, r: Type, a: Value, b: Value)
    requires ResolveBinOp(op, l, r).Typed? && Inhabits(a, l) && Inhabits(b, r)
    ensures var t := ResolveBinOp(op, l, r).value; Gives(BinValue(fl, op, t.1, a, b), t.0)
  {
    hide ResolveTypes, ValueEq;
  }

  lemma UniGives(fl: Floats, op: UniOp, t: Type, a: Value)
    requires ResolveUniOp(op, t).Typed? && Inhabits(a, t)
    ensures Gives(UniValue(fl, op, a), t)
  {
  }

  ghost predicate AllInhabit(vs: seq<Value>, ts: seq<Type>) {
    |vs| == |ts| && forall i :: 0 <= i < |vs| ==> Inhabits(vs[i], ts[i])
  }

  /** With distinct names the two maps agree name by name. */
  lemma {:induction false} FieldMapsMatch(names: seq<string>, vs: seq<Value>, ts: seq<Type>)
    requires |names| == |vs| && Distinct(names) && AllInhabit(vs, ts)
    ensures var given, fields := FieldMap(names, ts), FieldMap(names, vs);
      && (forall f :: f in given <==> f in names) && (forall f :: f in fields <==> f in names)
      && (forall f :: f in given ==> f in fields && Inhabits(fields[f], given[f]))
    decreases names
  {
    hide Inhabits;
    if names != [] {
      FieldMapsMatch(names[1..], vs[1..], ts[1..]);
      var given, fields := FieldMap(names, ts), FieldMap(names, vs);
      forall f | f in given ensures f in fields && Inhabits(fields[f], given[f]) {
        if f == names[0] {
          assert f !in FieldMap(names[1..], ts[1..]) && f !in FieldMap(names[1..], vs[1..]);
          assert Inhabits(vs[0], ts[0]);
        }
      }
    }
  }

  lemma FieldFormed(shapes: Shapes, t: Type, f: string)
    requires t.RecordT? && Formed(shapes, t) && f in t.fields
    ensures Formed(shapes, t.fields[f])
  {
  }

  /** What an accepted initializer is known to satisfy. */
  lemma StructInitFits(decls: Decls, typeName: string, names: seq<string>, ts: seq<Type>)
    requires ResolveStructInit(decls, typeName, names, ts).Typed?
    ensures typeName in decls && decls[typeName].RecordT? && Distinct(names) && |names| == |ts|
    ensures var t, given := decls[typeName], FieldMap(names, ts);
      ResolveStructInit(decls, typeName, names, ts).value == t && forall f :: f in t.fields ==> f in given && ResolveTypes(given[f], t.fields[f])
  {
    hide FieldMap, Distinct, ResolveTypes;
  }

  lemma StructInitGives(shapes: Shapes, decls: Decls, typeName: string, names: seq<string>, ts: seq<Type>, vs: seq<Value>)
    requires AllFormed(shapes, decls) && (forall t :: t in ts ==> Formed(shapes, t)) && AllInhabit(vs, ts)
    requires ResolveStructInit(decls, typeName, names, ts).Typed?
    ensures Inhabits(Struct(FieldMap(names, vs)), ResolveStructInit(decls, typeName, names, ts).value)
  {
    hide FieldMap, Distinct, ResolveTypes, Formed, ResolveStructInit, KnownFields;
    StructInitFits(decls, typeName, names, ts);
    var t := decls[typeName];
    var given := FieldMap(names, ts);
    FieldMapsMatch(names, vs, ts);
    FieldMapRange(names, ts);
    assert Formed(shapes, t);
    forall f | f in t.fields ensures f in FieldMap(names, vs) && Inhabits(FieldMap(names, vs)[f], t.fields[f]) {
      FieldFormed(shapes, t, f);
      ResolveSound(shapes, FieldMap(names, vs)[f], given[f], t.fields[f]);
    }
  }

  lemma {:induction false} FieldMapRange<T>(names: seq<string>, xs: seq<T>)
    ensures forall f :: f in FieldMap(names, xs) ==> FieldMap(names, xs)[f] in xs
    decreases names
  {
    if names != [] && xs != [] {
      FieldMapRange(names[1..], xs[1..]);
    }
  }

  lemma ArrayGives(shapes: Shapes, ts: seq<Type>, vs: seq<Value>)
    requires (forall t :: t in ts ==> Formed(shapes, t)) && AllInhabit(vs, ts) && ResolveArrayList(ts).Typed?
    ensures Inhabits(Arr(vs), ResolveArrayList(ts).value)
  {
    forall i | 0 <= i < |vs| ensures Inhabits(vs[i], ts[0]) {
      if i > 0 {
        assert ts[i] == ts[1..][i - 1];
        ResolveSound(shapes, vs[i], ts[i], ts[0]);
      }
    }
  }

  // ---------------------------------------------------------------- paths

  function StepType(t: Type, s: PathStep): Option<Type> {
    match s
    case ToField(f) => if (t.RecordT? || t.WidthT?) && f in t.fields then Some(t.fields[f]) else None
    case ToIndex(i) => if t.ArrayT? && i.Int? then Some(t.elem) else None
  }

  function PathType(t: Type, steps: seq<PathStep>): Option<Type> {
    if steps == [] then Some(t)
    else
      var next := StepType(t, steps[0]);
      if next.None? then None else PathType(next.value, steps[1..])
  }

  lemma {:induction false} PathTypeAppend(t: Type, a: seq<PathStep>, b: seq<PathStep>)
    requires PathType(t, a).Some?
    ensures PathType(t, a + b) == PathType(PathType(t, a).value, b)
    decreases a
  {
    if a == [] {
      assert a + b == b;
    } else {
      PathTypeAppend(StepType(t, a[0]).value, a[1..], b);
      assert (a + b)[1..] == a[1..] + b;
    }
  }

  lemma {:induction false} ReadGives(v: Value, t: Type, steps: seq<PathStep>)
    requires Inhabits(v, t) && PathType(t, steps).Some?
    ensures Gives(ReadPath(v, steps), PathType(t, steps).value)
    decreases steps
  {
    if steps != [] {
      var r := ReadStep(v, steps[0]);
      if r.Success? {
        ReadGives(r.value, StepType(t, steps[0]).value, steps[1..]);
      }
    }
  }

  /** Storing a value of the type of a path keeps the type of the whole. */
  lemma {:induction false} WriteGives(v: Value, t: Type, steps: seq<PathStep>, leaf: Value)
    requires Inhabits(v, t) && PathType(t, steps).Some? && Inhabits(leaf, PathType(t, steps).value)
    ensures Gives(WritePath(v, steps, leaf), t)
    decreases steps
  {
    if steps != [] {
      var r := ReadStep(v, steps[0]);
      if r.Success? {
        WriteGives(r.value, StepType(t, steps[0]).value, steps[1..], leaf);
      }
    }
  }

  // ---------------------------------------------------------------- expressions

  /** What an expression lemma says. */
  ghost predicate ExprGives(w: World, shapes: Shapes, j: Judged, vars: Vars, fuel: nat) {
    Formed(shapes, j.t) && Gives(Eval(w, j.e, vars, fuel), j.t)
  }

  lemma {:induction false} ExprSound(w: World, shapes: Shapes, decls: Decls, ctx: Context, e: TExpr, vars: Vars, fuel: nat)
    requires Sane(shapes, decls, ctx) && Holds(ctx, vars) && CheckExpr(decls, ctx, e).Typed?
    ensures ExprGives(w, shapes, CheckExpr(decls, ctx, e).value, vars, fuel)
    decreases e, 1
  {
    hide EvalList, EvalIndex, EvalPath, ReadPath, BinValue, UniValue, ResolveBinOp, ResolveUniOp, ResolveStructInit, ResolveAnonInit, ResolveArrayList,
      FieldMap, CheckList, CheckPath, CheckRoot;
    match e {
      case TLit(_) =>
      case TVar(_) =>
      case TBin(op, l, r) =>
        ExprSound(w, shapes, decls, ctx, l, vars, fuel);
        ExprSound(w, shapes, decls, ctx, r, vars, fuel);
        BinSound(w, shapes, decls, ctx, e, vars, fuel);
      case TUni(op, e1) =>
        ExprSound(w, shapes, decls, ctx, e1, vars, fuel);
        UniSound(w, shapes, decls, ctx, e, vars, fuel);
      case TNamedInit(_, _, inits) =>
        ListSound(w, shapes, decls, ctx, inits, vars, fuel);
        NamedInitSound(w, shapes, decls, ctx, e, vars, fuel);
      case TAnonInit(_, inits) =>
        ListSound(w, shapes, decls, ctx, inits, vars, fuel);
        AnonInitSound(w, shapes, decls, ctx, e, vars, fuel);
      case TList(es) =>
        ListSound(w, shapes, decls, ctx, es, vars, fuel);
        ListInitSound(w, shapes, decls, ctx, e, vars, fuel);
      case TFill(e1, _) => ExprSound(w, shapes, decls, ctx, e1, vars, fuel);
      case TIndexing(a, i) =>
        ExprSound(w, shapes, decls, ctx, a, vars, fuel);
        ExprSound(w, shapes, decls, ctx, i, vars, fuel);
        IndexingTyped(w, shapes, decls, ctx, e, vars, fuel);
      case TAccess(root, rootIndex, path) => AccessTyped(w, shapes, decls, ctx, e, vars, fuel);
    }
  }

  lemma BinSound(w: World, shapes: Shapes, decls: Decls, ctx: Context, e: TExpr, vars: Vars, fuel: nat)
    requires e.TBin? && CheckExpr(decls, ctx, e).Typed?
    requires ExprGives(w, shapes, CheckExpr(decls, ctx, e.lhs).value, vars, fuel) && ExprGives(w, shapes, CheckExpr(decls, ctx, e.rhs).value, vars, fuel)
    ensures ExprGives(w, shapes, CheckExpr(decls, ctx, e).value, vars, fuel)
  {
    hide BinValue, Inhabits;
    var a, b := CheckExpr(decls, ctx, e.lhs).value, CheckExpr(decls, ctx, e.rhs).value;
    var x, y := Eval(w, a.e, vars, fuel), Eval(w, b.e, vars, fuel);
    if x.Success? && y.Success? {
      BinGives(w.floats, e.op, a.t, b.t, x.value, y.value);
    }
  }

  lemma UniSound(w: World, shapes: Shapes, decls: Decls, ctx: Context, e: TExpr, vars: Vars, fuel: nat)
    requires e.TUni? && CheckExpr(decls, ctx, e).Typed? && ExprGives(w, shapes, CheckExpr(decls, ctx, e.operand).value, vars, fuel)
    ensures ExprGives(w, shapes, CheckExpr(decls, ctx, e).value, vars, fuel)
  {
    hide UniValue, Inhabits;
    var a := CheckExpr(decls, ctx, e.operand).value;
    var x := Eval(w, a.e, vars, fuel);
    if x.Success? {
      UniGives(w.floats, e.uop, a.t, x.value);
    }
  }

  ghost predicate ListGives(w: World, shapes: Shapes, ts: seq<Type>, es: seq<Expr>, vars: Vars, fuel: nat) {
    && (forall t :: t in ts ==> Formed(shapes, t))
    && var r := EvalList(w, es, vars, fuel); if r.Success? then AllInhabit(r.value, ts) else Benign(r.error)
  }

  lemma {:induction false} ListSound(w: World, shapes: Shapes, decls: Decls, ctx: Context, es: seq<TExpr>, vars: Vars, fuel: nat)
    requires Sane(shapes, decls, ctx) && Holds(ctx, vars) && CheckList(decls, ctx, es).Typed?
    ensures var c := CheckList(decls, ctx, es).value; ListGives(w, shapes, c.0, c.1, vars, fuel)
    decreases es
  {
    hide CheckExpr, Eval, Inhabits, Formed, Sane;
    if es != [] {
      ExprSound(w, shapes, decls, ctx, es[0], vars, fuel);
      ListSound(w, shapes, decls, ctx, es[1..], vars, fuel);
    }
  }

  lemma NamedInitSound(w: World, shapes: Shapes, decls: Decls, ctx: Context, e: TExpr, vars: Vars, fuel: nat)
    requires AllFormed(shapes, decls) && e.TNamedInit? && CheckExpr(decls, ctx, e).Typed?
    requires var c := CheckList(decls, ctx, e.inits).value; ListGives(w, shapes, c.0, c.1, vars, fuel)
    ensures ExprGives(w, shapes, CheckExpr(decls, ctx, e).value, vars, fuel)
  {
    hide CheckList, EvalList, Inhabits, FieldMap, Formed;
    var c := CheckList(decls, ctx, e.inits).value;
    var r := EvalList(w, c.1, vars, fuel);
    if r.Success? {
      StructInitGives(shapes, decls, e.typeName, e.names, c.0, r.value);
    }
  }

  lemma AnonInitSound(w: World, shapes: Shapes, decls: Decls, ctx: Context, e: TExpr, vars: Vars, fuel: nat)
    requires e.TAnonInit? && CheckExpr(decls, ctx, e).Typed?
    requires var c := CheckList(decls, ctx, e.inits).value; ListGives(w, shapes, c.0, c.1, vars, fuel)
    ensures ExprGives(w, shapes, CheckExpr(decls, ctx, e).value, vars, fuel)
  {
    hide CheckList, EvalList, FieldMap, Distinct;
    var c := CheckList(decls, ctx, e.inits).value;
    var r := EvalList(w, c.1, vars, fuel);
    FieldMapRange(e.names, c.0);
    assert CheckExpr(decls, ctx, e).value == Judged(WidthT(FieldMap(e.names, c.0)), StructInit(e.names, c.1));
    if r.Success? {
      FieldMapsMatch(e.names, r.value, c.0);
      assert Inhabits(Struct(FieldMap(e.names, r.value)), WidthT(FieldMap(e.names, c.0)));
    }
  }

  lemma ListInitSound(w: World, shapes: Shapes, decls: Decls, ctx: Context, e: TExpr, vars: Vars, fuel: nat)
    requires e.TList? && CheckExpr(decls, ctx, e).Typed?
    requires var c := CheckList(decls, ctx, e.elems).value; ListGives(w, shapes, c.0, c.1, vars, fuel)
    ensures ExprGives(w, shapes, CheckExpr(decls, ctx, e).value, vars, fuel)
  {
    hide CheckList, EvalList, Inhabits;
    var c := CheckList(decls, ctx, e.elems).value;
    var r := EvalList(w, c.1, vars, fuel);
    assert CheckExpr(decls, ctx, e).value == Judged(ArrayT(c.0[0], |c.0|), ArrayList(c.1));
    assert Formed(shapes, c.0[0]);
    if r.Success? {
      ArrayGives(shapes, c.0, r.value);
    }
  }

  lemma IndexingTyped(w: World, shapes: Shapes, decls: Decls, ctx: Context, e: TExpr, vars: Vars, fuel: nat)
    requires e.TIndexing? && CheckExpr(decls, ctx, e).Typed?
    requires ExprGives(w, shapes, CheckExpr(decls, ctx, e.arr).value, vars, fuel) && ExprGives(w, shapes, CheckExpr(decls, ctx, e.indexer).value, vars, fuel)
    ensures ExprGives(w, shapes, CheckExpr(decls, ctx, e).value, vars, fuel)
  {
    hide ReadPath, PathType;
    var a, b := CheckExpr(decls, ctx, e.arr).value, CheckExpr(decls, ctx, e.indexer).value;
    var x, y := Eval(w, a.e, vars, fuel), Eval(w, b.e, vars, fuel);
    if x.Success? && y.Success? {
      OneStep(a.t, ToIndex(y.value));
      ReadGives(x.value, a.t, [ToIndex(y.value)]);
    }
  }

  lemma OneStep(t: Type, s: PathStep)
    ensures PathType(t, [s]) == StepType(t, s)
  {
    var next := StepType(t, s);
    if next.Some? {
      assert [s][1..] == [];
      assert PathType(next.value, []) == next;
    }
  }

  /** The steps a path evaluates to lead where the checker says. */
  ghost predicate StepsLead(shapes: Shapes, r: Result<seq<PathStep>>, from: Type, to: Type) {
    Formed(shapes, to) && if r.Success? then PathType(from, r.value) == Some(to) else Benign(r.error)
  }

  lemma {:induction false} RootSound(w: World, shapes: Shapes, decls: Decls, ctx: Context, root: string, rootIndex: Option<TExpr>, vars: Vars, fuel: nat)
    requires Sane(shapes, decls, ctx) && Holds(ctx, vars) && CheckRoot(decls, ctx, root, rootIndex).Typed?
    ensures var c := CheckRoot(decls, ctx, root, rootIndex).value; StepsLead(shapes, EvalIndex(w, c.1, vars, fuel), ctx[root], c.0)
    decreases rootIndex
  {
    hide CheckExpr, Eval, PathType;
    match rootIndex {
      case None => assert PathType(ctx[root], []) == Some(ctx[root]) by { EmptyPath(ctx[root]); }
      case Some(e) =>
        ExprSound(w, shapes, decls, ctx, e, vars, fuel);
        var v := Eval(w, CheckExpr(decls, ctx, e).value.e, vars, fuel);
        if v.Success? {
          OneStep(ctx[root], ToIndex(v.value));
        }
    }
  }

  lemma EmptyPath(t: Type)
    ensures PathType(t, []) == Some(t)
  {
  }

  lemma {:induction false} PathSound(w: World, shapes: Shapes, decls: Decls, ctx: Context, t: Type, path: seq<TSeg>, vars: Vars, fuel: nat)
    requires Sane(shapes, decls, ctx) && Holds(ctx, vars) && CheckPath(decls, ctx, t, path).Typed? && Formed(shapes, t)
    ensures var c := CheckPath(decls, ctx, t, path).value; StepsLead(shapes, EvalPath(w, c.1, vars, fuel), t, c.0)
    decreases path
  {
    hide CheckExpr, Eval, Sane, Holds;
    if path != [] {
      var t1 := FieldOf(t, path[0].name).value;
      if path[0].IndexSeg? {
        ExprSound(w, shapes, decls, ctx, path[0].index, vars, fuel);
        PathSound(w, shapes, decls, ctx, t1.elem, path[1..], vars, fuel);
        var i := CheckExpr(decls, ctx, path[0].index).value;
        var v := Eval(w, i.e, vars, fuel);
        if v.Success? {
          var rest := CheckPath(decls, ctx, t1.elem, path[1..]).value;
          var r := EvalPath(w, rest.1, vars, fuel);
          if r.Success? {
            IndexedStep(t, path[0].name, v.value, r.value);
          }
        }
      } else {
        PathSound(w, shapes, decls, ctx, t1, path[1..], vars, fuel);
        var rest := CheckPath(decls, ctx, t1, path[1..]).value;
        var r := EvalPath(w, rest.1, vars, fuel);
        if r.Success? {
          assert ([ToField(path[0].name)] + r.value)[1..] == r.value;
        }
      }
    }
  }

  lemma IndexedStep(t: Type, f: string, i: Value, steps: seq<PathStep>)
    requires FieldOf(t, f).Typed? && FieldOf(t, f).value.ArrayT? && i.Int?
    ensures PathType(t, [ToField(f), ToIndex(i)] + steps) == PathType(FieldOf(t, f).value.elem, steps)
  {
    var all := [ToField(f), ToIndex(i)] + steps;
    assert all[1..] == [ToIndex(i)] + steps;
    assert all[1..][1..] == steps;
  }

  lemma {:induction false} AccessTyped(w: World, shapes: Shapes, decls: Decls, ctx: Context, e: TExpr, vars: Vars, fuel: nat)
    requires Sane(shapes, decls, ctx) && Holds(ctx, vars) && e.TAccess? && CheckExpr(decls, ctx, e).Typed?
    ensures ExprGives(w, shapes, CheckExpr(decls, ctx, e).value, vars, fuel)
    decreases e, 0
  {
    hide CheckPath, EvalPath, EvalIndex, ReadPath, PathType, Formed, Inhabits;
    RootSound(w, shapes, decls, ctx, e.root, e.rootIndex, vars, fuel);
    var a := CheckRoot(decls, ctx, e.root, e.rootIndex).value;
    PathSound(w, shapes, decls, ctx, a.0, e.path, vars, fuel);
    var p := CheckPath(decls, ctx, a.0, e.path).value;
    var s0, s1 := EvalIndex(w, a.1, vars, fuel), EvalPath(w, p.1, vars, fuel);
    if s0.Success? && s1.Success? {
      PathTypeAppend(ctx[e.root], s0.value, s1.value);
      ReadGives(vars[User(e.root)], ctx[e.root], s0.value + s1.value);
    }
  }

  // ---------------------------------------------------------------- statements

  /** Annotated types are well formed. */
  predicate Annotated(shapes: Shapes, stmts: seq<TStmt>)
    decreases stmts
  {
    stmts == [] || (StmtAnnotated(shapes, stmts[0]) && Annotated(shapes, stmts[1..]))
  }

  predicate StmtAnnotated(shapes: Shapes, s: TStmt)
    decreases s
  {
    match s
    case TLocal(_, annotation, _) => annotation.None? || Formed(shapes, annotation.value)
    case TWhile(_, body) => Annotated(shapes, body)
    case TIf(_, body, rest) => Annotated(shapes, body) && ArmsAnnotated(shapes, rest)
    case _ => true
  }

  predicate ArmsAnnotated(shapes: Shapes, a: TArms)
    decreases a
  {
    match a
    case TNoMore => true
    case TDefault(b) => Annotated(shapes, b)
    case TElif(_, b, rest) => Annotated(shapes, b) && ArmsAnnotated(shapes, rest)
  }

  /** A flow out of typed statements. */
  ghost predicate FlowTyped(flow: Flow, behind: Context, outer: Context, ret: Type) {
    match flow
    case Next(vars) => Holds(behind, vars)
    case Broke(vars) => Holds(outer, vars)
    case Continued(vars) => Holds(outer, vars)
    case Returned(v) => Inhabits(v, ret)
    case Stopped(f) => Benign(f) || f == OutOfFuel
  }

  predicate Inside(outer: Context, ctx: Context) {
    forall x :: x in outer ==> x in ctx && ctx[x] == outer[x]
  }

  lemma HoldsInside(outer: Context, ctx: Context, vars: Vars)
    requires Inside(outer, ctx) && Holds(ctx, vars)
    ensures Holds(outer, vars)
  {
  }

  /** What the statement lemmas share. */
  datatype Setting = Setting(w: World, shapes: Shapes, decls: Decls, ret: Type) {
    predicate Ok() { AllFormed(shapes, decls) && Formed(shapes, ret) }
  }

  lemma {:induction false} BlockTyped(g: Setting, outer: Context, ctx: Context, stmts: seq<TStmt>, vars: Vars, fuel: nat)
    requires g.Ok() && AllFormed(g.shapes, ctx) && Holds(ctx, vars) && Annotated(g.shapes, stmts)
    requires CheckBlock(g.decls, g.ret, ctx, stmts).Typed?
    requires Inside(outer, ctx) && NoShadowing(CheckBlock(g.decls, g.ret, ctx, stmts).value.0, outer.Keys, ctx.Keys)
    ensures var c := CheckBlock(g.decls, g.ret, ctx, stmts).value;
      Inside(outer, c.1) && FlowTyped(ExecBlock(g.w, c.0, vars, fuel), c.1, outer, g.ret)
    decreases fuel, stmts, 0
  {
    hide CheckStmt, ExecStmt, Holds, AllFormed, StmtAnnotated, StmtNoShadowing, Inside;
    if stmts != [] {
      var a := CheckStmt(g.decls, g.ret, ctx, stmts[0]).value;
      StmtTyped(g, ctx, outer.Keys, stmts[0], vars, fuel);
      ContextBehind(g, outer, ctx, stmts[0]);
      var flow := ExecStmt(g.w, a.0, vars, fuel);
      if flow.Next? {
        BlockTyped(g, outer, a.1, stmts[1..], flow.vars, fuel);
      } else {
        if flow.Broke? || flow.Continued? {
          HoldsInside(outer, ctx, flow.vars);
        }
        RestInside(g, outer, a.1, stmts[1..]);
      }
    }
  }

  lemma ContextBehind(g: Setting, outer: Context, ctx: Context, s: TStmt)
    requires g.Ok() && AllFormed(g.shapes, ctx) && StmtAnnotated(g.shapes, s) && CheckStmt(g.decls, g.ret, ctx, s).Typed?
    requires Inside(outer, ctx) && StmtNoShadowing(CheckStmt(g.decls, g.ret, ctx, s).value.0, outer.Keys, ctx.Keys)
    ensures var c := CheckStmt(g.decls, g.ret, ctx, s).value;
      && Inside(outer, c.1) && AllFormed(g.shapes, c.1)
      && c.1.Keys == if c.0.Local? then ctx.Keys + {c.0.name} else ctx.Keys
  {
    hide CheckExpr, CheckBlock, CheckArms, CheckRoot, CheckPath, NoShadowing, ArmsNoShadowing, ResolveTypes;
    if s.TLocal? {
      ExprFormed(g.shapes, g.decls, ctx, s.init);
    }
  }

  lemma {:induction false} RestInside(g: Setting, outer: Context, ctx: Context, stmts: seq<TStmt>)
    requires g.Ok() && AllFormed(g.shapes, ctx) && Annotated(g.shapes, stmts) && CheckBlock(g.decls, g.ret, ctx, stmts).Typed?
    requires Inside(outer, ctx) && NoShadowing(CheckBlock(g.decls, g.ret, ctx, stmts).value.0, outer.Keys, ctx.Keys)
    ensures Inside(outer, CheckBlock(g.decls, g.ret, ctx, stmts).value.1)
    decreases stmts
  {
    hide CheckStmt, AllFormed, StmtAnnotated, StmtNoShadowing, Inside;
    if stmts != [] {
      ContextBehind(g, outer, ctx, stmts[0]);
      RestInside(g, outer, CheckStmt(g.decls, g.ret, ctx, stmts[0]).value.1, stmts[1..]);
    }
  }

  lemma {:induction false} ExprFormed(shapes: Shapes, decls: Decls, ctx: Context, e: TExpr)
    requires Sane(shapes, decls, ctx) && CheckExpr(decls, ctx, e).Typed?
    ensures Formed(shapes, CheckExpr(decls, ctx, e).value.t)
    decreases e
  {
    hide CheckList, CheckPath, CheckRoot, FieldMap, ResolveTypes, Distinct;
    match e {
      case TLit(_) =>
      case TVar(_) =>
      case TBin(_, l, r) =>
      case TUni(_, e1) => ExprFormed(shapes, decls, ctx, e1);
      case TNamedInit(_, _, _) =>
      case TAnonInit(names, inits) =>
        ListFormed(shapes, decls, ctx, inits);
        FieldMapRange(names, CheckList(decls, ctx, inits).value.0);
      case TList(es) => ListFormed(shapes, decls, ctx, es);
      case TFill(e1, _) => ExprFormed(shapes, decls, ctx, e1);
      case TIndexing(a, _) => ExprFormed(shapes, decls, ctx, a);
      case TAccess(root, rootIndex, path) =>
        RootFormed(shapes, decls, ctx, root, rootIndex);
        PathFormed(shapes, decls, ctx, CheckRoot(decls, ctx, root, rootIndex).value.0, path);
    }
  }

  lemma RootFormed(shapes: Shapes, decls: Decls, ctx: Context, root: string, rootIndex: Option<TExpr>)
    requires AllFormed(shapes, ctx) && CheckRoot(decls, ctx, root, rootIndex).Typed?
    ensures Formed(shapes, CheckRoot(decls, ctx, root, rootIndex).value.0) && root in ctx
  {
    hide CheckExpr;
  }

  lemma {:induction false} ListFormed(shapes: Shapes, decls: Decls, ctx: Context, es: seq<TExpr>)
    requires Sane(shapes, decls, ctx) && CheckList(decls, ctx, es).Typed?
    ensures forall t :: t in CheckList(decls, ctx, es).value.0 ==> Formed(shapes, t)
    decreases es
  {
    hide CheckExpr, Formed, Sane;
    if es != [] {
      ExprFormed(shapes, decls, ctx, es[0]);
      ListFormed(shapes, decls, ctx, es[1..]);
    }
  }

  lemma {:induction false} PathFormed(shapes: Shapes, decls: Decls, ctx: Context, t: Type, path: seq<TSeg>)
    requires CheckPath(decls, ctx, t, path).Typed? && Formed(shapes, t)
    ensures Formed(shapes, CheckPath(decls, ctx, t, path).value.0)
    decreases path
  {
    hide CheckExpr;
    if path != [] {
      var t1 := FieldOf(t, path[0].name).value;
      PathFormed(shapes, decls, ctx, if path[0].FieldSeg? then t1 else t1.elem, path[1..]);
    }
  }

  lemma {:induction false} StmtTyped(g: Setting, ctx: Context, outer: set<string>, s: TStmt, vars: Vars, fuel: nat)
    requires g.Ok() && AllFormed(g.shapes, ctx) && Holds(ctx, vars) && StmtAnnotated(g.shapes, s)
    requires CheckStmt(g.decls, g.ret, ctx, s).Typed? && StmtNoShadowing(CheckStmt(g.decls, g.ret, ctx, s).value.0, outer, ctx.Keys)
    ensures var c := CheckStmt(g.decls, g.ret, ctx, s).value; FlowTyped(ExecStmt(g.w, c.0, vars, fuel), c.1, ctx, g.ret)
    decreases fuel, s, 1
  {
    hide CheckExpr, CheckBlock, CheckArms, CheckPath, CheckRoot, CheckCondition, Eval, ExecBlock, ExecArms, ExecWhile, EvalCondition, NoShadowing,
      ArmsNoShadowing, AssignVars, EvalIndex, EvalPath, Annotated, ArmsAnnotated, Formed, ResolveTypes, Inhabits;
    match s {
      case TExprStmt(e) => ExprSound(g.w, g.shapes, g.decls, ctx, e, vars, fuel);
      case TLocal(_, annotation, init) =>
        ExprFormed(g.shapes, g.decls, ctx, init);
        var t := if annotation.Some? then annotation.value else CheckExpr(g.decls, ctx, init).value.t;
        ValueTyped(g, ctx, init, t, vars, fuel);
      case TAssign(_, _, _, _) => AssignTyped(g, ctx, s, vars, fuel);
      case TReturn(None) =>
        UnitInhabits(g.shapes);
        ResolveSound(g.shapes, Unit, UnitT, g.ret);
      case TReturn(Some(e)) => ValueTyped(g, ctx, e, g.ret, vars, fuel);
      case TBreak =>
      case TContinue =>
      case TWhile(cond, body) => LoopTyped(g, ctx, cond, body, vars, fuel);
      case TIf(cond, body, rest) =>
        ConditionTyped(g, ctx, cond, vars, fuel);
        InnerTyped(g, ctx, body, vars, fuel);
        ArmsTyped(g, ctx, rest, vars, fuel);
    }
  }

  lemma UnitInhabits(shapes: Shapes)
    ensures Inhabits(Unit, UnitT) && Formed(shapes, UnitT)
  {
  }

  /** An expression whose type meets a constraint gives a value of the constraint. */
  lemma ValueTyped(g: Setting, ctx: Context, e: TExpr, t: Type, vars: Vars, fuel: nat)
    requires g.Ok() && AllFormed(g.shapes, ctx) && Holds(ctx, vars) && CheckExpr(g.decls, ctx, e).Typed? && Formed(g.shapes, t)
    requires t == CheckExpr(g.decls, ctx, e).value.t || ResolveTypes(CheckExpr(g.decls, ctx, e).value.t, t)
    ensures Gives(Eval(g.w, CheckExpr(g.decls, ctx, e).value.e, vars, fuel), t)
  {
    hide CheckExpr, Eval, Formed, ResolveTypes, Inhabits;
    ExprSound(g.w, g.shapes, g.decls, ctx, e, vars, fuel);
    var j := CheckExpr(g.decls, ctx, e).value;
    var r := Eval(g.w, j.e, vars, fuel);
    if r.Success? && t != j.t {
      ResolveSound(g.shapes, r.value, j.t, t);
    }
  }

  lemma ConditionTyped(g: Setting, ctx: Context, cond: TExpr, vars: Vars, fuel: nat)
    requires g.Ok() && AllFormed(g.shapes, ctx) && Holds(ctx, vars) && CheckCondition(g.decls, ctx, cond).Typed?
    ensures var r := EvalCondition(g.w, CheckCondition(g.decls, ctx, cond).value, vars, fuel); r.Failure? ==> Benign(r.error)
  {
    hide CheckExpr, Eval, Holds, AllFormed;
    ValueTyped(g, ctx, cond, BoolT, vars, fuel);
  }

  lemma {:induction false} InnerTyped(g: Setting, ctx: Context, body: seq<TStmt>, vars: Vars, fuel: nat)
    requires g.Ok() && AllFormed(g.shapes, ctx) && Holds(ctx, vars) && Annotated(g.shapes, body)
    requires CheckBlock(g.decls, g.ret, ctx, body).Typed? && NoShadowing(CheckBlock(g.decls, g.ret, ctx, body).value.0, ctx.Keys, ctx.Keys)
    ensures FlowTyped(ExecBlock(g.w, CheckBlock(g.decls, g.ret, ctx, body).value.0, vars, fuel), ctx, ctx, g.ret)
    decreases fuel, body, 1
  {
    hide CheckBlock, ExecBlock, NoShadowing, Annotated, Holds, Inhabits;
    BlockTyped(g, ctx, ctx, body, vars, fuel);
    var c := CheckBlock(g.decls, g.ret, ctx, body).value;
    var flow := ExecBlock(g.w, c.0, vars, fuel);
    if flow.Next? {
      HoldsInside(ctx, c.1, flow.vars);
    }
  }

  lemma {:induction false} ArmsTyped(g: Setting, ctx: Context, a: TArms, vars: Vars, fuel: nat)
    requires g.Ok() && AllFormed(g.shapes, ctx) && Holds(ctx, vars) && ArmsAnnotated(g.shapes, a)
    requires CheckArms(g.decls, g.ret, ctx, a).Typed? && ArmsNoShadowing(CheckArms(g.decls, g.ret, ctx, a).value, ctx.Keys)
    ensures FlowTyped(ExecArms(g.w, CheckArms(g.decls, g.ret, ctx, a).value, vars, fuel), ctx, ctx, g.ret)
    decreases fuel, a, 0
  {
    hide CheckBlock, CheckCondition, ExecBlock, EvalCondition, NoShadowing, Annotated, Holds, AllFormed, Inhabits;
    match a {
      case TNoMore =>
      case TDefault(b) => InnerTyped(g, ctx, b, vars, fuel);
      case TElif(cond, b, rest) =>
        ConditionTyped(g, ctx, cond, vars, fuel);
        InnerTyped(g, ctx, b, vars, fuel);
        ArmsTyped(g, ctx, rest, vars, fuel);
    }
  }

  lemma {:induction false} LoopTyped(g: Setting, ctx: Context, cond: TExpr, body: seq<TStmt>, vars: Vars, fuel: nat)
    requires g.Ok() && AllFormed(g.shapes, ctx) && Holds(ctx, vars) && Annotated(g.shapes, body)
    requires CheckCondition(g.decls, ctx, cond).Typed? && CheckBlock(g.decls, g.ret, ctx, body).Typed?
    requires NoShadowing(CheckBlock(g.decls, g.ret, ctx, body).value.0, ctx.Keys, ctx.Keys)
    ensures var c, b := CheckCondition(g.decls, ctx, cond).value, CheckBlock(g.decls, g.ret, ctx, body).value.0;
      FlowTyped(ExecWhile(g.w, c, b, vars, fuel), ctx, ctx, g.ret)
    decreases fuel, body, 2
  {
    hide CheckBlock, CheckCondition, ExecBlock, EvalCondition, NoShadowing, Annotated, Holds, AllFormed, Inhabits;
    ConditionTyped(g, ctx, cond, vars, fuel);
    InnerTyped(g, ctx, body, vars, fuel);
    var flow := ExecBlock(g.w, CheckBlock(g.decls, g.ret, ctx, body).value.0, vars, fuel);
    if (flow.Next? || flow.Continued?) && fuel > 0 {
      LoopTyped(g, ctx, cond, body, flow.vars, fuel - 1);
    }
  }

  lemma AssignTyped(g: Setting, ctx: Context, s: TStmt, vars: Vars, fuel: nat)
    requires g.Ok() && AllFormed(g.shapes, ctx) && Holds(ctx, vars) && s.TAssign? && CheckStmt(g.decls, g.ret, ctx, s).Typed?
    ensures FlowTyped(ExecStmt(g.w, CheckStmt(g.decls, g.ret, ctx, s).value.0, vars, fuel), ctx, ctx, g.ret)
  {
    hide CheckExpr, CheckPath, CheckRoot, Eval, EvalIndex, EvalPath, AssignVars, PathType, Formed, Inhabits, ResolveTypes, AllFormed, Holds;
    var b := CheckRoot(g.decls, ctx, s.root, s.rootIndex).value;
    RootSound(g.w, g.shapes, g.decls, ctx, s.root, s.rootIndex, vars, fuel);
    RootFormed(g.shapes, g.decls, ctx, s.root, s.rootIndex);
    PathSound(g.w, g.shapes, g.decls, ctx, b.0, s.path, vars, fuel);
    var p := CheckPath(g.decls, ctx, b.0, s.path).value;
    ValueTyped(g, ctx, s.value, p.0, vars, fuel);
    var v := Eval(g.w, CheckExpr(g.decls, ctx, s.value).value.e, vars, fuel);
    var s0, s1 := EvalIndex(g.w, b.1, vars, fuel), EvalPath(g.w, p.1, vars, fuel);
    if v.Success? && s0.Success? && s1.Success? {
      PathTypeAppend(ctx[s.root], s0.value, s1.value);
      StoreTyped(g, ctx, s.root, s0.value + s1.value, v.value, vars);
    }
  }

  lemma StoreTyped(g: Setting, ctx: Context, root: string, steps: seq<PathStep>, v: Value, vars: Vars)
    requires Holds(ctx, vars) && root in ctx && PathType(ctx[root], steps).Some? && Inhabits(v, PathType(ctx[root], steps).value)
    ensures FlowTyped(AssignVars(vars, root, steps, v), ctx, ctx, g.ret)
  {
    hide Inhabits, WritePath;
    WriteGives(vars[User(root)], ctx[root], steps, v);
    if steps == [] {
      EmptyPath(ctx[root]);
    }
  }

  // ---------------------------------------------------------------- functions

  /** A function the checker accepts, with everything the front end requires of a body besides. */
  ghost predicate Accepted(shapes: Shapes, decls: Decls, f: TFn) {
    && AllFormed(shapes, decls) && Formed(shapes, f.ret) && Annotated(shapes, f.body)
    && |f.params| == |f.paramTypes| && (forall t :: t in f.paramTypes ==> Formed(shapes, t))
    && CheckFn(decls, f).Typed?
    && var d := CheckFn(decls, f).value;
       && NoShadowing(d.body, {}, ParamContext(map[], f.params, f.paramTypes).Keys)
       && JumpsInLoops(d.body, false) && (d.returnsUnit || Returns(d.body))
  }

  lemma {:induction false} ParamsHold(shapes: Shapes, ctx: Context, params: seq<string>, types: seq<Type>, args: seq<Value>, vars: Vars)
    requires |params| == |types| && AllInhabit(args, types) && Holds(ctx, vars)
    requires AllFormed(shapes, ctx) && forall t :: t in types ==> Formed(shapes, t)
    ensures var behind := ParamContext(ctx, params, types); Holds(behind, Machine.BindParams(vars, params, args)) && AllFormed(shapes, behind)
    decreases params
  {
    hide Inhabits, Formed;
    if params != [] {
      ParamsHold(shapes, ctx[params[0] := types[0]], params[1..], types[1..], args[1..], vars[User(params[0]) := args[0]]);
    }
  }

  /** A typed call gives a value of the result type, or a benign fault. */
  lemma FnTyped(w: World, shapes: Shapes, decls: Decls, f: TFn, id: FnId, args: seq<Value>, fuel: nat)
    requires Accepted(shapes, decls, f) && id in w.fns && id !in w.builtins && w.fns[id] == CheckFn(decls, f).value
    requires AllInhabit(args, f.paramTypes)
    ensures var r := CallFn(w, id, args, fuel); Gives(r, f.ret) || r == Failure(OutOfFuel)
  {
    hide ExecBlock, CheckBlock, NoShadowing, Annotated, Returns, JumpsInLoops, Inhabits, Machine.BindParams, ParamContext, Evaluator.ModuleVars, Formed;
    if fuel > 0 {
      var d := w.fns[id];
      var top: Context := map[];
      assert top.Keys == {};
      var vars0 := Evaluator.ModuleVars(w);
      assert Holds(top, vars0) && AllFormed(shapes, top);
      ParamsHold(shapes, top, f.params, f.paramTypes, args, vars0);
      var ctx := ParamContext(top, f.params, f.paramTypes);
      var vars := Machine.BindParams(vars0, f.params, args);
      BlockTyped(Setting(w, shapes, decls, f.ret), top, ctx, f.body, vars, fuel - 1);
      NoWayOut(w, d.body, vars, fuel - 1);
      if d.returnsUnit {
        UnitInhabits(shapes);
      } else {
        NoWayThrough(w, d.body, vars, fuel - 1);
      }
    }
  }

  /** The bytecode of a typed function: whatever it runs into is benign, and what it returns has the result type. */
  lemma TypedCodeRuns(w: World, shapes: Shapes, decls: Decls, f: TFn, id: FnId, args: seq<Value>, k: nat)
    requires Compilable(w)
    requires Accepted(shapes, decls, f) && id in w.fns && id !in w.builtins && w.fns[id] == CheckFn(decls, f).value
    requires AllInhabit(args, f.paramTypes)
    ensures var o := RunFrom(CompileWorld(w), id, args, k);
      (o.Finished? ==> Inhabits(o.value, f.ret)) && (o.Faulted? ==> Benign(o.fault))
  {
    hide Compilable, CompileWorld, RunFrom, CallFn, Accepted, AllInhabit, Inhabits, CheckFn;
    var fuel := ExecutorToEvaluator(w, id, args, k);
    FnTyped(w, shapes, decls, f, id, args, fuel);
  }

  /** `let x = 1; if true { let x = true; } return x + 1;` */
  function Confusing(): seq<TStmt> {
    [TLocal("x", None, TLit(LInt(1)))]
      + ([TIf(TLit(LBool(true)), [TLocal("x", None, TLit(LBool(true)))], TNoMore)]
         + [TReturn(Some(TBin(Arith(Add), TVar("x"), TLit(LInt(1)))))])
  }

  /** Without the condition on shadowing types do not save a program: this one is accepted, with result type int, and
      adds to a boolean. */
  lemma ShadowingConfuses(w: World, vars: Vars, fuel: nat)
    ensures var b := CheckBlock(map[], IntT, map[], Confusing());
      && b.Typed? && !NoShadowing(b.value.0, {}, {})
      && ExecBlock(w, b.value.0, vars, fuel) == Stopped(ExpectedInt)
  {
    hide ExecBlock, NoShadowing, CheckBlock;
    var one, yes, sum := Lit(LInt(1)), Lit(LBool(true)), Bin(Arith(Add), IntType, Var("x"), Lit(LInt(1)));
    var first, again := TLocal("x", None, TLit(LInt(1))), TLocal("x", None, TLit(LBool(true)));
    var last := TReturn(Some(TBin(Arith(Add), TVar("x"), TLit(LInt(1)))));
    var ctx: Context := map["x" := IntT];
    assert ctx["x" := BoolT] == map["x" := BoolT];
    assert CheckStmt(map[], IntT, ctx, again) == Typed((Local("x", yes), map["x" := BoolT]));
    assert CheckBlock(map[], IntT, map["x" := BoolT], []) == Typed(([], map["x" := BoolT])) && CheckBlock(map[], IntT, ctx, []) == Typed(([], ctx)) by {
      NothingChecked(map["x" := BoolT]);
      NothingChecked(ctx);
    }
    CheckCons(map[], IntT, ctx, again, []);
    assert [again] + [] == [again] && [Local("x", yes)] + [] == [Local("x", yes)];
    var branch := TIf(TLit(LBool(true)), [again], TNoMore);
    assert CheckStmt(map[], IntT, ctx, branch) == Typed((If(yes, [Local("x", yes)], NoMore), ctx));
    assert CheckStmt(map[], IntT, ctx, last) == Typed((Stmt.Return(Some(sum)), ctx)) by {
      SumTyped(ctx);
    }
    CheckCons(map[], IntT, ctx, last, []);
    assert [last] + [] == [last] && [Stmt.Return(Some(sum))] + [] == [Stmt.Return(Some(sum))];
    CheckCons(map[], IntT, ctx, branch, [last]);
    assert CheckStmt(map[], IntT, map[], first) == Typed((Local("x", one), ctx));
    CheckCons(map[], IntT, map[], first, [branch] + [last]);
    ConfusedRun(w, vars, fuel);
    ConfusedShadows(sum);
  }

  lemma ConfusedShadows(sum: Expr)
    ensures var yes := Lit(LBool(true));
      !NoShadowing([Local("x", Lit(LInt(1)))] + ([If(yes, [Local("x", yes)], NoMore)] + [Stmt.Return(Some(sum))]), {}, {})
  {
    var inner, visible := [Local("x", Lit(LBool(true)))], {} + {"x"};
    var rest := [If(Lit(LBool(true)), inner, NoMore)] + [Stmt.Return(Some(sum))];
    assert !NoShadowing(inner, visible, visible);
    assert !NoShadowing(rest, {}, visible);
    assert ([Local("x", Lit(LInt(1)))] + rest)[1..] == rest;
  }

  lemma NothingChecked(ctx: Context)
    ensures CheckBlock(map[], IntT, ctx, []) == Typed(([], ctx))
  {
  }

  lemma SumTyped(ctx: Context)
    requires "x" in ctx && ctx["x"] == IntT
    ensures CheckExpr(map[], ctx, TBin(Arith(Add), TVar("x"), TLit(LInt(1))))
         == Typed(Judged(IntT, Bin(Arith(Add), IntType, Var("x"), Lit(LInt(1)))))
  {
    assert CheckExpr(map[], ctx, TVar("x")) == Typed(Judged(IntT, Var("x")));
    assert CheckExpr(map[], ctx, TLit(LInt(1))) == Typed(Judged(IntT, Lit(LInt(1))));
  }

  lemma ConfusedRun(w: World, vars: Vars, fuel: nat)
    ensures var yes, sum := Lit(LBool(true)), Bin(Arith(Add), IntType, Var("x"), Lit(LInt(1)));
      ExecBlock(w, [Local("x", Lit(LInt(1)))] + ([If(yes, [Local("x", yes)], NoMore)] + [Stmt.Return(Some(sum))]), vars, fuel)
        == Stopped(ExpectedInt)
  {
    var yes, one, sum := Lit(LBool(true)), Lit(LInt(1)), Bin(Arith(Add), IntType, Var("x"), Lit(LInt(1)));
    var inner, last := Local("x", yes), Stmt.Return(Some(sum));
    var v1 := vars[User("x") := Int(1)];
    var v2 := v1[User("x") := Bool(true)];
    LitEvals(w, one, vars, fuel);
    LitEvals(w, yes, v1, fuel);
    LitEvals(w, one, v2, fuel);
    ExecCons(w, inner, [], v1, fuel);
    assert [inner] + [] == [inner];
    assert ExecBlock(w, [inner], v1, fuel) == Next(v2);
    assert ExecStmt(w, If(yes, [inner], NoMore), v1, fuel) == Next(v2);
    assert Eval(w, Var("x"), v2, fuel) == Success(Bool(true));
    assert Eval(w, sum, v2, fuel) == Failure(ExpectedInt);
    ExecCons(w, Local("x", one), [If(yes, [inner], NoMore)] + [last], vars, fuel);
    ExecCons(w, If(yes, [inner], NoMore), [last], v1, fuel);
    ExecCons(w, last, [], v2, fuel);
    assert [last] + [] == [last];
  }
}
