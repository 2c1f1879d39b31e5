/** Which expressions have which type, as rules; the checker accepts exactly these, with exactly that type. */
module TypingRules {
  import opened Values
  import opened Syntax
  import opened Types
  import opened TypeChecker
  import opened ValueLaws

  /** Every expression in the list has the type in its place. */
  ghost predicate HaveTypes(decls: Decls, ctx: Context, es: seq<TExpr>, ts: seq<Type>)
    decreases es
  {
    |es| == |ts| && (es != [] ==> HasType(decls, ctx, es[0], ts[0]) && HaveTypes(decls, ctx, es[1..], ts[1..]))
  }

  ghost predicate SameNames(names: seq<string>, fields: map<string, Type>) {
    Distinct(names) && forall f :: f in names <==> f in fields
  }

  /** Initializers of these types fit these fields. */
  predicate Fit(names: seq<string>, ts: seq<Type>, fields: map<string, Type>) {
    |names| == |ts| && forall i :: 0 <= i < |ts| ==> names[i] in fields && ResolveTypes(ts[i], fields[names[i]])
  }

  /** Initializers of exactly these types. */
  predicate Are(names: seq<string>, ts: seq<Type>, fields: map<string, Type>) {
    |names| == |ts| && forall i :: 0 <= i < |ts| ==> names[i] in fields && ts[i] == fields[names[i]]
  }

  predicate AllResolve(ts: seq<Type>, t: Type) { forall i :: 0 <= i < |ts| ==> ResolveTypes(ts[i], t) }

  /** A field of this type is there. */
  predicate HasField(t: Type, f: string, inner: Type) { (t.RecordT? || t.WidthT?) && f in t.fields && t.fields[f] == inner }

  ghost predicate OperatorHasType(decls: Decls, ctx: Context, e: TExpr, t: Type)
    requires e.TBin?
    decreases e, 0
  {
    match e.op
    case Arith(_) => t in {IntT, FloatT} && HasType(decls, ctx, e.lhs, t) && HasType(decls, ctx, e.rhs, t)
    case Compare(_) =>
      t == BoolT
      && ((HasType(decls, ctx, e.lhs, IntT) && HasType(decls, ctx, e.rhs, IntT))
          || (HasType(decls, ctx, e.lhs, FloatT) && HasType(decls, ctx, e.rhs, FloatT)))
    case LogicalAnd => t == BoolT && HasType(decls, ctx, e.lhs, BoolT) && HasType(decls, ctx, e.rhs, BoolT)
    case LogicalOr => t == BoolT && HasType(decls, ctx, e.lhs, BoolT) && HasType(decls, ctx, e.rhs, BoolT)
    case Eq => t == BoolT && exists a, b :: HasType(decls, ctx, e.lhs, a) && HasType(decls, ctx, e.rhs, b) && ResolveTypes(a, b)
    case InEq => t == BoolT && exists a, b :: HasType(decls, ctx, e.lhs, a) && HasType(decls, ctx, e.rhs, b) && ResolveTypes(a, b)
  }

  ghost predicate HasType(decls: Decls, ctx: Context, e: TExpr, t: Type)
    decreases e, 1
  {
    match e
    case TLit(LInt(_)) => t == IntT
    case TLit(LFloat(_)) => t == FloatT
    case TLit(LBool(_)) => t == BoolT
    case TLit(LString(_)) => t == StringT
    case TVar(x) => x in ctx && t == ctx[x]
    case TBin(_, _, _) => OperatorHasType(decls, ctx, e, t)
    case TUni(Negate, e1) => t in {IntT, FloatT} && HasType(decls, ctx, e1, t)
    case TUni(LogicalInvert, e1) => t == BoolT && HasType(decls, ctx, e1, BoolT)
    case TNamedInit(name, names, inits) =>
      name in decls && t == decls[name] && t.RecordT? && SameNames(names, t.fields)
      && exists ts :: HaveTypes(decls, ctx, inits, ts) && Fit(names, ts, t.fields)
    case TAnonInit(names, inits) =>
      t.WidthT? && SameNames(names, t.fields) && exists ts :: HaveTypes(decls, ctx, inits, ts) && Are(names, ts, t.fields)
    case TList(es) =>
      t.ArrayT? && t.size == |es| > 0 && exists ts :: HaveTypes(decls, ctx, es, ts) && ts[0] == t.elem && AllResolve(ts, t.elem)
    case TFill(e1, size) => t.ArrayT? && t.size == size && HasType(decls, ctx, e1, t.elem)
    case TIndexing(a, i) => HasType(decls, ctx, i, IntT) && exists n :: HasType(decls, ctx, a, ArrayT(t, n))
    case TAccess(root, rootIndex, path) => exists start :: RootHasType(decls, ctx, root, rootIndex, start) && PathHasType(decls, ctx, start, path, t)
  }

  ghost predicate RootHasType(decls: Decls, ctx: Context, root: string, rootIndex: Option<TExpr>, t: Type)
    decreases rootIndex
  {
    root in ctx
    && match rootIndex {
         case None => t == ctx[root]
         case Some(e) => HasType(decls, ctx, e, IntT) && ctx[root].ArrayT? && ctx[root].elem == t
       }
  }

  /** A path from one type to another. */
  ghost predicate PathHasType(decls: Decls, ctx: Context, from: Type, path: seq<TSeg>, to: Type)
    decreases path
  {
    if path == [] then from == to
    else match path[0] {
      case FieldSeg(f) => exists t :: HasField(from, f, t) && PathHasType(decls, ctx, t, path[1..], to)
      case IndexSeg(f, e) =>
        HasType(decls, ctx, e, IntT) && exists t, n :: HasField(from, f, ArrayT(t, n)) && PathHasType(decls, ctx, t, path[1..], to)
    }
  }

  // ---------------------------------------------------------------- the checker follows the rules

  /** What the checker says of an expression, as a type or none. */
  function TypeOf(decls: Decls, ctx: Context, e: TExpr): Option<Type> {
    var c := CheckExpr(decls, ctx, e);
    if c.Typed? then Some(c.value.t) else None
  }

  /** The checker accepts an expression if and only if it has a type, and gives it that one; so there is only one. */
  lemma {:induction false} CheckerIsExact(decls: Decls, ctx: Context, e: TExpr, t: Type)
    ensures TypeOf(decls, ctx, e) == Some(t) <==> HasType(decls, ctx, e, t)
    decreases e, 1
  {
    hide CheckList, CheckPath, CheckRoot, HaveTypes, RootHasType, PathHasType, OperatorHasType, FieldMap, ResolveTypes;
    match e {
      case TLit(_) =>
      case TVar(_) =>
      case TBin(_, _, _) => OperatorExact(decls, ctx, e, t);
      case TUni(op, e1) => UnaryExact(decls, ctx, e, t);
      case TNamedInit(_, _, _) => NamedExact(decls, ctx, e, t);
      case TAnonInit(_, _) => AnonExact(decls, ctx, e, t);
      case TList(_) => ListExact(decls, ctx, e, t);
      case TFill(e1, _) => FillExact(decls, ctx, e, t);
      case TIndexing(_, _) => IndexingExact(decls, ctx, e, t);
      case TAccess(_, _, _) => AccessExact(decls, ctx, e, t);
    }
  }

  /** An expression with its type: what the rules know of it. */
  lemma {:induction false} Only(decls: Decls, ctx: Context, e: TExpr)
    ensures forall t :: HasType(decls, ctx, e, t) <==> TypeOf(decls, ctx, e) == Some(t)
    decreases e, 2
  {
    forall t ensures HasType(decls, ctx, e, t) <==> TypeOf(decls, ctx, e) == Some(t) {
      CheckerIsExact(decls, ctx, e, t);
    }
  }

  lemma {:induction false} OperatorExact(decls: Decls, ctx: Context, e: TExpr, t: Type)
    requires e.TBin?
    ensures TypeOf(decls, ctx, e) == Some(t) <==> HasType(decls, ctx, e, t)
    decreases e, 0
  {
    hide ResolveTypes;
    Only(decls, ctx, e.lhs);
    Only(decls, ctx, e.rhs);
    var a, b := TypeOf(decls, ctx, e.lhs), TypeOf(decls, ctx, e.rhs);
    OperatorType(decls, ctx, e, t);
    RuleOfOperator(decls, ctx, e, t);
  }

  lemma RuleOfOperator(decls: Decls, ctx: Context, e: TExpr, t: Type)
    requires e.TBin?
    requires forall x :: HasType(decls, ctx, e.lhs, x) <==> TypeOf(decls, ctx, e.lhs) == Some(x)
    requires forall x :: HasType(decls, ctx, e.rhs, x) <==> TypeOf(decls, ctx, e.rhs) == Some(x)
    ensures var a, b := TypeOf(decls, ctx, e.lhs), TypeOf(decls, ctx, e.rhs);
      OperatorHasType(decls, ctx, e, t) <==>
        a.Some? && b.Some? && ResolveBinOp(e.op, a.value, b.value).Typed? && ResolveBinOp(e.op, a.value, b.value).value.0 == t
  {
    hide ResolveTypes, HasType, TypeOf;
    var a, b := TypeOf(decls, ctx, e.lhs), TypeOf(decls, ctx, e.rhs);
    assert HasType(decls, ctx, e.lhs, IntT) <==> a == Some(IntT);
    assert HasType(decls, ctx, e.rhs, IntT) <==> b == Some(IntT);
    assert HasType(decls, ctx, e.lhs, FloatT) <==> a == Some(FloatT);
    assert HasType(decls, ctx, e.rhs, FloatT) <==> b == Some(FloatT);
    assert HasType(decls, ctx, e.lhs, BoolT) <==> a == Some(BoolT);
    assert HasType(decls, ctx, e.rhs, BoolT) <==> b == Some(BoolT);
    if a.Some? && b.Some? {
      assert HasType(decls, ctx, e.lhs, a.value) && HasType(decls, ctx, e.rhs, b.value);
    }
  }

  lemma OperatorType(decls: Decls, ctx: Context, e: TExpr, t: Type)
    requires e.TBin?
    ensures var a, b := TypeOf(decls, ctx, e.lhs), TypeOf(decls, ctx, e.rhs);
      TypeOf(decls, ctx, e) == Some(t) <==>
        a.Some? && b.Some? && ResolveBinOp(e.op, a.value, b.value).Typed? && ResolveBinOp(e.op, a.value, b.value).value.0 == t
  {
    hide ResolveBinOp;
  }

  lemma {:induction false} UnaryExact(decls: Decls, ctx: Context, e: TExpr, t: Type)
    requires e.TUni?
    ensures TypeOf(decls, ctx, e) == Some(t) <==> HasType(decls, ctx, e, t)
    decreases e, 0
  {
    Only(decls, ctx, e.operand);
  }

  lemma {:induction false} FillExact(decls: Decls, ctx: Context, e: TExpr, t: Type)
    requires e.TFill?
    ensures TypeOf(decls, ctx, e) == Some(t) <==> HasType(decls, ctx, e, t)
    decreases e, 0
  {
    Only(decls, ctx, e.elem);
  }

  lemma {:induction false} IndexingExact(decls: Decls, ctx: Context, e: TExpr, t: Type)
    requires e.TIndexing?
    ensures TypeOf(decls, ctx, e) == Some(t) <==> HasType(decls, ctx, e, t)
    decreases e, 0
  {
    hide CheckExpr, HasType;
    Only(decls, ctx, e.arr);
    Only(decls, ctx, e.indexer);
    var a := TypeOf(decls, ctx, e.arr);
    IndexingType(decls, ctx, e, t);
    RuleOfIndexing(decls, ctx, e, t);
    if a.Some? && a.value.ArrayT? {
      assert a.value == ArrayT(a.value.elem, a.value.size);
      assert HasType(decls, ctx, e.arr, ArrayT(a.value.elem, a.value.size));
    }
  }

  lemma IndexingType(decls: Decls, ctx: Context, e: TExpr, t: Type)
    requires e.TIndexing?
    ensures var a, b := TypeOf(decls, ctx, e.arr), TypeOf(decls, ctx, e.indexer);
      TypeOf(decls, ctx, e) == Some(t) <==> b == Some(IntT) && a.Some? && a.value.ArrayT? && a.value.elem == t
  {
  }

  lemma RuleOfIndexing(decls: Decls, ctx: Context, e: TExpr, t: Type)
    requires e.TIndexing?
    ensures HasType(decls, ctx, e, t) <==> HasType(decls, ctx, e.indexer, IntT) && exists n :: HasType(decls, ctx, e.arr, ArrayT(t, n))
  {
  }

  lemma {:induction false} TypesExact(decls: Decls, ctx: Context, es: seq<TExpr>, ts: seq<Type>)
    ensures HaveTypes(decls, ctx, es, ts) <==> CheckList(decls, ctx, es).Typed? && CheckList(decls, ctx, es).value.0 == ts
    decreases es, 0
  {
    hide CheckExpr, HasType;
    if es != [] && |es| == |ts| {
      CheckerIsExact(decls, ctx, es[0], ts[0]);
      TypesExact(decls, ctx, es[1..], ts[1..]);
      assert ts == [ts[0]] + ts[1..];
    }
  }

  lemma {:induction false} OnlyTypes(decls: Decls, ctx: Context, es: seq<TExpr>)
    ensures forall ts :: HaveTypes(decls, ctx, es, ts) <==> CheckList(decls, ctx, es).Typed? && CheckList(decls, ctx, es).value.0 == ts
    decreases es, 1
  {
    forall ts ensures HaveTypes(decls, ctx, es, ts) <==> CheckList(decls, ctx, es).Typed? && CheckList(decls, ctx, es).value.0 == ts {
      TypesExact(decls, ctx, es, ts);
    }
  }

  lemma {:induction false} ListExact(decls: Decls, ctx: Context, e: TExpr, t: Type)
    requires e.TList?
    ensures TypeOf(decls, ctx, e) == Some(t) <==> HasType(decls, ctx, e, t)
    decreases e, 0
  {
    hide HaveTypes, CheckList, HasType, ResolveTypes, AllResolve;
    OnlyTypes(decls, ctx, e.elems);
    RuleOfList(decls, ctx, e, t);
    var c := CheckList(decls, ctx, e.elems);
    if c.Typed? && c.value.0 != [] {
      var ts := c.value.0;
      ResolveReflexive(ts[0]);
      TailResolve(ts, ts[0]);
    }
  }

  lemma RuleOfList(decls: Decls, ctx: Context, e: TExpr, t: Type)
    requires e.TList?
    ensures HasType(decls, ctx, e, t)
       <==> t.ArrayT? && t.size == |e.elems| > 0
            && exists ts :: HaveTypes(decls, ctx, e.elems, ts) && ts[0] == t.elem && AllResolve(ts, t.elem)
  {
    hide HaveTypes, AllResolve;
  }

  lemma TailResolve(ts: seq<Type>, t: Type)
    requires ts != [] && ResolveTypes(ts[0], t)
    ensures (forall x :: x in ts[1..] ==> ResolveTypes(x, t)) <==> AllResolve(ts, t)
  {
    hide ResolveTypes;
    if forall x :: x in ts[1..] ==> ResolveTypes(x, t) {
      forall i | 0 <= i < |ts| ensures ResolveTypes(ts[i], t) {
        if i > 0 {
          assert ts[1..][i - 1] == ts[i];
        }
      }
    }
  }

  function NameSet(names: seq<string>): set<string> { set x | x in names }

  lemma {:induction false} DistinctSize(names: seq<string>)
    requires Distinct(names)
    ensures |NameSet(names)| == |names|
    decreases names
  {
    if names != [] {
      DistinctSize(names[1..]);
      assert NameSet(names) == {names[0]} + NameSet(names[1..]);
    }
  }

  lemma SubsetSize(a: set<string>, b: set<string>)
    requires a <= b
    ensures |a| <= |b| && (|a| == |b| <==> a == b)
  {
    assert b == a + (b - a);
    if a != b {
      var x :| x in b - a;
      assert |b - a| > 0;
    }
  }

  /** Names without repetition that are all fields, and as many as there are fields, are the fields. */
  lemma Covers(names: seq<string>, fields: map<string, Type>)
    requires Distinct(names) && forall f :: f in names ==> f in fields
    ensures |names| == |fields| <==> forall f :: f in fields ==> f in names
  {
    hide Distinct;
    DistinctSize(names);
    SubsetSize(NameSet(names), fields.Keys);
    assert |fields| == |fields.Keys|;
    assert NameSet(names) == fields.Keys <==> forall f :: f in fields ==> f in names;
  }

  lemma {:induction false} KnownExact(names: seq<string>, seen: set<string>, fields: map<string, Type>)
    ensures KnownFields(names, seen, fields).Typed? <==> Distinct(names) && forall x :: x in names ==> x in fields && x !in seen
    decreases names
  {
    if names != [] && names[0] in fields && names[0] !in seen {
      KnownExact(names[1..], seen + {names[0]}, fields);
    }
  }

  /** Looked up by name or by place, distinct initializers are the same. */
  lemma {:induction false} DistinctAt(names: seq<string>, i: nat)
    requires Distinct(names) && i < |names|
    ensures names[i] !in names[i + 1..]
    decreases names
  {
    if i > 0 {
      DistinctAt(names[1..], i - 1);
      assert names[1..][i..] == names[i + 1..];
    }
  }

  lemma ByPlace(names: seq<string>, ts: seq<Type>)
    requires Distinct(names) && |names| == |ts|
    ensures var given := FieldMap(names, ts);
      (forall f :: f in given <==> f in names) && forall i :: 0 <= i < |ts| ==> names[i] in given && given[names[i]] == ts[i]
  {
    FieldMapNames(names, ts);
    forall i | 0 <= i < |ts| ensures names[i] in FieldMap(names, ts) && FieldMap(names, ts)[names[i]] == ts[i] {
      DistinctAt(names, i);
      FieldMapHolds(names, ts, i);
    }
  }

  lemma NamedType(decls: Decls, name: string, names: seq<string>, ts: seq<Type>, t: Type)
    ensures ResolveStructInit(decls, name, names, ts) == Typed(t)
       <==> name in decls && t == decls[name] && t.RecordT? && SameNames(names, t.fields) && Fit(names, ts, t.fields)
  {
    hide ResolveTypes, FieldMap;
    if name in decls && decls[name].RecordT? {
      var fields := decls[name].fields;
      KnownExact(names, {}, fields);
      if Distinct(names) && (forall x :: x in names ==> x in fields) {
        Covers(names, fields);
        if |names| == |fields| == |ts| {
          ByPlace(names, ts);
          FitsByName(names, ts, fields);
        }
      }
    }
  }

  lemma FitsByName(names: seq<string>, ts: seq<Type>, fields: map<string, Type>)
    requires SameNames(names, fields) && |names| == |ts|
    requires var given := FieldMap(names, ts);
      (forall f :: f in given <==> f in names) && forall i :: 0 <= i < |ts| ==> names[i] in given && given[names[i]] == ts[i]
    ensures var given := FieldMap(names, ts);
      (forall f :: f in fields ==> f in given && ResolveTypes(given[f], fields[f])) <==> Fit(names, ts, fields)
  {
    hide ResolveTypes, FieldMap, Distinct;
    var given := FieldMap(names, ts);
    if Fit(names, ts, fields) {
      forall f | f in fields ensures f in given && ResolveTypes(given[f], fields[f]) {
        var i :| 0 <= i < |names| && names[i] == f;
      }
    }
  }

  lemma {:induction false} NamedExact(decls: Decls, ctx: Context, e: TExpr, t: Type)
    requires e.TNamedInit?
    ensures TypeOf(decls, ctx, e) == Some(t) <==> HasType(decls, ctx, e, t)
    decreases e, 0
  {
    hide HaveTypes, CheckList, ResolveStructInit, SameNames, Fit;
    OnlyTypes(decls, ctx, e.inits);
    var c := CheckList(decls, ctx, e.inits);
    if c.Typed? {
      NamedType(decls, e.typeName, e.names, c.value.0, t);
    }
  }

  lemma AnonType(names: seq<string>, ts: seq<Type>, t: Type)
    ensures ResolveAnonInit(names, ts) == Typed(t) <==> t.WidthT? && SameNames(names, t.fields) && Are(names, ts, t.fields)
  {
    hide FieldMap;
    if Distinct(names) && |names| == |ts| {
      ByPlace(names, ts);
      var given := FieldMap(names, ts);
      assert SameNames(names, given) && Are(names, ts, given);
      if t.WidthT? && SameNames(names, t.fields) && Are(names, ts, t.fields) {
        forall f | f in given ensures f in t.fields && t.fields[f] == given[f] {
          var i :| 0 <= i < |names| && names[i] == f;
        }
        assert t.fields == given;
      }
    }
  }

  lemma {:induction false} AnonExact(decls: Decls, ctx: Context, e: TExpr, t: Type)
    requires e.TAnonInit?
    ensures TypeOf(decls, ctx, e) == Some(t) <==> HasType(decls, ctx, e, t)
    decreases e, 0
  {
    hide HaveTypes, CheckList, ResolveAnonInit, SameNames, Are;
    OnlyTypes(decls, ctx, e.inits);
    var c := CheckList(decls, ctx, e.inits);
    if c.Typed? {
      AnonType(e.names, c.value.0, t);
    }
  }

  predicate RootIs(decls: Decls, ctx: Context, root: string, rootIndex: Option<TExpr>, t: Type) {
    CheckRoot(decls, ctx, root, rootIndex).Typed? && CheckRoot(decls, ctx, root, rootIndex).value.0 == t
  }

  lemma {:induction false} RootExact(decls: Decls, ctx: Context, root: string, rootIndex: Option<TExpr>)
    ensures forall t :: RootHasType(decls, ctx, root, rootIndex, t) <==> RootIs(decls, ctx, root, rootIndex, t)
    decreases rootIndex
  {
    hide CheckExpr, HasType;
    if rootIndex.Some? {
      CheckerIsExact(decls, ctx, rootIndex.value, IntT);
    }
  }

  lemma {:induction false} PathExact(decls: Decls, ctx: Context, from: Type, path: seq<TSeg>, to: Type)
    ensures PathHasType(decls, ctx, from, path, to) <==> PathIs(decls, ctx, from, path, to)
    decreases path, 1
  {
    hide CheckExpr, HasType;
    if path != [] {
      if path[0].FieldSeg? {
        FieldExact(decls, ctx, from, path, to);
      } else {
        IndexExact(decls, ctx, from, path, to);
      }
    }
  }

  predicate PathIs(decls: Decls, ctx: Context, from: Type, path: seq<TSeg>, to: Type) {
    CheckPath(decls, ctx, from, path).Typed? && CheckPath(decls, ctx, from, path).value.0 == to
  }

  lemma {:induction false} FieldExact(decls: Decls, ctx: Context, from: Type, path: seq<TSeg>, to: Type)
    requires path != [] && path[0].FieldSeg?
    ensures PathHasType(decls, ctx, from, path, to) <==> PathIs(decls, ctx, from, path, to)
    decreases path, 0
  {
    hide CheckExpr, HasType, PathHasType, CheckPath;
    var f := FieldOf(from, path[0].name);
    if f.Typed? {
      assert HasField(from, path[0].name, f.value);
      PathExact(decls, ctx, f.value, path[1..], to);
    }
    RuleOfField(decls, ctx, from, path, to);
    CheckOfField(decls, ctx, from, path, to);
  }

  lemma RuleOfField(decls: Decls, ctx: Context, from: Type, path: seq<TSeg>, to: Type)
    requires path != [] && path[0].FieldSeg?
    ensures PathHasType(decls, ctx, from, path, to)
       <==> exists t :: HasField(from, path[0].name, t) && PathHasType(decls, ctx, t, path[1..], to)
  {
    hide HasType;
  }

  lemma CheckOfField(decls: Decls, ctx: Context, from: Type, path: seq<TSeg>, to: Type)
    requires path != [] && path[0].FieldSeg?
    ensures var f := FieldOf(from, path[0].name);
      PathIs(decls, ctx, from, path, to) <==> f.Typed? && PathIs(decls, ctx, f.value, path[1..], to)
  {
    hide CheckExpr;
  }

  lemma {:induction false} IndexExact(decls: Decls, ctx: Context, from: Type, path: seq<TSeg>, to: Type)
    requires path != [] && path[0].IndexSeg?
    ensures PathHasType(decls, ctx, from, path, to) <==> PathIs(decls, ctx, from, path, to)
    decreases path, 0
  {
    hide CheckExpr, HasType, PathHasType, CheckPath;
    var e, f := path[0].index, FieldOf(from, path[0].name);
    CheckerIsExact(decls, ctx, e, IntT);
    if f.Typed? && f.value.ArrayT? {
      assert HasField(from, path[0].name, ArrayT(f.value.elem, f.value.size));
      PathExact(decls, ctx, f.value.elem, path[1..], to);
    }
    RuleOfIndex(decls, ctx, from, path, to);
    CheckOfIndex(decls, ctx, from, path, to);
  }

  lemma RuleOfIndex(decls: Decls, ctx: Context, from: Type, path: seq<TSeg>, to: Type)
    requires path != [] && path[0].IndexSeg?
    ensures PathHasType(decls, ctx, from, path, to)
       <==> HasType(decls, ctx, path[0].index, IntT)
            && exists t, n :: HasField(from, path[0].name, ArrayT(t, n)) && PathHasType(decls, ctx, t, path[1..], to)
  {
    hide HasType;
  }

  lemma CheckOfIndex(decls: Decls, ctx: Context, from: Type, path: seq<TSeg>, to: Type)
    requires path != [] && path[0].IndexSeg?
    ensures var f := FieldOf(from, path[0].name);
      var here := TypeOf(decls, ctx, path[0].index) == Some(IntT) && f.Typed? && f.value.ArrayT?;
      PathIs(decls, ctx, from, path, to) <==> here && PathIs(decls, ctx, f.value.elem, path[1..], to)
  {
    hide CheckExpr;
  }

  lemma {:induction false} AccessExact(decls: Decls, ctx: Context, e: TExpr, t: Type)
    requires e.TAccess?
    ensures TypeOf(decls, ctx, e) == Some(t) <==> HasType(decls, ctx, e, t)
    decreases e, 0
  {
    hide CheckRoot, CheckPath, RootHasType, PathHasType;
    RootExact(decls, ctx, e.root, e.rootIndex);
    var c := CheckRoot(decls, ctx, e.root, e.rootIndex);
    if c.Typed? {
      assert RootHasType(decls, ctx, e.root, e.rootIndex, c.value.0);
      PathExact(decls, ctx, c.value.0, e.path, t);
    }
  }

  // ---------------------------------------------------------------- statements

  /** An expression whose type meets a constraint. */
  ghost predicate Meets(decls: Decls, ctx: Context, e: TExpr, constraint: Type) {
    exists t :: HasType(decls, ctx, e, t) && ResolveTypes(t, constraint)
  }

  ghost predicate Typable(decls: Decls, ctx: Context, e: TExpr) { exists t :: HasType(decls, ctx, e, t) }

  /** A statement is typed, and leads from one context to another. */
  ghost predicate StmtHasType(decls: Decls, ret: Type, ctx: Context, s: TStmt, behind: Context)
    decreases s
  {
    match s
    case TExprStmt(e) => behind == ctx && Typable(decls, ctx, e)
    case TLocal(x, None, e) => exists t :: HasType(decls, ctx, e, t) && behind == ctx[x := t]
    case TLocal(x, Some(a), e) => behind == ctx[x := a] && Meets(decls, ctx, e, a)
    case TAssign(root, rootIndex, path, value) =>
      behind == ctx
      && exists from, to :: RootHasType(decls, ctx, root, rootIndex, from) && PathHasType(decls, ctx, from, path, to) && Meets(decls, ctx, value, to)
    case TReturn(None) => behind == ctx && ResolveTypes(UnitT, ret)
    case TReturn(Some(e)) => behind == ctx && Meets(decls, ctx, e, ret)
    case TBreak => behind == ctx
    case TContinue => behind == ctx
    case TWhile(cond, body) => behind == ctx && HasType(decls, ctx, cond, BoolT) && BlockOk(decls, ret, ctx, body)
    case TIf(cond, body, rest) =>
      behind == ctx && HasType(decls, ctx, cond, BoolT) && BlockOk(decls, ret, ctx, body) && ArmsHaveType(decls, ret, ctx, rest)
  }

  ghost predicate BlockHasType(decls: Decls, ret: Type, ctx: Context, stmts: seq<TStmt>, behind: Context)
    decreases stmts, 0
  {
    if stmts == [] then behind == ctx
    else exists mid :: StmtHasType(decls, ret, ctx, stmts[0], mid) && BlockHasType(decls, ret, mid, stmts[1..], behind)
  }

  /** A block in a scope of its own. */
  ghost predicate BlockOk(decls: Decls, ret: Type, ctx: Context, stmts: seq<TStmt>)
    decreases stmts, 1
  {
    exists inner :: BlockHasType(decls, ret, ctx, stmts, inner)
  }

  ghost predicate ArmsHaveType(decls: Decls, ret: Type, ctx: Context, a: TArms)
    decreases a
  {
    match a
    case TNoMore => true
    case TDefault(b) => BlockOk(decls, ret, ctx, b)
    case TElif(cond, b, rest) =>
      HasType(decls, ctx, cond, BoolT) && BlockOk(decls, ret, ctx, b) && ArmsHaveType(decls, ret, ctx, rest)
  }

  lemma MeetsExact(decls: Decls, ctx: Context, e: TExpr, constraint: Type)
    ensures Meets(decls, ctx, e, constraint) <==> CheckExpr(decls, ctx, e).Typed? && ResolveTypes(CheckExpr(decls, ctx, e).value.t, constraint)
  {
    hide CheckExpr, HasType, ResolveTypes;
    Only(decls, ctx, e);
    var t := TypeOf(decls, ctx, e);
    if t.Some? {
      assert HasType(decls, ctx, e, t.value);
    }
  }

  lemma ConditionExact(decls: Decls, ctx: Context, cond: TExpr)
    ensures CheckCondition(decls, ctx, cond).Typed? <==> HasType(decls, ctx, cond, BoolT)
  {
    hide CheckExpr, HasType;
    CheckerIsExact(decls, ctx, cond, BoolT);
    var c := CheckExpr(decls, ctx, cond);
    if c.Typed? {
      assert ResolveTypes(c.value.t, BoolT) <==> c.value.t == BoolT;
    }
  }

  /** The context the checker goes on with, if it does. */
  function BehindStmt(decls: Decls, ret: Type, ctx: Context, s: TStmt): Option<Context> {
    var c := CheckStmt(decls, ret, ctx, s);
    if c.Typed? then Some(c.value.1) else None
  }

  function BehindBlock(decls: Decls, ret: Type, ctx: Context, stmts: seq<TStmt>): Option<Context> {
    var c := CheckBlock(decls, ret, ctx, stmts);
    if c.Typed? then Some(c.value.1) else None
  }

  lemma {:induction false} StmtExact(decls: Decls, ret: Type, ctx: Context, s: TStmt, behind: Context)
    ensures StmtHasType(decls, ret, ctx, s, behind) <==> BehindStmt(decls, ret, ctx, s) == Some(behind)
    decreases s
  {
    hide CheckExpr, HasType, Typable, CheckBlock, BlockOk, CheckArms, ArmsHaveType, Meets, ResolveTypes, CheckRoot, CheckPath, RootHasType, PathHasType, CheckCondition;
    match s {
      case TExprStmt(e) => TypedAtAll(decls, ctx, e);
      case TLocal(x, None, e) => LocalExact(decls, ret, ctx, s, behind);
      case TLocal(x, Some(a), e) => MeetsExact(decls, ctx, e, a);
      case TAssign(_, _, _, _) => AssignExact(decls, ret, ctx, s, behind);
      case TReturn(None) =>
      case TReturn(Some(e)) => MeetsExact(decls, ctx, e, ret);
      case TBreak =>
      case TContinue =>
      case TWhile(cond, body) =>
        ConditionExact(decls, ctx, cond);
        InnerExact(decls, ret, ctx, body);
      case TIf(cond, body, rest) =>
        ConditionExact(decls, ctx, cond);
        InnerExact(decls, ret, ctx, body);
        ArmsExact(decls, ret, ctx, rest);
    }
  }

  lemma TypedAtAll(decls: Decls, ctx: Context, e: TExpr)
    ensures Typable(decls, ctx, e) <==> CheckExpr(decls, ctx, e).Typed?
  {
    hide CheckExpr, HasType;
    Only(decls, ctx, e);
    var t := TypeOf(decls, ctx, e);
    if t.Some? {
      assert HasType(decls, ctx, e, t.value);
    }
  }

  lemma LocalExact(decls: Decls, ret: Type, ctx: Context, s: TStmt, behind: Context)
    requires s.TLocal? && s.annotation.None?
    ensures StmtHasType(decls, ret, ctx, s, behind) <==> BehindStmt(decls, ret, ctx, s) == Some(behind)
  {
    hide CheckExpr, HasType;
    Only(decls, ctx, s.init);
    var t := TypeOf(decls, ctx, s.init);
    if t.Some? {
      assert HasType(decls, ctx, s.init, t.value);
    }
  }

  lemma AssignExact(decls: Decls, ret: Type, ctx: Context, s: TStmt, behind: Context)
    requires s.TAssign?
    ensures StmtHasType(decls, ret, ctx, s, behind) <==> BehindStmt(decls, ret, ctx, s) == Some(behind)
  {
    hide CheckExpr, HasType, CheckRoot, CheckPath, RootHasType, PathHasType, Meets, ResolveTypes;
    RootExact(decls, ctx, s.root, s.rootIndex);
    var c := CheckRoot(decls, ctx, s.root, s.rootIndex);
    if c.Typed? {
      assert RootHasType(decls, ctx, s.root, s.rootIndex, c.value.0);
      forall to ensures PathHasType(decls, ctx, c.value.0, s.path, to) <==> PathIs(decls, ctx, c.value.0, s.path, to) {
        PathExact(decls, ctx, c.value.0, s.path, to);
      }
      var p := CheckPath(decls, ctx, c.value.0, s.path);
      if p.Typed? {
        MeetsExact(decls, ctx, s.value, p.value.0);
        assert PathHasType(decls, ctx, c.value.0, s.path, p.value.0);
      }
    }
  }

  lemma {:induction false} InnerExact(decls: Decls, ret: Type, ctx: Context, stmts: seq<TStmt>)
    ensures BlockOk(decls, ret, ctx, stmts) <==> CheckBlock(decls, ret, ctx, stmts).Typed?
    decreases stmts, 1
  {
    hide CheckBlock, BlockHasType;
    forall inner ensures BlockHasType(decls, ret, ctx, stmts, inner) <==> BehindBlock(decls, ret, ctx, stmts) == Some(inner) {
      BlockExact(decls, ret, ctx, stmts, inner);
    }
    var b := BehindBlock(decls, ret, ctx, stmts);
    if b.Some? {
      assert BlockHasType(decls, ret, ctx, stmts, b.value);
    }
  }

  /** The checker accepts a block if and only if the rules do, and goes on in the same context. */
  lemma {:induction false} BlockExact(decls: Decls, ret: Type, ctx: Context, stmts: seq<TStmt>, behind: Context)
    ensures BlockHasType(decls, ret, ctx, stmts, behind) <==> BehindBlock(decls, ret, ctx, stmts) == Some(behind)
    decreases stmts, 0
  {
    hide CheckStmt, StmtHasType;
    if stmts != [] {
      forall mid ensures StmtHasType(decls, ret, ctx, stmts[0], mid) <==> BehindStmt(decls, ret, ctx, stmts[0]) == Some(mid) {
        StmtExact(decls, ret, ctx, stmts[0], mid);
      }
      var m := BehindStmt(decls, ret, ctx, stmts[0]);
      if m.Some? {
        assert StmtHasType(decls, ret, ctx, stmts[0], m.value);
        BlockExact(decls, ret, m.value, stmts[1..], behind);
      }
    }
  }

  lemma {:induction false} ArmsExact(decls: Decls, ret: Type, ctx: Context, a: TArms)
    ensures ArmsHaveType(decls, ret, ctx, a) <==> CheckArms(decls, ret, ctx, a).Typed?
    decreases a
  {
    hide HasType, CheckBlock, BlockOk, CheckCondition;
    match a {
      case TNoMore =>
      case TDefault(b) => InnerExact(decls, ret, ctx, b);
      case TElif(cond, b, rest) =>
        ConditionExact(decls, ctx, cond);
        InnerExact(decls, ret, ctx, b);
        ArmsExact(decls, ret, ctx, rest);
    }
  }
}
