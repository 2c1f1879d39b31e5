/** Paths into values, fields of structures, parameters of calls: what is put in comes out, in its own place. */
module ValueLaws {
  import opened Values
  import opened Syntax
  import opened ByteCode
  import opened Evaluator
  import Machine

  // ---------------------------------------------------------------- paths

  /** What was written at a path is read there. */
  lemma {:induction false} ReadWritten(v: Value, steps: seq<PathStep>, x: Value)
    requires WritePath(v, steps, x).Success?
    ensures ReadPath(WritePath(v, steps, x).value, steps) == Success(x)
    decreases steps
  {
    if steps != [] {
      ReadWritten(ReadStep(v, steps[0]).value, steps[1..], x);
    }
  }

  /** Two paths part ways: up to some step they are the same, and there they differ. */
  predicate Apart(a: seq<PathStep>, b: seq<PathStep>) {
    a != [] && b != [] && (a[0] != b[0] || Apart(a[1..], b[1..]))
  }

  /** And nothing else has changed. */
  lemma {:induction false} ReadElsewhere(v: Value, steps: seq<PathStep>, x: Value, other: seq<PathStep>)
    requires WritePath(v, steps, x).Success? && Apart(steps, other)
    ensures ReadPath(WritePath(v, steps, x).value, other) == ReadPath(v, other)
    decreases steps
  {
    var inner := ReadStep(v, steps[0]).value;
    var inner' := WritePath(inner, steps[1..], x).value;
    if steps[0] == other[0] {
      ReadElsewhere(inner, steps[1..], x, other[1..]);
    } else {
      StepElsewhere(v, steps[0], inner', other[0]);
    }
  }

  lemma StepElsewhere(v: Value, s: PathStep, x: Value, other: PathStep)
    requires ReadStep(v, s).Success? && s != other
    ensures ReadStep(WriteStep(v, s, x), other) == ReadStep(v, other)
  {
  }

  lemma StepBack(v: Value, s: PathStep)
    requires ReadStep(v, s).Success?
    ensures WriteStep(v, s, ReadStep(v, s).value) == v
  {
    if s.ToField? {
      assert v.fields[s.field := v.fields[s.field]] == v.fields;
    } else {
      assert v.elems[s.index.i := v.elems[s.index.i]] == v.elems;
    }
  }

  /** Writing back what is there changes nothing. */
  lemma {:induction false} WriteBack(v: Value, steps: seq<PathStep>)
    requires ReadPath(v, steps).Success?
    ensures WritePath(v, steps, ReadPath(v, steps).value) == Success(v)
    decreases steps
  {
    if steps != [] {
      WriteBack(ReadStep(v, steps[0]).value, steps[1..]);
      StepBack(v, steps[0]);
    }
  }

  /** A path is written exactly when it can be read. */
  lemma {:induction false} WritableIsReadable(v: Value, steps: seq<PathStep>, x: Value)
    ensures WritePath(v, steps, x).Success? <==> ReadPath(v, steps).Success?
    decreases steps
  {
    if steps != [] && ReadStep(v, steps[0]).Success? {
      WritableIsReadable(ReadStep(v, steps[0]).value, steps[1..], x);
    }
  }

  // ---------------------------------------------------------------- arrays and structures, as they are written

  /** Element i of an array literal is the value of its i-th expression, counted from zero; outside there is only a fault. */
  lemma ElementOfLiteral(w: World, es: seq<Expr>, i: i64, vars: Vars, fuel: nat)
    requires EvalList(w, es, vars, fuel).Success?
    ensures var r := Eval(w, Indexing(ArrayList(es), Lit(LInt(i))), vars, fuel);
      if 0 <= i < |es| then r == Eval(w, es[i], vars, fuel) else r == Failure(IndexPanic)
  {
    if 0 <= i < |es| {
      ListAt(w, es, i, vars, fuel);
    }
    var vs := EvalList(w, es, vars, fuel).value;
    OneStep(Arr(vs), ToIndex(Int(i)));
    assert Eval(w, ArrayList(es), vars, fuel) == Success(Arr(vs));
    assert Eval(w, Lit(LInt(i)), vars, fuel) == Success(Int(i));
  }

  lemma OneStep(v: Value, s: PathStep)
    ensures ReadPath(v, [s]) == ReadStep(v, s)
  {
    if ReadStep(v, s).Success? {
      assert [s][1..] == [];
      assert ReadPath(ReadStep(v, s).value, []) == ReadStep(v, s);
    }
  }

  lemma {:induction false} ListAt(w: World, es: seq<Expr>, i: nat, vars: Vars, fuel: nat)
    requires EvalList(w, es, vars, fuel).Success? && i < |es|
    ensures Success(EvalList(w, es, vars, fuel).value[i]) == Eval(w, es[i], vars, fuel)
    decreases es
  {
    hide Eval;
    if i > 0 {
      ListAt(w, es[1..], i - 1, vars, fuel);
    }
  }

  /** Every element of a filled array is the one value. */
  lemma ElementOfFill(w: World, e: Expr, size: nat, i: i64, vars: Vars, fuel: nat)
    requires Eval(w, e, vars, fuel).Success?
    ensures var r := Eval(w, Indexing(ArrayFill(e, size), Lit(LInt(i))), vars, fuel);
      if 0 <= i < size then r == Eval(w, e, vars, fuel) else r == Failure(IndexPanic)
  {
    var vs := seq(size, _ => Eval(w, e, vars, fuel).value);
    OneStep(Arr(vs), ToIndex(Int(i)));
    assert Eval(w, ArrayFill(e, size), vars, fuel) == Success(Arr(vs));
    assert Eval(w, Lit(LInt(i)), vars, fuel) == Success(Int(i));
  }

  /** The fields of an initializer are its names; where a name is repeated the last one counts. */
  lemma {:induction false} FieldMapHolds<T>(names: seq<string>, xs: seq<T>, i: nat)
    requires |names| == |xs| && i < |names| && names[i] !in names[i + 1..]
    ensures names[i] in FieldMap(names, xs) && FieldMap(names, xs)[names[i]] == xs[i]
    decreases names
  {
    if i == 0 {
      FieldMapNames(names[1..], xs[1..]);
    } else {
      assert names[1..][i..] == names[i + 1..];
      FieldMapHolds(names[1..], xs[1..], i - 1);
    }
  }

  lemma {:induction false} FieldMapNames<T>(names: seq<string>, xs: seq<T>)
    requires |names| == |xs|
    ensures forall f :: f in FieldMap(names, xs) <==> f in names
    decreases names
  {
    if names != [] {
      FieldMapNames(names[1..], xs[1..]);
    }
  }

  /** A field of a structure has the value of its initializer. */
  lemma FieldOfStruct(w: World, names: seq<string>, inits: seq<Expr>, i: nat, vars: Vars, fuel: nat)
    requires |names| == |inits| && i < |names| && names[i] !in names[i + 1..]
    requires EvalList(w, inits, vars, fuel).Success?
    ensures var s := Eval(w, StructInit(names, inits), vars, fuel);
      s.Success? && ReadPath(s.value, [ToField(names[i])]) == Eval(w, inits[i], vars, fuel)
  {
    hide FieldMap;
    var vs := EvalList(w, inits, vars, fuel).value;
    ListAt(w, inits, i, vars, fuel);
    FieldMapHolds(names, vs, i);
    OneStep(Struct(FieldMap(names, vs)), ToField(names[i]));
    assert Eval(w, StructInit(names, inits), vars, fuel) == Success(Struct(FieldMap(names, vs)));
  }

  /** A declared variable has the value of its initializer, and no other variable has changed. */
  lemma LocalHolds(w: World, x: string, e: Expr, y: string, vars: Vars, fuel: nat)
    requires Eval(w, e, vars, fuel).Success?
    ensures var flow := ExecStmt(w, Local(x, e), vars, fuel);
      flow.Next? && Eval(w, Var(y), flow.vars, fuel) == if x == y then Eval(w, e, vars, fuel) else Eval(w, Var(y), vars, fuel)
  {
  }

  // ---------------------------------------------------------------- parameters

  /** A parameter is bound to the argument in its place, the last one where a name is repeated. */
  lemma {:induction false} ParamHolds(vars: Vars, params: seq<string>, args: seq<Value>, i: nat)
    requires |params| == |args| && i < |params| && params[i] !in params[i + 1..]
    ensures Lookup(Machine.BindParams(vars, params, args), User(params[i])) == Success(args[i])
    decreases params
  {
    if i == 0 {
      OtherNames(vars[User(params[0]) := args[0]], params[1..], args[1..], User(params[0]));
    } else {
      assert params[1..][i..] == params[i + 1..];
      ParamHolds(vars[User(params[0]) := args[0]], params[1..], args[1..], i - 1);
    }
  }

  /** And nothing else is bound. */
  lemma {:induction false} OtherNames(vars: Vars, params: seq<string>, args: seq<Value>, x: Name)
    requires |params| == |args| && !(x.User? && x.s in params)
    ensures Lookup(Machine.BindParams(vars, params, args), x) == Lookup(vars, x)
    decreases params
  {
    if params != [] {
      OtherNames(vars[User(params[0]) := args[0]], params[1..], args[1..], x);
    }
  }
}
