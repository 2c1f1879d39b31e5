/** Executing one instruction over cells. */
module HeapExecute {
  import opened Values
  import opened ByteCode
  import opened Cells
  import opened HeapEnv
  import opened HeapStore
  import opened EqualityLaws
  import Machine

  datatype Got<+T> = Ok(value: T) | Bad(fault: Fault)

  /** A computation over cells has gone like the one over values. */
  predicate Matches<T(==)>(r: Got<T>, m: Result<T>) {
    match (r, m)
    case (Ok(a), Success(b)) => a == b
    case (Bad(f), Failure(g)) => Alike(f, g)
    case _ => false
  }

  /** Two operands, read left to right. */
  function Both<S, T>(x: Result<S>, y: Result<T>): Result<(S, T)> {
    if x.Failure? then Failure(x.error) else if y.Failure? then Failure(y.error) else Success((x.value, y.value))
  }

  /** A result without parts. */
  predicate MatchesScalar(r: Got<HeapValue>, m: Result<Value>) {
    if r.Bad? then m.Failure? && Alike(r.fault, m.error)
    else m.Success? && !m.value.Arr? && !m.value.Struct? && r.value == Scalar(m.value)
  }

  /** And has made a value nobody else owns a part of. */
  ghost predicate Made(r: Got<HeapValue>, m: Result<Value>, h: Heap, h': Heap) {
    match (r, m)
    case (Ok(x), Success(v)) => Tree(h', x, v) && Foot(h', x, v) <= New(h, h')
    case (Bad(f), Failure(g)) => Alike(f, g)
    case _ => false
  }

  /** The heap has only grown, so every environment stands for what it stood for. */
  ghost predicate Extended(h: Heap, h': Heap, env: Env, e: Machine.Env)
    reads env
  {
    Grown(h, h') && env.Stands(h', e) && env.Owned(h', e) == env.Owned(h, e)
  }

  lemma StillStands(h: Heap, h': Heap, env: Env, e: Machine.Env)
    requires env.Stands(h, e) && Grown(h, h')
    ensures Extended(h, h', env, e)
  {
    hide Family, FamilyFoot;
    EnvIn(h, env.env, env.tmpStore, e);
    EnvFrame(h, h', env.env, env.tmpStore, e);
  }

  function Scalar(v: Value): HeapValue
    requires !v.Arr? && !v.Struct?
  {
    match v
    case Int(i) => HInt(i)
    case Float(f) => HFloat(f)
    case Bool(b) => HBool(b)
    case Str(s) => HStr(s)
    case Fn(id) => HFn(id)
    case Unit => HUnit
  }

  lemma ScalarMade(v: Value, h: Heap)
    requires !v.Arr? && !v.Struct?
    ensures Made(Ok(Scalar(v)), Success(v), h, h)
  {
  }

  // ---------------------------------------------------------------- operands

  method ArgToValue(env: Env, arg: Arg, ghost h: Heap, ghost e: Machine.Env) returns (r: Got<HeapValue>, ghost h': Heap)
    requires Current(h) && env.Stands(h, e)
    ensures Current(h') && fresh(New(h, h')) && Extended(h, h', env, e)
    ensures Made(r, Machine.ArgValue(e, arg), h, h')
  {
    hide Machine.Fetch, Family, FamilyFoot, Tree, Foot, CellFoot;
    h' := h;
    match arg {
      case Loc(loc) =>
        var c, _ := Fetch(env, loc, h, e);
        FetchPanics(e, loc);
        match c {
          case Lost(f) => r := Bad(f);
          case Found(cell) =>
            var x;
            x, h' := CloneValue(cell.value, h, Machine.Fetch(e, loc).value);
            r := Ok(x);
        }
      case IntArg(i) => ScalarMade(Int(i), h); r := Ok(HInt(i));
      case FloatArg(f) => ScalarMade(Float(f), h); r := Ok(HFloat(f));
      case BoolArg(b) => ScalarMade(Bool(b), h); r := Ok(HBool(b));
      case StringArg(s) => ScalarMade(Str(s), h); r := Ok(HStr(s));
    }
    StillStands(h, h', env, e);
  }

  /** The operand of a typed instruction: a location is cloned, a constant must fit. */
  method Operand(env: Env, arg: Arg, fits: bool, ghost h: Heap, ghost e: Machine.Env) returns (r: Got<HeapValue>, ghost h': Heap)
    requires Current(h) && env.Stands(h, e)
    ensures Current(h') && fresh(New(h, h')) && Extended(h, h', env, e)
    ensures Made(r, Machine.Operand(e, arg, fits), h, h')
  {
    hide Machine.Fetch, Family, FamilyFoot, Tree, Foot, CellFoot;
    if arg.Loc? || fits {
      r, h' := ArgToValue(env, arg, h, e);
    } else {
      h' := h;
      StillStands(h, h', env, e);
      r := Bad(InvalidInstruction);
    }
  }

  method IntegerFromArg(env: Env, arg: Arg, ghost h: Heap, ghost e: Machine.Env) returns (r: Got<i64>)
    requires Current(h) && env.Stands(h, e)
    ensures Matches(r, Machine.IntOperand(e, arg))
  {
    hide Machine.Operand, Family, FamilyFoot, Foot;
    var x, _ := Operand(env, arg, arg.IntArg?, h, e);
    match x {
      case Bad(f) => r := Bad(f);
      case Ok(HInt(i)) => r := Ok(i);
      case Ok(_) => r := Bad(ExpectedInt);
    }
  }

  method FloatFromArg(env: Env, arg: Arg, ghost h: Heap, ghost e: Machine.Env) returns (r: Got<FloatBits>)
    requires Current(h) && env.Stands(h, e)
    ensures Matches(r, Machine.FloatOperand(e, arg))
  {
    hide Machine.Operand, Family, FamilyFoot, Foot;
    var x, _ := Operand(env, arg, arg.FloatArg?, h, e);
    match x {
      case Bad(f) => r := Bad(f);
      case Ok(HFloat(f)) => r := Ok(f);
      case Ok(_) => r := Bad(ExpectedFloat);
    }
  }

  method BoolFromArg(env: Env, arg: Arg, ghost h: Heap, ghost e: Machine.Env) returns (r: Got<bool>)
    requires Current(h) && env.Stands(h, e)
    ensures Matches(r, Machine.BoolOperand(e, arg))
  {
    hide Machine.Operand, Family, FamilyFoot, Foot;
    var x, _ := Operand(env, arg, arg.BoolArg?, h, e);
    match x {
      case Bad(f) => r := Bad(f);
      case Ok(HBool(b)) => r := Ok(b);
      case Ok(_) => r := Bad(ExpectedBool);
    }
  }

  /** Values in flight, none of them sharing a cell with another. */
  ghost predicate Trees(h: Heap, xs: seq<HeapValue>, vs: seq<Value>) {
    && |xs| == |vs| && (forall i :: 0 <= i < |xs| ==> Tree(h, xs[i], vs[i]))
    && (forall i, j :: 0 <= i < j < |xs| ==> Foot(h, xs[i], vs[i]) !! Foot(h, xs[j], vs[j]))
  }

  ghost predicate TreesIn(h: Heap, xs: seq<HeapValue>, vs: seq<Value>, cells: set<Cell>) {
    |xs| == |vs| && forall i :: 0 <= i < |xs| ==> Foot(h, xs[i], vs[i]) <= cells
  }

  lemma TreesFrame(h: Heap, h': Heap, xs: seq<HeapValue>, vs: seq<Value>, cells: set<Cell>)
    requires Trees(h, xs, vs) && TreesIn(h, xs, vs, cells) && SameOn(h, h', cells)
    ensures Trees(h', xs, vs) && TreesIn(h', xs, vs, cells)
  {
    forall i | 0 <= i < |xs| ensures Tree(h', xs[i], vs[i]) && Foot(h', xs[i], vs[i]) == Foot(h, xs[i], vs[i]) {
      Frame(h, h', xs[i], vs[i]);
    }
  }

  lemma TreesSnoc(h: Heap, h': Heap, xs: seq<HeapValue>, vs: seq<Value>, x: HeapValue, v: Value, cells: set<Cell>)
    requires Trees(h, xs, vs) && TreesIn(h, xs, vs, cells) && cells <= h.Keys && Grown(h, h')
    requires Tree(h', x, v) && Foot(h', x, v) <= New(h, h')
    ensures Trees(h', xs + [x], vs + [v]) && TreesIn(h', xs + [x], vs + [v], cells + New(h, h'))
  {
    hide Tree, Foot;
    TreesFrame(h, h', xs, vs, cells);
  }

  method ArgsToValues(env: Env, args: seq<Arg>, ghost h: Heap, ghost e: Machine.Env)
    returns (r: Got<seq<HeapValue>>, ghost h': Heap)
    requires Current(h) && env.Stands(h, e)
    ensures Current(h') && fresh(New(h, h')) && Extended(h, h', env, e)
    ensures match (r, Machine.ArgValues(e, args))
      case (Ok(xs), Success(vs)) => Trees(h', xs, vs) && TreesIn(h', xs, vs, New(h, h'))
      case (Bad(f), Failure(g)) => Alike(f, g)
      case _ => false
  {
    hide Machine.ArgValue, Machine.ArgValues, Family, FamilyFoot, Tree, Foot, Machine.Fetch;
    var xs: seq<HeapValue> := [];
    ghost var vs: seq<Value> := [];
    h' := h;
    StillStands(h, h, env, e);
    NoArgs(e, args[..0]);
    for i := 0 to |args|
      invariant Current(h') && fresh(New(h, h')) && Extended(h, h', env, e)
      invariant Machine.ArgValues(e, args[..i]) == Success(vs) && Trees(h', xs, vs) && TreesIn(h', xs, vs, New(h, h'))
    {
      ghost var h1 := h';
      var x;
      x, h' := ArgToValue(env, args[i], h1, e);
      assert New(h, h') == New(h, h1) + New(h1, h');
      ArgsSplit(e, args, i);
      match x {
        case Bad(f) => return Bad(f), h';
        case Ok(value) =>
          ghost var v := Machine.ArgValue(e, args[i]).value;
          TreesSnoc(h1, h', xs, vs, value, v, New(h, h1));
          xs, vs := xs + [value], vs + [v];
      }
    }
    assert args[..|args|] == args;
    r := Ok(xs);
  }

  lemma NoArgs(e: Machine.Env, args: seq<Arg>)
    requires args == []
    ensures Machine.ArgValues(e, args) == Success([])
  {
  }

  lemma {:induction false} ArgsSplit(e: Machine.Env, args: seq<Arg>, k: nat)
    requires k < |args| && Machine.ArgValues(e, args[..k]).Success?
    ensures var here := Machine.ArgValue(e, args[k]);
      && (here.Success? ==> Machine.ArgValues(e, args[..k + 1]) == Success(Machine.ArgValues(e, args[..k]).value + [here.value]))
      && (here.Failure? ==> Machine.ArgValues(e, args) == Failure(here.error))
    decreases k
  {
    hide Machine.ArgValue;
    if k == 0 {
      assert args[..1][1..] == [] && args[..0] == [];
      NoArgs(e, args[..0]);
      var here := Machine.ArgValue(e, args[0]);
      if here.Success? {
        assert [here.value] + [] == [] + [here.value];
      }
    } else {
      assert args[..k][1..] == args[1..][..k - 1] && args[..k + 1][1..] == args[1..][..k];
      ArgsSplit(e, args[1..], k - 1);
      var first, rest, here := Machine.ArgValue(e, args[0]).value, Machine.ArgValues(e, args[1..][..k - 1]).value, Machine.ArgValue(e, args[k]);
      if here.Success? {
        assert [first] + (rest + [here.value]) == [first] + rest + [here.value];
      }
    }
  }

  // ---------------------------------------------------------------- equality through cells

  /** The derived equality: it looks through the cells, in arrays by position and in structures by field. */
  method ValuesEqual(fl: Floats, x: HeapValue, y: HeapValue, ghost h: Heap, ghost v: Value, ghost w: Value) returns (b: bool)
    requires Current(h) && Tree(h, x, v) && Tree(h, y, w)
    ensures b == ValueEq(fl, v, w)
    ensures FloatFree(v) || FloatFree(w) ==> (b <==> v == w)
    decreases v, 1
  {
    hide Foot, CellFoot, FloatFree;
    if FloatFree(v) || FloatFree(w) {
      EqualityIsIdentity(fl, v, w);
    }
    match (x, y) {
      case (HInt(i), HInt(j)) => b := i == j;
      case (HFloat(f), HFloat(g)) => b := fl.equal(f, g);
      case (HBool(f), HBool(g)) => b := f == g;
      case (HStr(s), HStr(t)) => b := s == t;
      case (HFn(f), HFn(g)) => b := f == g;
      case (HUnit, HUnit) => b := true;
      case (HArr(cs), HArr(ds)) => b := ElementsEqual(fl, cs, ds, h, v, w);
      case (HStruct(fs), HStruct(gs)) => b := FieldsEqual(fl, fs, gs, h, v, w);
      case _ => b := false;
    }
  }

  method ElementsEqual(fl: Floats, cs: seq<Cell>, ds: seq<Cell>, ghost h: Heap, ghost v: Value, ghost w: Value) returns (b: bool)
    requires Current(h) && Tree(h, HArr(cs), v) && Tree(h, HArr(ds), w)
    ensures b == ValueEq(fl, v, w)
    decreases v, 0
  {
    hide Foot, CellFoot, FloatFree;
    if |cs| != |ds| {
      return false;
    }
    for i := 0 to |cs|
      invariant forall j :: 0 <= j < i ==> ValueEq(fl, v.elems[j], w.elems[j])
    {
      var same := ValuesEqual(fl, cs[i].value, ds[i].value, h, v.elems[i], w.elems[i]);
      if !same {
        return false;
      }
    }
    b := true;
  }

  method FieldsEqual(fl: Floats, fs: map<string, Cell>, gs: map<string, Cell>, ghost h: Heap, ghost v: Value, ghost w: Value) returns (b: bool)
    requires Current(h) && Tree(h, HStruct(fs), v) && Tree(h, HStruct(gs), w)
    ensures b == ValueEq(fl, v, w)
    decreases v, 0
  {
    hide Foot, CellFoot, FloatFree;
    if fs.Keys != gs.Keys {
      return false;
    }
    var rest := fs.Keys;
    while rest != {}
      invariant rest <= fs.Keys && forall k :: k in fs.Keys - rest ==> ValueEq(fl, v.fields[k], w.fields[k])
    {
      var k :| k in rest;
      var same := ValuesEqual(fl, fs[k].value, gs[k].value, h, v.fields[k], w.fields[k]);
      if !same {
        return false;
      }
      rest := rest - {k};
    }
    b := true;
  }

  /** Whether two operands are equal. */
  function CompareValues(fl: Floats, operands: Result<(Value, Value)>): Result<bool> {
    if operands.Failure? then Failure(operands.error) else Success(ValueEq(fl, operands.value.0, operands.value.1))
  }

  method EqualArgs(fl: Floats, env: Env, a1: Arg, a2: Arg, ghost h: Heap, ghost e: Machine.Env) returns (r: Got<bool>)
    requires Current(h) && env.Stands(h, e)
    ensures Matches(r, CompareValues(fl, Both(Machine.ArgValue(e, a1), Machine.ArgValue(e, a2))))
  {
    hide Machine.ArgValue, Family, FamilyFoot, Tree, Foot, ValueEq;
    var x, h1 := ArgToValue(env, a1, h, e);
    if x.Bad? {
      return Bad(x.fault);
    }
    var y, h2 := ArgToValue(env, a2, h1, e);
    if y.Bad? {
      return Bad(y.fault);
    }
    ghost var v, w := Machine.ArgValue(e, a1).value, Machine.ArgValue(e, a2).value;
    FootIn(h1, x.value, v);
    Frame(h1, h2, x.value, v);
    var b := ValuesEqual(fl, x.value, y.value, h2, v, w);
    r := Ok(b);
  }

  // ---------------------------------------------------------------- the instructions that compute a value and store it

  /** Where such an instruction stores. */
  function Target(instr: Instruction): Option<Location> {
    match instr
    case Store(loc, _) => Some(loc)
    case StoreStructure(loc, _) => Some(loc)
    case StoreArray1(loc, _) => Some(loc)
    case StoreArray2(loc, _, _) => Some(loc)
    case IntOp(_, loc, _, _) => Some(loc)
    case FloatOp(_, loc, _, _) => Some(loc)
    case CompareInt(_, loc, _, _) => Some(loc)
    case CompareFloat(_, loc, _, _) => Some(loc)
    case And(loc, _, _) => Some(loc)
    case Or(loc, _, _) => Some(loc)
    case EqInstr(loc, _, _) => Some(loc)
    case InEqInstr(loc, _, _) => Some(loc)
    case NegateInstr(loc, _) => Some(loc)
    case Invert(loc, _) => Some(loc)
    case _ => None
  }

  /** The value it computes. */
  function Computed(fl: Floats, instr: Instruction, e: Machine.Env): Result<Value>
    requires Target(instr).Some?
  {
    match instr
    case Store(_, arg) => Machine.ArgValue(e, arg)
    case StoreStructure(_, fields) =>
      var m :- Machine.FieldValues(e, fields);
      Success(Struct(m))
    case StoreArray1(_, args) =>
      var vs :- Machine.ArgValues(e, args);
      Success(Arr(vs))
    case StoreArray2(_, arg, size) =>
      var v :- Machine.ArgValue(e, arg);
      Success(Arr(seq(size, _ => v)))
    case IntOp(op, _, a1, a2) =>
      var x :- Machine.IntOperand(e, a1);
      var y :- Machine.IntOperand(e, a2);
      var z :- IntArith(op, x, y);
      Success(Int(z))
    case FloatOp(op, _, a1, a2) =>
      var x :- Machine.FloatOperand(e, a1);
      var y :- Machine.FloatOperand(e, a2);
      Success(Float(fl.arith(op, x, y)))
    case CompareInt(cmp, _, a1, a2) =>
      var x :- Machine.IntOperand(e, a1);
      var y :- Machine.IntOperand(e, a2);
      Success(Bool(IntCompare(cmp, x, y)))
    case CompareFloat(cmp, _, a1, a2) =>
      var x :- Machine.FloatOperand(e, a1);
      var y :- Machine.FloatOperand(e, a2);
      Success(Bool(fl.compare(cmp, x, y)))
    case And(_, a1, a2) =>
      var x :- Machine.BoolOperand(e, a1);
      var y :- Machine.BoolOperand(e, a2);
      Success(Bool(x && y))
    case Or(_, a1, a2) =>
      var x :- Machine.BoolOperand(e, a1);
      var y :- Machine.BoolOperand(e, a2);
      Success(Bool(x || y))
    case EqInstr(_, a1, a2) =>
      var v1 :- Machine.ArgValue(e, a1);
      var v2 :- Machine.ArgValue(e, a2);
      Success(Bool(ValueEq(fl, v1, v2)))
    case InEqInstr(_, a1, a2) =>
      var v1 :- Machine.ArgValue(e, a1);
      var v2 :- Machine.ArgValue(e, a2);
      Success(Bool(!ValueEq(fl, v1, v2)))
    case NegateInstr(_, a) =>
      var v :- Machine.ArgValue(e, a);
      NegateValue(fl, v)
    case Invert(_, a) =>
      var x :- Machine.BoolOperand(e, a);
      Success(Bool(!x))
  }

  lemma ComputeThenStore(fl: Floats, instr: Instruction, e: Machine.Env, reg: Option<Value>)
    requires Target(instr).Some?
    ensures Machine.Execute(fl, instr, e, reg) ==
      (var r := Computed(fl, instr, e);
       if r.Failure? then Failure(r.error) else Machine.StoreResult(e, reg, Target(instr).value, r.value))
  {
    hide Machine.ArgValue, Machine.ArgValues, Machine.IntOperand, Machine.FloatOperand, Machine.BoolOperand, Machine.StoreAt;
    hide Machine.FieldValues, ValueEq, IntArith, NegateValue;
  }

  /** Two operands of one kind. */
  method TwoIntegers(env: Env, a1: Arg, a2: Arg, ghost h: Heap, ghost e: Machine.Env) returns (r: Got<(i64, i64)>)
    requires Current(h) && env.Stands(h, e)
    ensures Matches(r, Both(Machine.IntOperand(e, a1), Machine.IntOperand(e, a2)))
  {
    hide Machine.IntOperand, Family, FamilyFoot;
    var x := IntegerFromArg(env, a1, h, e);
    if x.Bad? {
      return Bad(x.fault);
    }
    var y := IntegerFromArg(env, a2, h, e);
    r := if y.Bad? then Bad(y.fault) else Ok((x.value, y.value));
  }

  method TwoFloats(env: Env, a1: Arg, a2: Arg, ghost h: Heap, ghost e: Machine.Env) returns (r: Got<(FloatBits, FloatBits)>)
    requires Current(h) && env.Stands(h, e)
    ensures Matches(r, Both(Machine.FloatOperand(e, a1), Machine.FloatOperand(e, a2)))
  {
    hide Machine.FloatOperand, Family, FamilyFoot;
    var x := FloatFromArg(env, a1, h, e);
    if x.Bad? {
      return Bad(x.fault);
    }
    var y := FloatFromArg(env, a2, h, e);
    r := if y.Bad? then Bad(y.fault) else Ok((x.value, y.value));
  }

  method TwoBools(env: Env, a1: Arg, a2: Arg, ghost h: Heap, ghost e: Machine.Env) returns (r: Got<(bool, bool)>)
    requires Current(h) && env.Stands(h, e)
    ensures Matches(r, Both(Machine.BoolOperand(e, a1), Machine.BoolOperand(e, a2)))
  {
    hide Machine.BoolOperand, Family, FamilyFoot;
    var x := BoolFromArg(env, a1, h, e);
    if x.Bad? {
      return Bad(x.fault);
    }
    var y := BoolFromArg(env, a2, h, e);
    r := if y.Bad? then Bad(y.fault) else Ok((x.value, y.value));
  }

  /** The operators: their results have no parts. */
  method ComputeOperator(fl: Floats, instr: Instruction, env: Env, ghost h: Heap, ghost e: Machine.Env) returns (r: Got<HeapValue>)
    requires Current(h) && env.Stands(h, e) && Target(instr).Some?
    requires !instr.Store? && !instr.StoreStructure? && !instr.StoreArray1? && !instr.StoreArray2? && !instr.NegateInstr?
    ensures MatchesScalar(r, Computed(fl, instr, e))
  {
    hide Machine.ArgValue, Machine.IntOperand, Machine.FloatOperand, Machine.BoolOperand, ValueEq, Family, FamilyFoot;
    match instr {
      case IntOp(op, _, a1, a2) =>
        var p := TwoIntegers(env, a1, a2, h, e);
        if p.Bad? {
          return Bad(p.fault);
        }
        var z := IntArith(op, p.value.0, p.value.1);
        r := if z.Failure? then Bad(z.error) else Ok(HInt(z.value));
      case FloatOp(op, _, a1, a2) =>
        var p := TwoFloats(env, a1, a2, h, e);
        r := if p.Bad? then Bad(p.fault) else Ok(HFloat(fl.arith(op, p.value.0, p.value.1)));
      case CompareInt(cmp, _, a1, a2) =>
        var p := TwoIntegers(env, a1, a2, h, e);
        r := if p.Bad? then Bad(p.fault) else Ok(HBool(IntCompare(cmp, p.value.0, p.value.1)));
      case CompareFloat(cmp, _, a1, a2) =>
        var p := TwoFloats(env, a1, a2, h, e);
        r := if p.Bad? then Bad(p.fault) else Ok(HBool(fl.compare(cmp, p.value.0, p.value.1)));
      case And(_, a1, a2) =>
        var p := TwoBools(env, a1, a2, h, e);
        r := if p.Bad? then Bad(p.fault) else Ok(HBool(p.value.0 && p.value.1));
      case Or(_, a1, a2) =>
        var p := TwoBools(env, a1, a2, h, e);
        r := if p.Bad? then Bad(p.fault) else Ok(HBool(p.value.0 || p.value.1));
      case EqInstr(_, a1, a2) =>
        var p := EqualArgs(fl, env, a1, a2, h, e);
        r := if p.Bad? then Bad(p.fault) else Ok(HBool(p.value));
      case InEqInstr(_, a1, a2) =>
        var p := EqualArgs(fl, env, a1, a2, h, e);
        r := if p.Bad? then Bad(p.fault) else Ok(HBool(!p.value));
      case Invert(_, a) =>
        var p := BoolFromArg(env, a, h, e);
        r := if p.Bad? then Bad(p.fault) else Ok(HBool(!p.value));
    }
  }

  // ---------------------------------------------------------------- building arrays and structures

  /** New cells, one for each value, none shared. */
  ghost predicate Row(h0: Heap, h: Heap, cells: seq<Cell>, vs: seq<Value>) {
    && |cells| == |vs| && Grown(h0, h)
    && (forall i :: 0 <= i < |vs| ==> CellTree(h, cells[i], vs[i]) && CellFoot(h, cells[i], vs[i]) <= New(h0, h))
    && (forall i, j :: 0 <= i < j < |vs| ==> CellFoot(h, cells[i], vs[i]) !! CellFoot(h, cells[j], vs[j]))
  }

  lemma RowMore(h0: Heap, h1: Heap, h2: Heap, cells: seq<Cell>, vs: seq<Value>, c: Cell, v: Value)
    requires Row(h0, h1, cells, vs) && Grown(h1, h2) && CellTree(h2, c, v) && CellFoot(h2, c, v) <= New(h1, h2)
    ensures Row(h0, h2, cells + [c], vs + [v])
  {
    hide CellTree, CellFoot;
    forall i | 0 <= i < |vs| ensures CellTree(h2, cells[i], vs[i]) && CellFoot(h2, cells[i], vs[i]) == CellFoot(h1, cells[i], vs[i]) {
      CellFootIn(h1, cells[i], vs[i]);
      CellFrame(h1, h2, cells[i], vs[i]);
    }
  }

  lemma RowTree(h0: Heap, h: Heap, cells: seq<Cell>, vs: seq<Value>)
    requires Row(h0, h, cells, vs)
    ensures Tree(h, HArr(cells), Arr(vs)) && Foot(h, HArr(cells), Arr(vs)) <= New(h0, h)
  {
  }

  /** A new cell around a value that was made just now. */
  method Box(x: HeapValue, ghost h1: Heap, ghost h: Heap, ghost v: Value) returns (c: Cell, ghost h': Heap)
    requires Current(h) && Grown(h1, h) && Tree(h, x, v) && Foot(h, x, v) <= New(h1, h)
    ensures Current(h') && Grown(h1, h') && Grown(h, h') && fresh(New(h, h'))
    ensures CellTree(h', c, v) && CellFoot(h', c, v) <= New(h1, h') && fresh(c) && New(h, h') == {c}
  {
    hide Tree, Foot, CellTree, CellFoot;
    c := new Cell(x);
    h' := h[c := x];
    Boxed(h, c, x, v);
  }

  method BuildArray(env: Env, args: seq<Arg>, ghost h: Heap, ghost e: Machine.Env) returns (r: Got<HeapValue>, ghost h': Heap)
    requires Current(h) && env.Stands(h, e)
    ensures Current(h') && fresh(New(h, h')) && Extended(h, h', env, e)
    ensures match (r, Machine.ArgValues(e, args))
      case (Ok(x), Success(vs)) => Tree(h', x, Arr(vs)) && Foot(h', x, Arr(vs)) <= New(h, h')
      case (Bad(f), Failure(g)) => Alike(f, g)
      case _ => false
  {
    hide Machine.ArgValue, Machine.ArgValues, Family, FamilyFoot, Tree, Foot, Row, CellTree, CellFoot;
    var cells: seq<Cell> := [];
    ghost var vs: seq<Value> := [];
    h' := h;
    NoRow(h);
    StillStands(h, h, env, e);
    NoArgs(e, args[..0]);
    for i := 0 to |args|
      invariant Current(h') && fresh(New(h, h')) && Extended(h, h', env, e)
      invariant Machine.ArgValues(e, args[..i]) == Success(vs) && Row(h, h', cells, vs)
    {
      ghost var h1 := h';
      var x, h2 := ArgToValue(env, args[i], h1, e);
      ArgsSplit(e, args, i);
      assert New(h, h2) == New(h, h1) + New(h1, h2);
      match x {
        case Bad(f) => return Bad(f), h2;
        case Ok(value) =>
          ghost var v := Machine.ArgValue(e, args[i]).value;
          var c;
          c, h' := Box(value, h1, h2, v);
          assert New(h, h') == New(h, h2) + New(h2, h');
          RowMore(h, h1, h', cells, vs, c, v);
          StillStands(h, h', env, e);
          cells, vs := cells + [c], vs + [v];
      }
    }
    assert args[..|args|] == args;
    RowTree(h, h', cells, vs);
    r := Ok(HArr(cells));
  }

  lemma NoRow(h: Heap)
    ensures Row(h, h, [], [])
  {
  }

  /** One value, cloned into every element. */
  method FillArray(env: Env, arg: Arg, size: nat, ghost h: Heap, ghost e: Machine.Env) returns (r: Got<HeapValue>, ghost h': Heap)
    requires Current(h) && env.Stands(h, e)
    ensures Current(h') && fresh(New(h, h')) && Extended(h, h', env, e)
    ensures match (r, Machine.ArgValue(e, arg))
      case (Ok(x), Success(v)) => var vs := seq(size, _ => v); Tree(h', x, Arr(vs)) && Foot(h', x, Arr(vs)) <= New(h, h')
      case (Bad(f), Failure(g)) => Alike(f, g)
      case _ => false
  {
    hide Machine.ArgValue, Family, FamilyFoot, Tree, Foot, Row, CellTree, CellFoot;
    var cached, h1 := ArgToValue(env, arg, h, e);
    if cached.Bad? {
      return Bad(cached.fault), h1;
    }
    ghost var v := Machine.ArgValue(e, arg).value;
    ghost var all := seq(size, _ => v);
    var cells: seq<Cell> := [];
    h' := h1;
    NoRow(h1);
    FootIn(h1, cached.value, v);
    for i := 0 to size
      invariant Current(h') && fresh(New(h, h')) && Row(h1, h', cells, all[..i]) && Grown(h1, h')
    {
      ghost var h2 := h';
      Frame(h1, h2, cached.value, v);
      var copy, h3 := CloneValue(cached.value, h2, v);
      assert New(h, h3) == New(h, h2) + New(h2, h3);
      var c;
      c, h' := Box(copy, h2, h3, v);
      assert New(h, h') == New(h, h3) + New(h3, h');
      RowMore(h1, h2, h', cells, all[..i], c, v);
      assert all[..i] + [v] == all[..i + 1];
      cells := cells + [c];
    }
    assert all[..size] == all;
    RowTree(h1, h', cells, all);
    assert New(h1, h') <= New(h, h');
    StillStands(h, h', env, e);
    r := Ok(HArr(cells));
  }

  /** One field of a new structure. */
  method BuildField(env: Env, arg: Arg, ghost h: Heap, ghost e: Machine.Env) returns (r: Got<Cell>, ghost h': Heap)
    requires Current(h) && env.Stands(h, e)
    ensures Current(h') && fresh(New(h, h')) && Extended(h, h', env, e)
    ensures match (r, Machine.ArgValue(e, arg))
      case (Ok(c), Success(v)) => CellTree(h', c, v) && CellFoot(h', c, v) <= New(h, h')
      case (Bad(f), Failure(g)) => IsPanic(f) && IsPanic(g)
      case _ => false
  {
    hide Machine.ArgValue, Tree, Foot, CellTree, CellFoot, Family, FamilyFoot;
    var x, h1 := ArgToValue(env, arg, h, e);
    h' := h1;
    ArgPanics(e, arg);
    if x.Bad? {
      return Bad(x.fault), h1;
    }
    var c;
    c, h' := Box(x.value, h, h1, Machine.ArgValue(e, arg).value);
    assert New(h, h') == New(h, h1) + New(h1, h');
    StillStands(h, h', env, e);
    r := Ok(c);
  }

  /** A new structure: its fields are read in no particular order. */
  method BuildStruct(env: Env, fields: map<string, Arg>, ghost h: Heap, ghost e: Machine.Env) returns (r: Got<HeapValue>, ghost h': Heap)
    requires Current(h) && env.Stands(h, e)
    ensures Current(h') && fresh(New(h, h')) && Extended(h, h', env, e)
    ensures match (r, Machine.FieldValues(e, fields))
      case (Ok(x), Success(m)) => Tree(h', x, Struct(m)) && Foot(h', x, Struct(m)) <= New(h, h')
      case (Bad(f), Failure(g)) => IsPanic(f) && IsPanic(g)
      case _ => false
  {
    hide Machine.ArgValue, Tree, Foot, CellTree, CellFoot, Family, FamilyFoot, EnvStands, EnvFoot;
    var cells: map<string, Cell> := map[];
    ghost var vals: map<string, Value> := map[];
    var rest := fields.Keys;
    h' := h;
    NoFamily(h, cells, vals);
    StillStands(h, h, env, e);
    while rest != {}
      invariant Current(h') && fresh(New(h, h')) && Extended(h, h', env, e)
      invariant Family(h', cells, vals) && FamilyFoot(h', cells, vals) <= New(h, h')
      invariant rest <= fields.Keys && vals.Keys == fields.Keys - rest
      invariant forall k :: k in vals ==> Machine.ArgValue(e, fields[k]) == Success(vals[k])
    {
      var k :| k in rest;
      ghost var h1 := h';
      var c;
      c, h' := BuildField(env, fields[k], h1, e);
      assert New(h, h') == New(h, h1) + New(h1, h');
      if c.Bad? {
        return Bad(c.fault), h';
      }
      ghost var v := Machine.ArgValue(e, fields[k]).value;
      FamilyMore(h, h1, h', cells, vals, k, c.value, v);
      cells, vals, rest := cells[k := c.value], vals[k := v], rest - {k};
    }
    r := Ok(HStruct(cells));
    assert vals == Machine.FieldValues(e, fields).value;
    StructIsFamily(h', cells, vals);
  }

  lemma ArgPanics(e: Machine.Env, arg: Arg)
    ensures Machine.ArgValue(e, arg).Failure? ==> IsPanic(Machine.ArgValue(e, arg).error)
  {
    hide Machine.Fetch;
    if arg.Loc? {
      FetchPanics(e, arg.loc);
    }
  }

  /** The value of an instruction that computes one. */
  method Compute(fl: Floats, instr: Instruction, env: Env, ghost h: Heap, ghost e: Machine.Env) returns (r: Got<HeapValue>, ghost h': Heap)
    requires Current(h) && env.Stands(h, e) && Target(instr).Some?
    ensures Current(h') && fresh(New(h, h')) && Extended(h, h', env, e)
    ensures Made(r, Computed(fl, instr, e), h, h')
  {
    hide Machine.ArgValue, Machine.ArgValues, Machine.FieldValues, Tree, Foot, Family, FamilyFoot;
    if instr.Store? {
      r, h' := ArgToValue(env, instr.arg, h, e);
    } else if instr.StoreStructure? {
      r, h' := BuildStruct(env, instr.fields, h, e);
    } else if instr.StoreArray1? {
      r, h' := BuildArray(env, instr.args, h, e);
    } else if instr.StoreArray2? {
      r, h' := FillArray(env, instr.arg, instr.size, h, e);
    } else if instr.NegateInstr? {
      r, h' := Negated(fl, env, instr.arg, h, e);
    } else {
      r := ComputeOperator(fl, instr, env, h, e);
      h' := h;
      StillStands(h, h, env, e);
      if r.Ok? {
        ScalarMade(Computed(fl, instr, e).value, h);
      }
    }
  }

  method Negated(fl: Floats, env: Env, arg: Arg, ghost h: Heap, ghost e: Machine.Env) returns (r: Got<HeapValue>, ghost h': Heap)
    requires Current(h) && env.Stands(h, e)
    ensures Current(h') && fresh(New(h, h')) && Extended(h, h', env, e)
    ensures var v := Machine.ArgValue(e, arg); Made(r, if v.Failure? then v else NegateValue(fl, v.value), h, h')
  {
    hide Machine.ArgValue, Family, FamilyFoot, Foot;
    h' := h;
    StillStands(h, h, env, e);
    var x, _ := ArgToValue(env, arg, h, e);
    match x {
      case Bad(f) => r := Bad(f);
      case Ok(HInt(i)) =>
        var z := CheckedInt(-(i as int));
        if z.Success? {
          ScalarMade(Int(z.value), h);
        }
        r := if z.Failure? then Bad(z.error) else Ok(HInt(z.value));
      case Ok(HFloat(f)) =>
        ScalarMade(Float(fl.negate(f)), h);
        r := Ok(HFloat(fl.negate(f)));
      case Ok(_) => r := Bad(ExpectedInt);
    }
  }
}
