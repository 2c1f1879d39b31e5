/** Run-time values of the interpreter, the faults it can raise, and the primitive
    operations that both the source-level evaluator and the executor rest on. */
module Values {

  datatype Option<+T> = None | Some(value: T)

  /** Everything that ends a run without a value.  The `...Panic` cases are Rust panics, the others
      are the interpreter's own error values; `OutOfFuel` belongs to the evaluator alone. */
  datatype Fault =
    | ExpectedInt | ExpectedFloat | ExpectedBool | ExpectedFunction
    | InvalidInstruction
    | NoReturnValue
    | IpOutOfBounds | IpUnderflow | IpOverflow
    | InvalidArgCount
    | BuiltinFault
    | ArithPanic | IndexPanic | ShapePanic | FieldPanic | UnboundPanic | UnknownFnPanic
    | StrayJump
    | OutOfFuel

  datatype Result<+T> = Success(value: T) | Failure(error: Fault) {
    predicate IsFailure() { Failure? }
    function PropagateFailure<U>(): Result<U>
      requires Failure?
    {
      Failure(error)
    }
    function Extract(): T
      requires Success?
    {
      value
    }
  }

  const MIN_I64: int := -0x8000_0000_0000_0000
  const MAX_I64: int := 0x7fff_ffff_ffff_ffff
  const MAX_U64: int := 0xffff_ffff_ffff_ffff

  type i64 = x: int | MIN_I64 <= x <= MAX_I64

  /** A float is an opaque bit pattern; what can be done with one is given by `Floats`. */
  type FloatBits = nat

  type FnId = nat

  datatype Value =
    | Int(i: i64)
    | Float(f: FloatBits)
    | Bool(b: bool)
    | Str(s: string)
    | Arr(elems: seq<Value>)
    | Fn(id: FnId)
    | Struct(fields: map<string, Value>)
    | Unit

  datatype ArithOp = Add | Sub | Mul | Div | Mod
  datatype CompareOp = GreaterEq | LesserEq | Greater | Lesser
  datatype BinOp = Arith(op: ArithOp) | Compare(cmp: CompareOp) | LogicalAnd | LogicalOr | Eq | InEq
  datatype UniOp = Negate | LogicalInvert

  /** The type the checker recorded for the left operand of an arithmetic or ordering operator. */
  datatype NumType = IntType | FloatType

  datatype Floats = Floats(
    arith: (ArithOp, FloatBits, FloatBits) -> FloatBits,
    compare: (CompareOp, FloatBits, FloatBits) -> bool,
    equal: (FloatBits, FloatBits) -> bool,
    negate: FloatBits -> FloatBits)

  // ---------------------------------------------------------------- integer arithmetic

  /** Rust's integer division rounds toward zero. */
  function TruncatedDiv(a: int, b: int): int
    requires b != 0
  {
    if a >= 0 then a / b else -((-a) / b)
  }

  function CheckedInt(x: int): Result<i64> {
    if MIN_I64 <= x <= MAX_I64 then Success(x) else Failure(ArithPanic)
  }

  function IntArith(op: ArithOp, a: i64, b: i64): Result<i64> {
    match op
    case Add => CheckedInt(a + b)
    case Sub => CheckedInt(a - b)
    case Mul => CheckedInt(a * b)
    case Div => if b == 0 then Failure(ArithPanic) else CheckedInt(TruncatedDiv(a, b))
    case Mod =>
      if b == 0 then Failure(ArithPanic)
      else
        var q :- CheckedInt(TruncatedDiv(a, b));
        CheckedInt(a - q * b)
  }

  function IntCompare(op: CompareOp, a: i64, b: i64): bool {
    match op
    case GreaterEq => a >= b
    case LesserEq => a <= b
    case Greater => a > b
    case Lesser => a < b
  }

  // ---------------------------------------------------------------- structural equality

  /** The derived equality of values looks through cells; floats compare by the host's rule. */
  predicate ValueEq(fl: Floats, a: Value, b: Value) {
    match (a, b)
    case (Int(x), Int(y)) => x == y
    case (Float(x), Float(y)) => fl.equal(x, y)
    case (Bool(x), Bool(y)) => x == y
    case (Str(x), Str(y)) => x == y
    case (Arr(xs), Arr(ys)) => |xs| == |ys| && forall i :: 0 <= i < |xs| ==> ValueEq(fl, xs[i], ys[i])
    case (Fn(x), Fn(y)) => x == y
    case (Struct(xs), Struct(ys)) => xs.Keys == ys.Keys && forall k :: k in xs ==> ValueEq(fl, xs[k], ys[k])
    case (Unit, Unit) => true
    case _ => false
  }

  // ---------------------------------------------------------------- operators on values

  function AsInt(v: Value): Result<i64> {
    if v.Int? then Success(v.i) else Failure(ExpectedInt)
  }

  function AsFloat(v: Value): Result<FloatBits> {
    if v.Float? then Success(v.f) else Failure(ExpectedFloat)
  }

  function AsBool(v: Value): Result<bool> {
    if v.Bool? then Success(v.b) else Failure(ExpectedBool)
  }

  function IntOpValue(op: ArithOp, a: Value, b: Value): Result<Value> {
    var x :- AsInt(a);
    var y :- AsInt(b);
    var z :- IntArith(op, x, y);
    Success(Int(z))
  }

  function FloatOpValue(fl: Floats, op: ArithOp, a: Value, b: Value): Result<Value> {
    var x :- AsFloat(a);
    var y :- AsFloat(b);
    Success(Float(fl.arith(op, x, y)))
  }

  function CompareIntValue(op: CompareOp, a: Value, b: Value): Result<Value> {
    var x :- AsInt(a);
    var y :- AsInt(b);
    Success(Bool(IntCompare(op, x, y)))
  }

  function CompareFloatValue(fl: Floats, op: CompareOp, a: Value, b: Value): Result<Value> {
    var x :- AsFloat(a);
    var y :- AsFloat(b);
    Success(Bool(fl.compare(op, x, y)))
  }

  function LogicValue(conjunction: bool, a: Value, b: Value): Result<Value> {
    var x :- AsBool(a);
    var y :- AsBool(b);
    Success(Bool(if conjunction then x && y else x || y))
  }

  function NegateValue(fl: Floats, a: Value): Result<Value> {
    match a
    case Int(i) =>
      var x: int := i;
      var z :- CheckedInt(-x);
      Success(Int(z))
    case Float(f) => Success(Float(fl.negate(f)))
    case _ => Failure(ExpectedInt)
  }

  function InvertValue(a: Value): Result<Value> {
    var x :- AsBool(a);
    Success(Bool(!x))
  }

  // ---------------------------------------------------------------- paths into values

  /** One step from a value to a value inside it. */
  datatype PathStep = ToField(field: string) | ToIndex(index: Value)

  /** The cell a single step leads to. */
  function ReadStep(v: Value, s: PathStep): Result<Value> {
    match s
    case ToField(f) =>
      if !v.Struct? then Failure(ShapePanic)
      else if f !in v.fields then Failure(FieldPanic)
      else Success(v.fields[f])
    case ToIndex(i) =>
      if !i.Int? || !v.Arr? then Failure(ShapePanic)
      else if !(0 <= i.i < |v.elems|) then Failure(IndexPanic)
      else Success(v.elems[i.i])
  }

  function ReadPath(v: Value, steps: seq<PathStep>): Result<Value> {
    if steps == [] then Success(v)
    else
      var inner :- ReadStep(v, steps[0]);
      ReadPath(inner, steps[1..])
  }

  function WriteStep(v: Value, s: PathStep, inner: Value): Value
    requires ReadStep(v, s).Success?
  {
    match s
    case ToField(f) => Struct(v.fields[f := inner])
    case ToIndex(i) => Arr(v.elems[i.i := inner])
  }

  function WritePath(v: Value, steps: seq<PathStep>, leaf: Value): Result<Value> {
    if steps == [] then Success(leaf)
    else
      var inner :- ReadStep(v, steps[0]);
      var inner' :- WritePath(inner, steps[1..], leaf);
      Success(WriteStep(v, steps[0], inner'))
  }

  // ---------------------------------------------------------------- struct initialisers

  /** The map a list of named initialisers builds; a repeated name keeps its last initialiser. */
  function FieldMap<T>(names: seq<string>, xs: seq<T>): map<string, T> {
    if names == [] || xs == [] then map[]
    else map[names[0] := xs[0]] + FieldMap(names[1..], xs[1..])
  }
}
