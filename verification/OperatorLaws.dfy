/** What the operators compute, said without saying how: of the primitives, of the instruction that executes them and of
    the expression they are written as. */
module OperatorLaws {
  import opened Values
  import opened Syntax
  import opened ByteCode
  import opened Machine
  import opened Evaluator

  // ---------------------------------------------------------------- integer arithmetic

  function Abs(x: int): nat { if x < 0 then -x else x }

  /** `q` and `r` are quotient and remainder of a division that rounds toward zero. */
  predicate Divides(a: int, b: int, q: int, r: int) {
    a == q * b + r && Abs(r) < Abs(b) && (r == 0 || (r > 0 <==> a > 0))
  }

  /** `c` is the mathematical result. */
  ghost predicate IsResult(op: ArithOp, a: int, b: int, c: int) {
    match op
    case Add => c - b == a
    case Sub => c + b == a
    case Mul => c == a * b
    case Div => exists r :: Divides(a, b, c, r)
    case Mod => exists q :: Divides(a, b, q, c)
  }

  /** A sum, difference or product that is no 64-bit number; a zero divisor; the one quotient that is out of range,
      which spoils the remainder too. */
  ghost predicate Overflows(op: ArithOp, a: i64, b: i64) {
    match op
    case Div => b == 0 || (a == MIN_I64 && b == -1)
    case Mod => b == 0 || (a == MIN_I64 && b == -1)
    case _ => !exists c: i64 :: IsResult(op, a, b, c)
  }

  lemma TruncationDivides(a: int, b: int)
    requires b != 0
    ensures var q := TruncatedDiv(a, b); Divides(a, b, q, a - q * b) && Abs(q) <= Abs(a)
  {
    var m := Abs(a);
    Euclid(m, b);
    var d, r := m / b, m % b;
    if a < 0 {
      Opposite(d, b);
    }
    QuotientBound(m, b, d, r);
  }

  lemma Euclid(m: nat, b: int)
    requires b != 0
    ensures m == (m / b) * b + m % b && 0 <= m % b < Abs(b)
  {
  }

  lemma Opposite(d: int, b: int)
    ensures -d * b == -(d * b)
  {
  }

  lemma QuotientBound(m: nat, b: int, d: int, r: nat)
    requires b != 0 && m == d * b + r && r < Abs(b)
    ensures Abs(d) <= m
  {
    if d != 0 {
      ProductAbs(d, b);
    }
  }

  lemma ProductAbs(d: int, b: int)
    requires b != 0 && d != 0
    ensures Abs(d * b) >= Abs(d) && Abs(d * b) >= Abs(b)
  {
    AbsProduct(d, b);
    Grows(Abs(d), Abs(b));
    Grows(Abs(b), Abs(d));
  }

  lemma AbsProduct(d: int, b: int)
    ensures Abs(d * b) == Abs(d) * Abs(b)
  {
    if d >= 0 && b < 0 {
      assert d * b == -(d * -b);
      Positive(d, -b);
    } else if d < 0 && b >= 0 {
      assert d * b == -(-d * b);
      Positive(-d, b);
    } else if d < 0 {
      assert d * b == -d * -b;
      Positive(-d, -b);
    } else {
      Positive(d, b);
    }
  }

  lemma Positive(x: nat, y: nat)
    ensures x * y >= 0
  {
  }

  lemma Grows(x: nat, y: nat)
    requires y > 0
    ensures x * y >= x && y * x >= x
  {
    Positive(x, y - 1);
    assert x * y == x * (y - 1) + x;
  }

  /** Quotient and remainder are determined. */
  lemma DivisionUnique(a: int, b: int, q: int, r: int, q': int, r': int)
    requires Divides(a, b, q, r) && Divides(a, b, q', r')
    ensures q == q' && r == r'
  {
    assert (q - q') * b == r' - r;
    if q != q' {
      ProductAbs(q - q', b);
    }
  }

  lemma ResultUnique(op: ArithOp, a: int, b: int, c: int, d: int)
    requires IsResult(op, a, b, c) && IsResult(op, a, b, d)
    ensures c == d
  {
    if op.Div? {
      var r :| Divides(a, b, c, r);
      var s :| Divides(a, b, d, s);
      DivisionUnique(a, b, c, r, d, s);
    } else if op.Mod? {
      var q :| Divides(a, b, q, c);
      var s :| Divides(a, b, s, d);
      DivisionUnique(a, b, q, c, s, d);
    }
  }

  /** Arithmetic is exact: the mathematical result where there is one, a panic otherwise. */
  lemma ArithIsExact(op: ArithOp, a: i64, b: i64, c: i64)
    ensures IntArith(op, a, b) == Success(c) <==> !Overflows(op, a, b) && IsResult(op, a, b, c)
    ensures IntArith(op, a, b) == Failure(ArithPanic) <==> Overflows(op, a, b)
    ensures IntArith(op, a, b).Failure? ==> IntArith(op, a, b) == Failure(ArithPanic)
  {
    match op {
      case Add => Ranged(op, a, b, a + b);
      case Sub => Ranged(op, a, b, a - b);
      case Mul => Ranged(op, a, b, a * b);
      case Div => DivisionIsExact(a, b, c);
      case Mod => DivisionIsExact(a, b, c);
    }
  }

  lemma Ranged(op: ArithOp, a: i64, b: i64, x: int)
    requires (op.Add? || op.Sub? || op.Mul?) && IsResult(op, a, b, x)
    ensures Overflows(op, a, b) <==> !(MIN_I64 <= x <= MAX_I64)
  {
    if MIN_I64 <= x <= MAX_I64 {
      var c: i64 := x;
      assert IsResult(op, a, b, c);
    }
  }

  lemma DivisionIsExact(a: i64, b: i64, c: i64)
    ensures IntArith(Div, a, b) == Success(c) <==> !Overflows(Div, a, b) && IsResult(Div, a, b, c)
    ensures IntArith(Mod, a, b) == Success(c) <==> !Overflows(Mod, a, b) && IsResult(Mod, a, b, c)
    ensures IntArith(Div, a, b) == Failure(ArithPanic) <==> Overflows(Div, a, b)
    ensures IntArith(Mod, a, b) == Failure(ArithPanic) <==> Overflows(Mod, a, b)
  {
    if b != 0 {
      var q := TruncatedDiv(a, b);
      var r := a - q * b;
      TruncationDivides(a, b);
      OnlyOverflow(a, b, q, r);
      assert IsResult(Div, a, b, q) && IsResult(Mod, a, b, r);
      if IsResult(Div, a, b, c) {
        ResultUnique(Div, a, b, c, q);
      }
      if IsResult(Mod, a, b, c) {
        ResultUnique(Mod, a, b, c, r);
      }
    }
  }

  /** The smallest number has no negation. */
  lemma OnlyOverflow(a: i64, b: i64, q: int, r: int)
    requires b != 0 && Divides(a, b, q, r) && Abs(q) <= Abs(a)
    ensures MIN_I64 <= q <= MAX_I64 <==> !(a == MIN_I64 && b == -1)
    ensures MIN_I64 <= r <= MAX_I64
  {
    if a == MIN_I64 && b == -1 {
      assert r == 0;
    } else if q == -MIN_I64 {
      if Abs(b) >= 2 {
        TwiceAbs(q, b);
      }
    }
  }

  lemma TwiceAbs(q: int, b: int)
    requires Abs(b) >= 2
    ensures Abs(q * b) >= 2 * Abs(q)
  {
    AbsProduct(q, b);
    Positive(Abs(q), Abs(b) - 2);
    assert Abs(q) * Abs(b) == Abs(q) * (Abs(b) - 2) + 2 * Abs(q);
  }

  /** Subtraction undoes addition, and the other way round. */
  lemma SubUndoesAdd(a: i64, b: i64, c: i64)
    ensures IntArith(Sub, a, b) == Success(c) <==> IntArith(Add, c, b) == Success(a)
  {
    ArithIsExact(Sub, a, b, c);
    ArithIsExact(Add, c, b, a);
  }

  /** Addition and multiplication by unit and successor. */
  lemma UnitAndSuccessor(a: i64, b: i64, c: i64, d: i64)
    requires b < MAX_I64
    ensures IntArith(Add, a, 0) == Success(a) && IntArith(Mul, a, 0) == Success(0) && IntArith(Mul, a, 1) == Success(a)
    ensures IntArith(Add, a, b) == Success(c) && IntArith(Add, a, b + 1) == Success(d) ==> IntArith(Add, c, 1) == Success(d)
    ensures IntArith(Mul, a, b) == Success(c) && IntArith(Mul, a, b + 1) == Success(d) ==> IntArith(Add, c, a) == Success(d)
  {
    assert a * (b + 1) == a * b + a;
  }

  // ---------------------------------------------------------------- comparison, logic, negation

  /** The difference is positive. */
  predicate Below(a: int, b: int) { b - a > 0 }

  /** One of three: the first is below, above, or both are the same; the other two comparisons are their complements. */
  lemma Trichotomy(fl: Floats, a: i64, b: i64)
    ensures IntCompare(Lesser, a, b) <==> Below(a, b)
    ensures IntCompare(Greater, a, b) <==> Below(b, a)
    ensures IntCompare(GreaterEq, a, b) <==> !Below(a, b)
    ensures IntCompare(LesserEq, a, b) <==> !Below(b, a)
    ensures ValueEq(fl, Int(a), Int(b)) <==> !Below(a, b) && !Below(b, a)
  {
  }

  /** Negation gives what adds up to zero; only the smallest number has none. */
  lemma NegationIsExact(fl: Floats, a: i64, c: i64)
    ensures NegateValue(fl, Int(a)) == Success(Int(c)) <==> IntArith(Add, a, c) == Success(0)
    ensures NegateValue(fl, Int(a)) == Failure(ArithPanic) <==> a == MIN_I64
  {
  }

  function AndValue(a: bool, b: bool): Result<Value> { LogicValue(true, Bool(a), Bool(b)) }

  function OrValue(a: bool, b: bool): Result<Value> { LogicValue(false, Bool(a), Bool(b)) }

  /** A conjunction holds when nothing in it fails to, a disjunction when something in it does; inversion exchanges them. */
  lemma LogicLaws(a: bool, b: bool, v: Value)
    ensures AndValue(a, b) == Success(Bool(true)) <==> false !in {a, b}
    ensures OrValue(a, b) == Success(Bool(true)) <==> true in {a, b}
    ensures InvertValue(Bool(a)) == Success(v) <==> v.Bool? && v.b != a
    ensures AndValue(!a, !b).value == InvertValue(OrValue(a, b).value).value
  {
  }

  // ---------------------------------------------------------------- as instructions and as expressions

  /** What an arithmetic instruction stores. */
  lemma ArithInstruction(fl: Floats, op: ArithOp, loc: Location, a1: Arg, a2: Arg, env: Env, reg: Option<Value>, a: i64, b: i64)
    requires IntOperand(env, a1) == Success(a) && IntOperand(env, a2) == Success(b)
    ensures var r := Execute(fl, IntOp(op, loc, a1, a2), env, reg);
      if Overflows(op, a, b) then r == Failure(ArithPanic)
      else exists c: i64 :: IsResult(op, a, b, c) && r == StoreResult(env, reg, loc, Int(c))
  {
    hide IntOperand, StoreResult, IsResult, Overflows;
    var z := IntArith(op, a, b);
    ArithIsExact(op, a, b, if z.Success? then z.value else 0);
  }

  /** And what the expression it is compiled from evaluates to. */
  lemma ArithExpression(w: World, op: ArithOp, l: Expr, r: Expr, vars: Vars, fuel: nat, a: i64, b: i64)
    requires Eval(w, l, vars, fuel) == Success(Int(a)) && Eval(w, r, vars, fuel) == Success(Int(b))
    ensures var v := Eval(w, Bin(Arith(op), IntType, l, r), vars, fuel);
      if Overflows(op, a, b) then v == Failure(ArithPanic) else v.Success? && v.value.Int? && IsResult(op, a, b, v.value.i)
  {
    hide IsResult, Overflows, IntArith;
    var z := IntArith(op, a, b);
    ArithIsExact(op, a, b, if z.Success? then z.value else 0);
  }

  /** The flag an ordering instruction stores. */
  predicate Compares(cmp: CompareOp, a: int, b: int) {
    match cmp
    case Lesser => Below(a, b)
    case Greater => Below(b, a)
    case LesserEq => !Below(b, a)
    case GreaterEq => !Below(a, b)
  }

  lemma CompareInstruction(fl: Floats, cmp: CompareOp, loc: Location, a1: Arg, a2: Arg, env: Env, reg: Option<Value>, a: i64, b: i64)
    requires IntOperand(env, a1) == Success(a) && IntOperand(env, a2) == Success(b)
    ensures Execute(fl, CompareInt(cmp, loc, a1, a2), env, reg) == StoreResult(env, reg, loc, Bool(Compares(cmp, a, b)))
  {
    hide IntOperand, StoreResult;
    Trichotomy(fl, a, b);
  }

  lemma CompareExpression(w: World, cmp: CompareOp, l: Expr, r: Expr, vars: Vars, fuel: nat, a: i64, b: i64)
    requires Eval(w, l, vars, fuel) == Success(Int(a)) && Eval(w, r, vars, fuel) == Success(Int(b))
    ensures var v := Eval(w, Bin(Compare(cmp), IntType, l, r), vars, fuel);
      v.Success? && v.value.Bool? && (v.value.b <==> Compares(cmp, a, b))
  {
    Trichotomy(w.floats, a, b);
  }

  /** `-a` and `!a`. */
  lemma UnaryExpressions(w: World, e: Expr, vars: Vars, fuel: nat, v: Value)
    requires Eval(w, e, vars, fuel) == Success(v)
    ensures v.Int? ==>
      var n := Eval(w, Uni(Negate, e), vars, fuel);
      if n.Success? then n.value.Int? && n.value.i + v.i == 0 else v.i == MIN_I64
    ensures v.Bool? ==>
      var n := Eval(w, Uni(LogicalInvert, e), vars, fuel);
      n.Success? && n.value.Bool? && n.value.b != v.b
  {
    hide EvalList, EvalCall, EvalChain, EvalIndex, EvalPath, ReadPath, FieldMap, BinValue;
  }

  /** The two connectives, of which neither looks whether it could do without its second operand. */
  lemma ConnectiveExpressions(w: World, l: Expr, r: Expr, vars: Vars, fuel: nat, a: bool)
    requires Eval(w, l, vars, fuel) == Success(Bool(a))
    ensures var both, one, b := Eval(w, Bin(LogicalAnd, IntType, l, r), vars, fuel), Eval(w, Bin(LogicalOr, IntType, l, r), vars, fuel), Eval(w, r, vars, fuel);
      && (b.Failure? ==> both == b && one == b)
      && (b.Success? && b.value.Bool? ==> both == Success(Bool(false !in {a, b.value.b})) && one == Success(Bool(true in {a, b.value.b})))
  {
    hide EvalList, EvalCall, EvalChain, EvalIndex, EvalPath, ReadPath, FieldMap, UniValue;
  }

  /** An operand of the wrong kind stops the instruction with the fault of the kind that was expected, the first operand
      before the second. */
  lemma WrongOperand(fl: Floats, loc: Location, x: Name, y: Name, env: Env, reg: Option<Value>, op: ArithOp, cmp: CompareOp)
    requires x in env.tmps && y in env.tmps
    ensures var v, w, a, b := env.tmps[x], env.tmps[y], Loc(Location.Tmp(x)), Loc(Location.Tmp(y));
      && (!v.Int? || !w.Int? ==>
            Execute(fl, IntOp(op, loc, a, b), env, reg) == Failure(ExpectedInt) == Execute(fl, CompareInt(cmp, loc, a, b), env, reg))
      && (!v.Float? || !w.Float? ==>
            Execute(fl, FloatOp(op, loc, a, b), env, reg) == Failure(ExpectedFloat) == Execute(fl, CompareFloat(cmp, loc, a, b), env, reg))
      && (!v.Bool? || !w.Bool? ==>
            Execute(fl, And(loc, a, b), env, reg) == Failure(ExpectedBool) == Execute(fl, Or(loc, a, b), env, reg))
      && (!v.Bool? ==> Execute(fl, Invert(loc, a), env, reg) == Failure(ExpectedBool))
      && (!v.Int? && !v.Float? ==> Execute(fl, NegateInstr(loc, a), env, reg) == Failure(ExpectedInt))
  {
    hide StoreResult, IntArith, IntCompare;
  }

  // ---------------------------------------------------------------- the instruction pointer

  /** A relative jump goes as far as it says, as long as that is an unsigned 64-bit number; the two ways it is not are told
      apart. */
  lemma PointerMoves(ip: nat, offset: int, target: nat)
    ensures MoveIP(ip, offset) == Success(target) <==> target - offset == ip && target < 0x1_0000_0000_0000_0000
    ensures MoveIP(ip, offset) == Failure(IpUnderflow) <==> Below(ip, -offset)
    ensures MoveIP(ip, offset) == Failure(IpOverflow) <==> Below(0xffff_ffff_ffff_ffff, ip + offset)
  {
  }
}
