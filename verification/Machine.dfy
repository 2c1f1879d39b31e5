/** The executor as a transition system over pure value trees.  `Executor` shows that the
    executor over shared cells is an implementation of it. */
module Machine {
  import opened Values
  import opened ByteCode

  datatype Env = Env(vars: map<Name, Value>, tmps: map<Name, Value>)

  datatype Compiled = Compiled(params: seq<string>, code: seq<Instruction>)

  datatype Program = Program(
    code: map<FnId, Compiled>,
    builtins: set<FnId>,
    builtin: (FnId, seq<Value>) -> Option<Value>,
    floats: Floats)

  datatype Frame = ByteFrame(fn: FnId, ip: nat, env: Env) | BuiltinFrame(builtin: FnId, args: seq<Value>)

  datatype State = State(top: Frame, stack: seq<Frame>, register: Option<Value>)

  datatype Outcome = Running(state: State) | Finished(value: Value) | Faulted(fault: Fault)

  // ---------------------------------------------------------------- environments

  function Get(env: Env, x: Name): Option<Value> {
    if x in env.vars then Some(env.vars[x])
    else if x in env.tmps then Some(env.tmps[x])
    else None
  }

  /** The index temporaries of a compound location, read into the steps it takes. */
  function PathSteps(env: Env, path: seq<FieldAccess>): Result<seq<PathStep>> {
    if path == [] then Success([])
    else match path[0] {
      case Field(f) =>
        var rest :- PathSteps(env, path[1..]);
        Success([ToField(f)] + rest)
      case FieldIndex(f, x) =>
        var i := Get(env, x);
        if i.None? then Failure(UnboundPanic)
        else
          var rest :- PathSteps(env, path[1..]);
          Success([ToField(f), ToIndex(i.value)] + rest)
    }
  }

  function CompoundSteps(env: Env, rootIndex: Option<Name>, path: seq<FieldAccess>): Result<seq<PathStep>> {
    match rootIndex
    case None => PathSteps(env, path)
    case Some(x) =>
      var i := Get(env, x);
      if i.None? then Failure(UnboundPanic)
      else
        var rest :- PathSteps(env, path);
        Success([ToIndex(i.value)] + rest)
  }

  function Fetch(env: Env, loc: Location): Result<Value> {
    match loc
    case Compound(root, rootIndex, path) =>
      var v := Get(env, root);
      if v.None? then Failure(UnboundPanic)
      else
        var steps :- CompoundSteps(env, rootIndex, path);
        ReadPath(v.value, steps)
    case Namespace(x) => if x in env.vars then Success(env.vars[x]) else Failure(UnboundPanic)
    case Tmp(x) => if x in env.tmps then Success(env.tmps[x]) else Failure(UnboundPanic)
  }

  function StoreAt(env: Env, loc: Location, value: Value): Result<Env> {
    match loc
    case Compound(root, rootIndex, path) =>
      var v := Get(env, root);
      if v.None? then Failure(UnboundPanic)
      else
        var steps :- CompoundSteps(env, rootIndex, path);
        var v' :- WritePath(v.value, steps, value);
        Success(if root in env.vars then env.(vars := env.vars[root := v'])
                else env.(tmps := env.tmps[root := v']))
    case Namespace(x) => Success(env.(vars := env.vars[x := value]))
    case Tmp(x) => Success(env.(tmps := env.tmps[x := value]))
  }

  function ArgValue(env: Env, arg: Arg): Result<Value> {
    match arg
    case Loc(loc) => Fetch(env, loc)
    case IntArg(i) => Success(Int(i))
    case FloatArg(f) => Success(Float(f))
    case BoolArg(b) => Success(Bool(b))
    case StringArg(s) => Success(Str(s))
  }

  function ArgValues(env: Env, args: seq<Arg>): Result<seq<Value>> {
    if args == [] then Success([])
    else
      var v :- ArgValue(env, args[0]);
      var vs :- ArgValues(env, args[1..]);
      Success([v] + vs)
  }

  /** The operand of a typed instruction: a constant must already have the instruction's type. */
  function Operand(env: Env, arg: Arg, rightConstant: bool): Result<Value> {
    if arg.Loc? then Fetch(env, arg.loc)
    else if rightConstant then ArgValue(env, arg)
    else Failure(InvalidInstruction)
  }

  function IntOperand(env: Env, arg: Arg): Result<i64> {
    var v :- Operand(env, arg, arg.IntArg?);
    AsInt(v)
  }

  function FloatOperand(env: Env, arg: Arg): Result<FloatBits> {
    var v :- Operand(env, arg, arg.FloatArg?);
    AsFloat(v)
  }

  function BoolOperand(env: Env, arg: Arg): Result<bool> {
    var v :- Operand(env, arg, arg.BoolArg?);
    AsBool(v)
  }

  // ---------------------------------------------------------------- one instruction

  datatype Action =
    | IncrementIP(env: Env, register: Option<Value>)
    | SetIP(target: nat)
    | AddIP(offset: int)
    | PushStack(id: FnId, args: seq<Value>)
    | PopStack(value: Value)

  function StoreResult(env: Env, reg: Option<Value>, loc: Location, v: Value): Result<Action> {
    var env' :- StoreAt(env, loc, v);
    Success(IncrementIP(env', reg))
  }

  /** The field values of a structure.  They are read in no particular order. */
  function FieldValues(env: Env, fields: map<string, Arg>): Result<map<string, Value>> {
    if forall k :: k in fields ==> ArgValue(env, fields[k]).Success?
    then Success(map k | k in fields :: ArgValue(env, fields[k]).value)
    else Failure(UnboundPanic)
  }

  function Execute(fl: Floats, instr: Instruction, env: Env, reg: Option<Value>): Result<Action> {
    match instr
    case Store(loc, arg) =>
      var v :- ArgValue(env, arg);
      StoreResult(env, reg, loc, v)
    case StoreStructure(loc, fields) =>
      var m :- FieldValues(env, fields);
      StoreResult(env, reg, loc, Struct(m))
    case StoreArray1(loc, args) =>
      var vs :- ArgValues(env, args);
      StoreResult(env, reg, loc, Arr(vs))
    case StoreArray2(loc, arg, size) =>
      var v :- ArgValue(env, arg);
      StoreResult(env, reg, loc, Arr(seq(size, _ => v)))
    case IntOp(op, loc, a1, a2) =>
      var x :- IntOperand(env, a1);
      var y :- IntOperand(env, a2);
      var z :- IntArith(op, x, y);
      StoreResult(env, reg, loc, Int(z))
    case FloatOp(op, loc, a1, a2) =>
      var x :- FloatOperand(env, a1);
      var y :- FloatOperand(env, a2);
      StoreResult(env, reg, loc, Float(fl.arith(op, x, y)))
    case CompareInt(cmp, loc, a1, a2) =>
      var x :- IntOperand(env, a1);
      var y :- IntOperand(env, a2);
      StoreResult(env, reg, loc, Bool(IntCompare(cmp, x, y)))
    case CompareFloat(cmp, loc, a1, a2) =>
      var x :- FloatOperand(env, a1);
      var y :- FloatOperand(env, a2);
      StoreResult(env, reg, loc, Bool(fl.compare(cmp, x, y)))
    case And(loc, a1, a2) =>
      var x :- BoolOperand(env, a1);
      var y :- BoolOperand(env, a2);
      StoreResult(env, reg, loc, Bool(x && y))
    case Or(loc, a1, a2) =>
      var x :- BoolOperand(env, a1);
      var y :- BoolOperand(env, a2);
      StoreResult(env, reg, loc, Bool(x || y))
    case EqInstr(loc, a1, a2) =>
      var v1 :- ArgValue(env, a1);
      var v2 :- ArgValue(env, a2);
      StoreResult(env, reg, loc, Bool(ValueEq(fl, v1, v2)))
    case InEqInstr(loc, a1, a2) =>
      var v1 :- ArgValue(env, a1);
      var v2 :- ArgValue(env, a2);
      StoreResult(env, reg, loc, Bool(!ValueEq(fl, v1, v2)))
    case NegateInstr(loc, a) =>
      var v :- ArgValue(env, a);
      var z :- NegateValue(fl, v);
      StoreResult(env, reg, loc, z)
    case Invert(loc, a) =>
      var x :- BoolOperand(env, a);
      StoreResult(env, reg, loc, Bool(!x))
    case FnCall(fn, args) =>
      var f :- Fetch(env, fn);
      if !f.Fn? then Failure(ExpectedFunction)
      else
        var vs :- ArgValues(env, args);
        Success(PushStack(f.id, vs))
    case Return(ret) =>
      if ret.None? then Success(PopStack(Unit))
      else
        var v :- ArgValue(env, ret.value);
        Success(PopStack(v))
    case TakeReturn(loc) =>
      if reg.None? then Failure(NoReturnValue) else StoreResult(env, None, loc, reg.value)
    case Jump(target) => Success(SetIP(target))
    case JumpCondition(target, a) =>
      var c :- BoolOperand(env, a);
      Success(if c then SetIP(target) else IncrementIP(env, reg))
    case JumpNegateCondition(target, a) =>
      var c :- BoolOperand(env, a);
      Success(if !c then SetIP(target) else IncrementIP(env, reg))
    case RelJump(off) => Success(AddIP(off))
    case RelJumpCondition(off, a) =>
      var c :- BoolOperand(env, a);
      Success(if c then AddIP(off) else IncrementIP(env, reg))
    case RelJumpNegateCondition(off, a) =>
      var c :- BoolOperand(env, a);
      Success(if !c then AddIP(off) else IncrementIP(env, reg))
  }

  // ---------------------------------------------------------------- frames

  /** Every function of the program is visible to every frame under its generated name. */
  function ModuleVars(p: Program): map<Name, Value> {
    map id | id in p.code.Keys + p.builtins :: FnName(id) := Fn(id)
  }

  function BindParams(vars: map<Name, Value>, params: seq<string>, args: seq<Value>): map<Name, Value>
    decreases |params|
  {
    if params == [] || args == [] then vars
    else BindParams(vars[User(params[0]) := args[0]], params[1..], args[1..])
  }

  function CreateFrame(p: Program, id: FnId, args: seq<Value>): Result<Frame> {
    if id in p.builtins then Success(BuiltinFrame(id, args))
    else if id !in p.code then Failure(UnknownFnPanic)
    else if |p.code[id].params| != |args| then Failure(InvalidArgCount)
    else Success(ByteFrame(id, 0, Env(BindParams(ModuleVars(p), p.code[id].params, args), map[])))
  }

  function Pop(s: State, v: Value): Outcome {
    if s.stack == [] then Finished(v)
    else Running(State(s.stack[|s.stack| - 1], s.stack[..|s.stack| - 1], Some(v)))
  }

  function MoveIP(ip: nat, offset: int): Result<nat> {
    if ip + offset < 0 then Failure(IpUnderflow)
    else if ip + offset > MAX_U64 then Failure(IpOverflow)
    else Success(ip + offset)
  }

  function Step(p: Program, s: State): Outcome {
    match s.top
    case BuiltinFrame(id, args) =>
      var r := p.builtin(id, args);
      if r.None? then Faulted(BuiltinFault) else Pop(s, r.value)
    case ByteFrame(fn, ip, env) =>
      if fn !in p.code then Faulted(UnknownFnPanic)
      else if ip >= |p.code[fn].code| then Faulted(IpOutOfBounds)
      else Act(p, s, fn, ip, env, Execute(p.floats, p.code[fn].code[ip], env, s.register))
  }

  function Act(p: Program, s: State, fn: FnId, ip: nat, env: Env, r: Result<Action>): Outcome {
    if r.Failure? then Faulted(r.error)
    else match r.value {
      case IncrementIP(env', reg') =>
        var ip' := MoveIP(ip, 1);
        if ip'.Failure? then Faulted(ip'.error)
        else Running(State(ByteFrame(fn, ip'.value, env'), s.stack, reg'))
      case SetIP(target) => Running(s.(top := ByteFrame(fn, target, env)))
      case AddIP(off) =>
        var ip' := MoveIP(ip, off);
        if ip'.Failure? then Faulted(ip'.error)
        else Running(s.(top := ByteFrame(fn, ip'.value, env)))
      case PushStack(id, args) =>
        var ip' := MoveIP(ip, 1);
        if ip'.Failure? then Faulted(ip'.error)
        else
          var frame := CreateFrame(p, id, args);
          if frame.Failure? then Faulted(frame.error)
          else Running(State(frame.value, s.stack + [ByteFrame(fn, ip'.value, env)], s.register))
      case PopStack(v) => Pop(s, v)
    }
  }

  // ---------------------------------------------------------------- runs

  function Run(p: Program, s: State, n: nat): Outcome
    decreases n
  {
    if n == 0 then Running(s)
    else match Step(p, s) {
      case Running(s') => Run(p, s', n - 1)
      case o => o
    }
  }

  lemma {:induction false} RunAdd(p: Program, s: State, m: nat, n: nat)
    requires Run(p, s, m).Running?
    ensures Run(p, s, m + n) == Run(p, Run(p, s, m).state, n)
    decreases m
  {
    if m > 0 {
      RunAdd(p, Step(p, s).state, m - 1, n);
    }
  }

  /** Once a run has ended it stays ended, with the same outcome. */
  lemma {:induction false} RunEnded(p: Program, s: State, m: nat, n: nat)
    requires m <= n && !Run(p, s, m).Running?
    ensures Run(p, s, n) == Run(p, s, m)
    decreases m
  {
    if Step(p, s).Running? {
      RunEnded(p, Step(p, s).state, m - 1, n - 1);
    }
  }

  /** The machine started on function `id`: the outcome of creating its first frame, then of running it. */
  function Start(p: Program, id: FnId, args: seq<Value>): Outcome {
    var frame := CreateFrame(p, id, args);
    if frame.Failure? then Faulted(frame.error) else Running(State(frame.value, [], None))
  }
}
