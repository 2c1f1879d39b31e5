/** What a program means, by recursion on its syntax: one flat environment per call, eager operators,
    assignments that evaluate the right-hand side first.  `fuel` bounds the nesting of calls and the
    iterations of each loop; running out of it is the fault `OutOfFuel`. */
module Evaluator {
  import opened Values
  import opened Syntax
  import opened ByteCode
  import Machine

  datatype World = World(
    fns: map<FnId, FnDef>,
    builtins: set<FnId>,
    builtin: (FnId, seq<Value>) -> Option<Value>,
    floats: Floats)

  type Vars = map<Name, Value>

  datatype Flow = Next(vars: Vars) | Broke(vars: Vars) | Continued(vars: Vars) | Returned(value: Value) | Stopped(fault: Fault)

  function Lookup(vars: Vars, x: Name): Result<Value> {
    if x in vars then Success(vars[x]) else Failure(UnboundPanic)
  }

  function LitValue(l: Literal): Value {
    match l
    case LString(s) => Str(s)
    case LInt(i) => Int(i)
    case LFloat(f) => Float(f)
    case LBool(b) => Bool(b)
  }

  function BinValue(fl: Floats, op: BinOp, num: NumType, a: Value, b: Value): Result<Value> {
    match op
    case Arith(o) => if num.IntType? then IntOpValue(o, a, b) else FloatOpValue(fl, o, a, b)
    case Compare(c) => if num.IntType? then CompareIntValue(c, a, b) else CompareFloatValue(fl, c, a, b)
    case LogicalAnd => LogicValue(true, a, b)
    case LogicalOr => LogicValue(false, a, b)
    case Eq => Success(Bool(ValueEq(fl, a, b)))
    case InEq => Success(Bool(!ValueEq(fl, a, b)))
  }

  function UniValue(fl: Floats, op: UniOp, a: Value): Result<Value> {
    match op
    case Negate => NegateValue(fl, a)
    case LogicalInvert => InvertValue(a)
  }

  function Eval(w: World, e: Expr, vars: Vars, fuel: nat): Result<Value>
    decreases fuel, 1, e, 0
  {
    match e
    case Lit(l) => Success(LitValue(l))
    case Var(x) => Lookup(vars, User(x))
    case FnRef(id) => Lookup(vars, FnName(id))
    case Bin(op, num, l, r) =>
      var a :- Eval(w, l, vars, fuel);
      var b :- Eval(w, r, vars, fuel);
      BinValue(w.floats, op, num, a, b)
    case Uni(op, e1) =>
      var a :- Eval(w, e1, vars, fuel);
      UniValue(w.floats, op, a)
    case Call(c) => EvalCall(w, c, [], vars, fuel)
    case Chain(base, chain) =>
      var v :- EvalCall(w, base, [], vars, fuel);
      EvalChain(w, chain, v, vars, fuel)
    case StructInit(names, inits) =>
      var vs :- EvalList(w, inits, vars, fuel);
      Success(Struct(FieldMap(names, vs)))
    case ArrayList(es) =>
      var vs :- EvalList(w, es, vars, fuel);
      Success(Arr(vs))
    case ArrayFill(e1, size) =>
      var v :- Eval(w, e1, vars, fuel);
      Success(Arr(seq(size, _ => v)))
    case Indexing(a, i) =>
      var v :- Eval(w, a, vars, fuel);
      var x :- Eval(w, i, vars, fuel);
      ReadPath(v, [ToIndex(x)])
    case Access(root, rootIndex, path) =>
      var s0 :- EvalIndex(w, rootIndex, vars, fuel);
      var s1 :- EvalPath(w, path, vars, fuel);
      var v :- Lookup(vars, User(root));
      ReadPath(v, s0 + s1)
  }

  function EvalList(w: World, es: seq<Expr>, vars: Vars, fuel: nat): (r: Result<seq<Value>>)
    ensures r.Success? ==> |r.value| == |es|
    decreases fuel, 1, es
  {
    if es == [] then Success([])
    else
      var v :- Eval(w, es[0], vars, fuel);
      var vs :- EvalList(w, es[1..], vars, fuel);
      Success([v] + vs)
  }

  function EvalIndex(w: World, index: Option<Expr>, vars: Vars, fuel: nat): Result<seq<PathStep>>
    decreases fuel, 1, index
  {
    match index
    case None => Success([])
    case Some(e) =>
      var v :- Eval(w, e, vars, fuel);
      Success([ToIndex(v)])
  }

  function EvalPath(w: World, path: seq<Seg>, vars: Vars, fuel: nat): Result<seq<PathStep>>
    decreases fuel, 1, path
  {
    if path == [] then Success([])
    else match path[0] {
      case SegField(f) =>
        var rest :- EvalPath(w, path[1..], vars, fuel);
        Success([ToField(f)] + rest)
      case SegIndex(f, e) =>
        var v :- Eval(w, e, vars, fuel);
        var rest :- EvalPath(w, path[1..], vars, fuel);
        Success([ToField(f), ToIndex(v)] + rest)
    }
  }

  function CalleeName(c: Callee): Name {
    if c.CalleeVar? then User(c.name) else FnName(c.id)
  }

  function EvalCall(w: World, c: CallExpr, prefix: seq<Value>, vars: Vars, fuel: nat): Result<Value>
    decreases fuel, 1, c
  {
    var f :- Lookup(vars, CalleeName(c.callee));
    var args :- EvalList(w, c.args, vars, fuel);
    Invoke(w, f, prefix + args, fuel)
  }

  /** A pipe: every stage is a call whose first argument is the result of the stage before. */
  function EvalChain(w: World, cs: seq<CallExpr>, previous: Value, vars: Vars, fuel: nat): Result<Value>
    decreases fuel, 1, cs
  {
    if cs == [] then Success(previous)
    else
      var v :- EvalCall(w, cs[0], [previous], vars, fuel);
      EvalChain(w, cs[1..], v, vars, fuel)
  }

  function ModuleVars(w: World): Vars {
    map id | id in w.fns.Keys + w.builtins :: FnName(id) := Fn(id)
  }

  function Invoke(w: World, f: Value, args: seq<Value>, fuel: nat): Result<Value>
    decreases fuel, 0, 1
  {
    if !f.Fn? then Failure(ExpectedFunction) else CallFn(w, f.id, args, fuel)
  }

  function CallFn(w: World, id: FnId, args: seq<Value>, fuel: nat): Result<Value>
    decreases fuel, 0, 0
  {
    if id in w.builtins then
      var r := w.builtin(id, args);
      if r.None? then Failure(BuiltinFault) else Success(r.value)
    else if id !in w.fns then Failure(UnknownFnPanic)
    else if |w.fns[id].params| != |args| then Failure(InvalidArgCount)
    else if fuel == 0 then Failure(OutOfFuel)
    else
      var vars := Machine.BindParams(ModuleVars(w), w.fns[id].params, args);
      FlowResult(w.fns[id].returnsUnit, ExecBlock(w, w.fns[id].body, vars, fuel - 1))
  }

  /** How the flow out of a body ends the call: only a function returning the unit type may fall off its end. */
  function FlowResult(returnsUnit: bool, flow: Flow): Result<Value> {
    match flow
    case Returned(v) => Success(v)
    case Stopped(f) => Failure(f)
    case Next(_) => if returnsUnit then Success(Unit) else Failure(IpOutOfBounds)
    case _ => Failure(StrayJump)
  }

  function ExecBlock(w: World, stmts: seq<Stmt>, vars: Vars, fuel: nat): Flow
    decreases fuel, 1, stmts
  {
    if stmts == [] then Next(vars)
    else match ExecStmt(w, stmts[0], vars, fuel) {
      case Next(vars') => ExecBlock(w, stmts[1..], vars', fuel)
      case flow => flow
    }
  }

  function AssignVars(vars: Vars, root: string, steps: seq<PathStep>, v: Value): Flow {
    if steps == [] then Next(vars[User(root) := v])
    else if User(root) !in vars then Stopped(UnboundPanic)
    else match WritePath(vars[User(root)], steps, v) {
      case Success(v') => Next(vars[User(root) := v'])
      case Failure(f) => Stopped(f)
    }
  }

  function ExecStmt(w: World, s: Stmt, vars: Vars, fuel: nat): Flow
    decreases fuel, 1, s
  {
    match s
    case ExprStmt(e) =>
      var r := Eval(w, e, vars, fuel);
      if r.Failure? then Stopped(r.error) else Next(vars)
    case Local(x, e) =>
      var r := Eval(w, e, vars, fuel);
      if r.Failure? then Stopped(r.error) else Next(vars[User(x) := r.value])
    case Assign(root, rootIndex, path, value) =>
      var r := Eval(w, value, vars, fuel);
      if r.Failure? then Stopped(r.error)
      else
        var s0 := EvalIndex(w, rootIndex, vars, fuel);
        if s0.Failure? then Stopped(s0.error)
        else
          var s1 := EvalPath(w, path, vars, fuel);
          if s1.Failure? then Stopped(s1.error)
          else AssignVars(vars, root, s0.value + s1.value, r.value)
    case Return(None) => Returned(Unit)
    case Return(Some(e)) =>
      var r := Eval(w, e, vars, fuel);
      if r.Failure? then Stopped(r.error) else Returned(r.value)
    case Break => Broke(vars)
    case Continue => Continued(vars)
    case While(cond, body) => ExecWhile(w, cond, body, vars, fuel)
    case If(cond, body, rest) =>
      var c := EvalCondition(w, cond, vars, fuel);
      if c.Failure? then Stopped(c.error)
      else if c.value then ExecBlock(w, body, vars, fuel)
      else ExecArms(w, rest, vars, fuel)
  }

  function EvalCondition(w: World, cond: Expr, vars: Vars, fuel: nat): Result<bool>
    decreases fuel, 1, cond, 1
  {
    var v :- Eval(w, cond, vars, fuel);
    AsBool(v)
  }

  function ExecArms(w: World, a: Arms, vars: Vars, fuel: nat): Flow
    decreases fuel, 1, a
  {
    match a
    case NoMore => Next(vars)
    case Default(b) => ExecBlock(w, b, vars, fuel)
    case Elif(cond, b, rest) =>
      var c := EvalCondition(w, cond, vars, fuel);
      if c.Failure? then Stopped(c.error)
      else if c.value then ExecBlock(w, b, vars, fuel)
      else ExecArms(w, rest, vars, fuel)
  }

  /** A loop whose condition and body are syntactically smaller than the statement they came from. */
  function ExecWhile(w: World, cond: Expr, body: seq<Stmt>, vars: Vars, fuel: nat): Flow
    decreases fuel, 1, While(cond, body), 0
  {
    var c := EvalCondition(w, cond, vars, fuel);
    if c.Failure? then Stopped(c.error)
    else if !c.value then Next(vars)
    else match ExecBlock(w, body, vars, fuel) {
      case Next(vars') => if fuel == 0 then Stopped(OutOfFuel) else ExecWhile(w, cond, body, vars', fuel - 1)
      case Continued(vars') => if fuel == 0 then Stopped(OutOfFuel) else ExecWhile(w, cond, body, vars', fuel - 1)
      case Broke(vars') => Next(vars')
      case flow => flow
    }
  }

  lemma ExecCons(w: World, s: Stmt, rest: seq<Stmt>, vars: Vars, fuel: nat)
    ensures var flow := ExecStmt(w, s, vars, fuel);
      ExecBlock(w, [s] + rest, vars, fuel) == if flow.Next? then ExecBlock(w, rest, flow.vars, fuel) else flow
  {
    hide ExecStmt;
    assert ([s] + rest)[1..] == rest;
  }
}
