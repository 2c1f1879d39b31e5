/** The executor over cells: one instruction, frames, and one step of a run. */
module HeapStep {
  import opened Values
  import opened ByteCode
  import opened Cells
  import opened HeapEnv
  import opened HeapStore
  import opened HeapExecute
  import Machine

  datatype HAction =
    | IncrementIP
    | SetIP(target: nat)
    | AddIP(offset: int)
    | PushStack(id: FnId, args: seq<HeapValue>)
    | PopStack(value: HeapValue)

  /** The return register, and the cells it owns. */
  ghost predicate RegStands(h: Heap, reg: Option<HeapValue>, r: Option<Value>) {
    match (reg, r)
    case (None, None) => true
    case (Some(x), Some(v)) => Tree(h, x, v)
    case _ => false
  }

  ghost function RegFoot(h: Heap, reg: Option<HeapValue>, r: Option<Value>): set<Cell> {
    if reg.Some? && r.Some? then Foot(h, reg.value, r.value) else {}
  }

  lemma RegFrame(h: Heap, h': Heap, reg: Option<HeapValue>, r: Option<Value>)
    requires RegStands(h, reg, r) && SameOn(h, h', RegFoot(h, reg, r))
    ensures RegStands(h', reg, r) && RegFoot(h', reg, r) == RegFoot(h, reg, r)
  {
    if reg.Some? {
      Frame(h, h', reg.value, r.value);
    }
  }

  /** A heap action does what the action of the value machine does. */
  ghost predicate Acts(a: HAction, m: Machine.Action, h: Heap, h': Heap, vars: map<Name, Cell>, tmps: map<Name, Cell>,
                       e: Machine.Env, reg: Option<HeapValue>, r: Option<Value>) {
    match (a, m)
    case (IncrementIP, IncrementIP(e2, r2)) => EnvStands(h', vars, tmps, e2) && RegStands(h', reg, r2)
    case (SetIP(t), SetIP(u)) => t == u && EnvStands(h', vars, tmps, e) && RegStands(h', reg, r)
    case (AddIP(t), AddIP(u)) => t == u && EnvStands(h', vars, tmps, e) && RegStands(h', reg, r)
    case (PushStack(id, xs), PushStack(id2, vs)) =>
      && id == id2 && EnvStands(h', vars, tmps, e) && RegStands(h', reg, r)
      && Trees(h', xs, vs) && TreesIn(h', xs, vs, New(h, h'))
    case (PopStack(x), PopStack(v)) =>
      && EnvStands(h', vars, tmps, e) && RegStands(h', reg, r)
      && Tree(h', x, v) && Foot(h', x, v) <= New(h, h')
    case _ => false
  }

  /** The environment the value machine goes on with. */
  function EnvAfter(m: Machine.Action, e: Machine.Env): Machine.Env { if m.IncrementIP? then m.env else e }

  function RegAfter(m: Machine.Action, r: Option<Value>): Option<Value> { if m.IncrementIP? then m.register else r }

  /** What an instruction leaves the environment and the register with: the register keeps its value, or gives it up
      to the environment; arguments and results in flight are new. */
  ghost predicate Keeps(m: Machine.Action, h: Heap, h': Heap, owned: set<Cell>, owned': set<Cell>,
                        reg: Option<HeapValue>, reg': Option<HeapValue>, r: Option<Value>) {
    && (!m.IncrementIP? ==> owned' == owned)
    && ((reg' == reg && RegAfter(m, r) == r && owned' <= owned + New(h, h'))
        || (reg' == None && RegAfter(m, r) == None && owned' <= owned + RegFoot(h, reg, r) + New(h, h')))
  }

  ghost predicate Executed(a: Got<HAction>, m: Result<Machine.Action>, h: Heap, h': Heap, vars: map<Name, Cell>, tmps: map<Name, Cell>,
                           owned: set<Cell>, e: Machine.Env, reg: Option<HeapValue>, reg': Option<HeapValue>, r: Option<Value>) {
    match (a, m)
    case (Ok(act), Success(act')) =>
      && Acts(act, act', h, h', vars, tmps, e, reg', r)
      && Keeps(act', h, h', owned, EnvFoot(h', vars, tmps, EnvAfter(act', e)), reg, reg', r)
    case (Bad(f), Failure(g)) => Alike(f, g)
    case _ => false
  }

  method ExecuteInstruction(fl: Floats, instr: Instruction, env: Env, reg: Option<HeapValue>,
                            ghost h: Heap, ghost e: Machine.Env, ghost rv: Option<Value>)
    returns (a: Got<HAction>, reg': Option<HeapValue>, ghost h': Heap)
    requires Current(h) && env.Stands(h, e) && RegStands(h, reg, rv) && RegFoot(h, reg, rv) !! env.Owned(h, e)
    modifies env, env.Owned(h, e)
    ensures Current(h') && Beyond(h, h', old(env.Owned(h, e))) && fresh(New(h, h'))
    ensures Executed(a, Machine.Execute(fl, instr, e, rv), h, h', env.env, env.tmpStore, old(env.Owned(h, e)), e, reg, reg', rv)
  {
    if Target(instr).Some? {
      a, h' := ComputeAndStore(fl, instr, env, reg, h, e, rv);
      reg' := reg;
    } else if instr.TakeReturn? {
      a, reg', h' := TakeReturnRegister(fl, instr, env, reg, h, e, rv);
    } else {
      a, h' := Transfer(fl, instr, env, reg, h, e, rv);
      reg' := reg;
    }
  }

  lemma RegIn(h: Heap, reg: Option<HeapValue>, r: Option<Value>)
    requires RegStands(h, reg, r)
    ensures RegFoot(h, reg, r) <= h.Keys
  {
    if reg.Some? {
      FootIn(h, reg.value, r.value);
    }
  }

  method ComputeAndStore(fl: Floats, instr: Instruction, env: Env, reg: Option<HeapValue>,
                         ghost h: Heap, ghost e: Machine.Env, ghost rv: Option<Value>)
    returns (a: Got<HAction>, ghost h': Heap)
    requires Target(instr).Some?
    requires Current(h) && env.Stands(h, e) && RegStands(h, reg, rv) && RegFoot(h, reg, rv) !! env.Owned(h, e)
    modifies env, env.Owned(h, e)
    ensures Current(h') && Beyond(h, h', old(env.Owned(h, e))) && fresh(New(h, h'))
    ensures Executed(a, Machine.Execute(fl, instr, e, rv), h, h', env.env, env.tmpStore, old(env.Owned(h, e)), e, reg, reg, rv)
  {
    hide Machine.Execute, Machine.StoreAt, Computed, Tree, Foot, Family, FamilyFoot, RegStands, RegFoot;
    ComputeThenStore(fl, instr, e, rv);
    EnvIn(h, env.env, env.tmpStore, e);
    RegIn(h, reg, rv);
    var x, h1 := Compute(fl, instr, env, h, e);
    if x.Bad? {
      return Bad(x.fault), h1;
    }
    ghost var v := Computed(fl, instr, e).value;
    var fault, h2, e' := StoreTo(env, Target(instr).value, x.value, h1, e, v);
    h' := h2;
    assert New(h, h') == New(h, h1) + New(h1, h');
    if fault.Some? {
      return Bad(fault.value), h';
    }
    RegFrame(h, h', reg, rv);
    a := Ok(IncrementIP);
  }

  method TakeReturnRegister(fl: Floats, instr: Instruction, env: Env, reg: Option<HeapValue>,
                            ghost h: Heap, ghost e: Machine.Env, ghost rv: Option<Value>)
    returns (a: Got<HAction>, reg': Option<HeapValue>, ghost h': Heap)
    requires instr.TakeReturn?
    requires Current(h) && env.Stands(h, e) && RegStands(h, reg, rv) && RegFoot(h, reg, rv) !! env.Owned(h, e)
    modifies env, env.Owned(h, e)
    ensures Current(h') && Beyond(h, h', old(env.Owned(h, e))) && fresh(New(h, h'))
    ensures Executed(a, Machine.Execute(fl, instr, e, rv), h, h', env.env, env.tmpStore, old(env.Owned(h, e)), e, reg, reg', rv)
  {
    hide Machine.StoreAt, Tree, Foot, Family, FamilyFoot;
    if reg.None? {
      return Bad(NoReturnValue), reg, h;
    }
    var fault, h2, e' := StoreTo(env, instr.loc, reg.value, h, e, rv.value);
    h' := h2;
    if fault.Some? {
      return Bad(fault.value), None, h';
    }
    reg' := None;
    a := Ok(IncrementIP);
  }

  /** Calls, returns and jumps. */
  method Transfer(fl: Floats, instr: Instruction, env: Env, reg: Option<HeapValue>,
                  ghost h: Heap, ghost e: Machine.Env, ghost rv: Option<Value>)
    returns (a: Got<HAction>, ghost h': Heap)
    requires Target(instr).None? && !instr.TakeReturn?
    requires Current(h) && env.Stands(h, e) && RegStands(h, reg, rv)
    ensures Current(h') && Grown(h, h') && fresh(New(h, h'))
    ensures Executed(a, Machine.Execute(fl, instr, e, rv), h, h', env.env, env.tmpStore, env.Owned(h, e), e, reg, reg, rv)
  {
    hide Machine.ArgValue, Machine.ArgValues, Machine.Fetch, Machine.BoolOperand, Tree, Foot, EnvStands, EnvFoot, Trees, TreesIn;
    h' := h;
    match instr {
      case FnCall(fn, args) =>
        a, h' := Call(env, fn, args, h, e);
      case Return(ret) =>
        if ret.None? {
          ScalarMade(Unit, h);
          a := Ok(PopStack(HUnit));
        } else {
          var x;
          x, h' := ArgToValue(env, ret.value, h, e);
          a := if x.Bad? then Bad(x.fault) else Ok(PopStack(x.value));
        }
      case Jump(target) => a := Ok(SetIP(target));
      case RelJump(offset) => a := Ok(AddIP(offset));
      case JumpCondition(target, arg) => a := Branch(env, arg, true, SetIP(target), h, e);
      case JumpNegateCondition(target, arg) => a := Branch(env, arg, false, SetIP(target), h, e);
      case RelJumpCondition(offset, arg) => a := Branch(env, arg, true, AddIP(offset), h, e);
      case RelJumpNegateCondition(offset, arg) => a := Branch(env, arg, false, AddIP(offset), h, e);
    }
    StillStands(h, h', env, e);
    RegIn(h, reg, rv);
    RegFrame(h, h', reg, rv);
  }

  /** A conditional jump: taken when the condition is as demanded. */
  method Branch(env: Env, arg: Arg, demanded: bool, jump: HAction, ghost h: Heap, ghost e: Machine.Env) returns (a: Got<HAction>)
    requires Current(h) && env.Stands(h, e)
    ensures var c := Machine.BoolOperand(e, arg);
      if c.Failure? then a.Bad? && Alike(a.fault, c.error) else a == Ok(if c.value == demanded then jump else IncrementIP)
  {
    hide Machine.BoolOperand, Family, FamilyFoot;
    var c := BoolFromArg(env, arg, h, e);
    a := if c.Bad? then Bad(c.fault) else if c.value == demanded then Ok(jump) else Ok(IncrementIP);
  }

  ghost predicate Called(a: Got<HAction>, fn: Result<Value>, args: Result<seq<Value>>, h: Heap, h': Heap) {
    if fn.Failure? then a.Bad? && Alike(a.fault, fn.error)
    else if !fn.value.Fn? then a == Bad(ExpectedFunction)
    else if args.Failure? then a.Bad? && Alike(a.fault, args.error)
    else
      && a.Ok? && a.value.PushStack? && a.value.id == fn.value.id
      && Trees(h', a.value.args, args.value) && TreesIn(h', a.value.args, args.value, New(h, h'))
  }

  /** The callee is read through its cell, the arguments are cloned. */
  method Call(env: Env, fn: Location, args: seq<Arg>, ghost h: Heap, ghost e: Machine.Env) returns (a: Got<HAction>, ghost h': Heap)
    requires Current(h) && env.Stands(h, e)
    ensures Current(h') && Grown(h, h') && fresh(New(h, h'))
    ensures Called(a, Machine.Fetch(e, fn), Machine.ArgValues(e, args), h, h')
  {
    hide Machine.ArgValues, Machine.Fetch, Foot, Family, FamilyFoot, Trees, TreesIn, CellFoot, Leads, ReadPath;
    h' := h;
    var func, _ := Fetch(env, fn, h, e);
    FetchPanics(e, fn);
    match func {
      case Lost(f) => a := Bad(f);
      case Found(cell) =>
        assert CellTree(h, cell, Machine.Fetch(e, fn).value);
        assert cell.value == h[cell] && Tree(h, h[cell], Machine.Fetch(e, fn).value);
        match cell.value {
          case HFn(id) =>
            var xs;
            xs, h' := ArgsToValues(env, args, h, e);
            a := if xs.Bad? then Bad(xs.fault) else Ok(PushStack(id, xs.value));
          case _ => a := Bad(ExpectedFunction);
        }
    }
  }
}
