/** The executor as it is: frames with environments of their own, a return register, steps that update them.
    Over cells it does exactly what the machine over values does. */
module Executor {
  import opened Values
  import opened ByteCode
  import opened Cells
  import opened HeapEnv
  import opened HeapStore
  import opened HeapExecute
  import opened HeapStep
  import Machine

  datatype StackInfo = ByteCodeStack(fn: FnId, env: Env, ip: nat) | BuiltinStack(id: FnId, args: seq<HeapValue>)

  /** What a frame holds on to, as a value. */
  datatype View = EnvView(fn: FnId, ip: nat, vars: map<Name, Cell>, tmps: map<Name, Cell>) | ArgsView(id: FnId, args: seq<HeapValue>)

  function EnvsOf(info: StackInfo): set<Env> { if info.ByteCodeStack? then {info.env} else {} }

  ghost function ViewOf(info: StackInfo): View
    reads EnvsOf(info)
  {
    match info
    case ByteCodeStack(fn, env, ip) => EnvView(fn, ip, env.env, env.tmpStore)
    case BuiltinStack(id, args) => ArgsView(id, args)
  }

  ghost predicate ViewStands(h: Heap, w: View, f: Machine.Frame) {
    match (w, f)
    case (EnvView(fn, ip, vars, tmps), ByteFrame(fn2, ip2, e)) => fn == fn2 && ip == ip2 && EnvStands(h, vars, tmps, e)
    case (ArgsView(id, xs), BuiltinFrame(id2, vs)) => id == id2 && Trees(h, xs, vs)
    case _ => false
  }

  ghost function TreesFoot(h: Heap, xs: seq<HeapValue>, vs: seq<Value>): set<Cell> {
    set i, d | 0 <= i < |xs| && i < |vs| && d in Foot(h, xs[i], vs[i]) :: d
  }

  ghost function ViewFoot(h: Heap, w: View, f: Machine.Frame): set<Cell> {
    match (w, f)
    case (EnvView(_, _, vars, tmps), ByteFrame(_, _, e)) => EnvFoot(h, vars, tmps, e)
    case (ArgsView(_, xs), BuiltinFrame(_, vs)) => TreesFoot(h, xs, vs)
    case _ => {}
  }

  lemma ViewIn(h: Heap, w: View, f: Machine.Frame)
    requires ViewStands(h, w, f)
    ensures ViewFoot(h, w, f) <= h.Keys
  {
    match (w, f) {
      case (EnvView(_, _, vars, tmps), ByteFrame(_, _, e)) => EnvIn(h, vars, tmps, e);
      case (ArgsView(_, xs), BuiltinFrame(_, vs)) =>
        forall i | 0 <= i < |xs| ensures Foot(h, xs[i], vs[i]) <= h.Keys {
          FootIn(h, xs[i], vs[i]);
        }
    }
  }

  lemma ViewFrame(h: Heap, h': Heap, w: View, f: Machine.Frame)
    requires ViewStands(h, w, f) && SameOn(h, h', ViewFoot(h, w, f))
    ensures ViewStands(h', w, f) && ViewFoot(h', w, f) == ViewFoot(h, w, f)
  {
    match (w, f) {
      case (EnvView(_, _, vars, tmps), ByteFrame(_, _, e)) => EnvFrame(h, h', vars, tmps, e);
      case (ArgsView(_, xs), BuiltinFrame(_, vs)) =>
        forall i | 0 <= i < |xs| ensures Tree(h', xs[i], vs[i]) && Foot(h', xs[i], vs[i]) == Foot(h, xs[i], vs[i]) {
          assert Foot(h, xs[i], vs[i]) <= TreesFoot(h, xs, vs);
          Frame(h, h', xs[i], vs[i]);
        }
    }
  }

  // ---------------------------------------------------------------- the whole state

  /** A stack of frames over one heap: every frame stands for its counterpart, no two own a cell in common, and the
      cells in `apart` belong to none of them. */
  ghost predicate Stack(h: Heap, ws: seq<View>, fs: seq<Machine.Frame>, apart: set<Cell>) {
    && |ws| == |fs|
    && (forall i :: 0 <= i < |ws| ==> ViewStands(h, ws[i], fs[i]) && ViewFoot(h, ws[i], fs[i]) !! apart)
    && (forall i, j :: 0 <= i < j < |ws| ==> ViewFoot(h, ws[i], fs[i]) !! ViewFoot(h, ws[j], fs[j]))
  }

  /** Something happens outside the frames. */
  lemma StackFrame(h: Heap, h': Heap, ws: seq<View>, fs: seq<Machine.Frame>, apart: set<Cell>, touched: set<Cell>)
    requires Stack(h, ws, fs, apart) && Beyond(h, h', touched) && touched <= apart
    ensures Stack(h', ws, fs, apart + New(h, h'))
  {
    hide ViewStands, ViewFoot;
    forall i | 0 <= i < |ws|
      ensures ViewStands(h', ws[i], fs[i]) && ViewFoot(h', ws[i], fs[i]) == ViewFoot(h, ws[i], fs[i]) && ViewFoot(h, ws[i], fs[i]) <= h.Keys
    {
      ViewIn(h, ws[i], fs[i]);
      ViewFrame(h, h', ws[i], fs[i]);
    }
  }

  /** One more frame, out of cells that belonged to none. */
  lemma StackPush(h: Heap, ws: seq<View>, fs: seq<Machine.Frame>, w: View, f: Machine.Frame, apart: set<Cell>, apart': set<Cell>)
    requires Stack(h, ws, fs, apart) && ViewStands(h, w, f)
    requires ViewFoot(h, w, f) <= apart && apart' <= apart && ViewFoot(h, w, f) !! apart'
    ensures Stack(h, ws + [w], fs + [f], apart')
  {
    hide ViewStands, ViewFoot;
  }

  lemma StackPop(h: Heap, ws: seq<View>, fs: seq<Machine.Frame>, apart: set<Cell>)
    requires Stack(h, ws, fs, apart) && ws != []
    ensures var k := |ws| - 1;
      && Stack(h, ws[..k], fs[..k], apart + ViewFoot(h, ws[k], fs[k]))
      && ViewStands(h, ws[k], fs[k]) && ViewFoot(h, ws[k], fs[k]) !! apart
  {
    hide ViewStands, ViewFoot;
  }

  /** The parts of an executor: the frames below, the top one, the register, and the module environment.
      Nothing is shared between any of them, and `spare` belongs to none. */
  datatype Parts = Parts(
    ws: seq<View>, fs: seq<Machine.Frame>, top: View, f: Machine.Frame, reg: Option<HeapValue>, r: Option<Value>,
    mvars: map<Name, Cell>, mtmps: map<Name, Cell>, me: Machine.Env)

  ghost function TopFoot(h: Heap, p: Parts): set<Cell> { ViewFoot(h, p.top, p.f) }

  ghost function ModuleFoot(h: Heap, p: Parts): set<Cell> { EnvFoot(h, p.mvars, p.mtmps, p.me) }

  ghost predicate Whole(h: Heap, p: Parts, spare: set<Cell>) {
    && ViewStands(h, p.top, p.f) && RegStands(h, p.reg, p.r) && EnvStands(h, p.mvars, p.mtmps, p.me)
    && TopFoot(h, p) !! RegFoot(h, p.reg, p.r) && TopFoot(h, p) !! ModuleFoot(h, p) && RegFoot(h, p.reg, p.r) !! ModuleFoot(h, p)
    && spare !! TopFoot(h, p) && spare !! RegFoot(h, p.reg, p.r) && spare !! ModuleFoot(h, p)
    && Stack(h, p.ws, p.fs, TopFoot(h, p) + RegFoot(h, p.reg, p.r) + ModuleFoot(h, p) + spare)
  }

  /** The top frame has done something: with cells of its own, with the register's when it took it, and with new ones. */
  lemma WholeExecuted(h: Heap, h': Heap, p: Parts, top': View, f': Machine.Frame, reg': Option<HeapValue>, r': Option<Value>, spare: set<Cell>)
    requires Whole(h, p, {}) && Beyond(h, h', TopFoot(h, p)) && ViewStands(h', top', f') && spare <= New(h, h')
    requires ViewFoot(h', top', f') !! spare
    requires
      || (reg' == p.reg && r' == p.r && ViewFoot(h', top', f') <= TopFoot(h, p) + New(h, h'))
      || (reg' == None && r' == None && ViewFoot(h', top', f') <= TopFoot(h, p) + RegFoot(h, p.reg, p.r) + New(h, h'))
    ensures Whole(h', p.(top := top', f := f', reg := reg', r := r'), spare)
  {
    hide ViewStands, ViewFoot, EnvStands, EnvFoot, Tree, Foot, Stack;
    RegIn(h, p.reg, p.r);
    RegFrame(h, h', p.reg, p.r);
    EnvIn(h, p.mvars, p.mtmps, p.me);
    EnvFrame(h, h', p.mvars, p.mtmps, p.me);
    var apart := TopFoot(h, p) + RegFoot(h, p.reg, p.r) + ModuleFoot(h, p);
    assert apart + {} == apart;
    StackFrame(h, h', p.ws, p.fs, apart, TopFoot(h, p));
    StackApart(h', p.ws, p.fs, apart + New(h, h'),
               ViewFoot(h', top', f') + RegFoot(h', reg', r') + EnvFoot(h', p.mvars, p.mtmps, p.me) + spare);
  }

  lemma StackApart(h: Heap, ws: seq<View>, fs: seq<Machine.Frame>, apart: set<Cell>, less: set<Cell>)
    requires Stack(h, ws, fs, apart) && less <= apart
    ensures Stack(h, ws, fs, less)
  {
    hide ViewStands, ViewFoot;
  }

  lemma StackSizes(h: Heap, ws: seq<View>, fs: seq<Machine.Frame>, apart: set<Cell>)
    requires Stack(h, ws, fs, apart)
    ensures |ws| == |fs|
  {
  }

  /** A new frame on top, out of spare and new cells. */
  lemma WholePush(h: Heap, h': Heap, p: Parts, spare: set<Cell>, w: View, g: Machine.Frame)
    requires Whole(h, p, spare) && Grown(h, h') && ViewStands(h', w, g) && ViewFoot(h', w, g) <= spare + New(h, h')
    ensures Whole(h', p.(ws := p.ws + [p.top], fs := p.fs + [p.f], top := w, f := g), {})
  {
    hide ViewStands, ViewFoot, EnvStands, EnvFoot, Tree, Foot, Stack;
    ViewIn(h, p.top, p.f);
    ViewFrame(h, h', p.top, p.f);
    RegIn(h, p.reg, p.r);
    RegFrame(h, h', p.reg, p.r);
    EnvIn(h, p.mvars, p.mtmps, p.me);
    EnvFrame(h, h', p.mvars, p.mtmps, p.me);
    var apart := TopFoot(h, p) + RegFoot(h, p.reg, p.r) + ModuleFoot(h, p) + spare;
    StackFrame(h, h', p.ws, p.fs, apart, {});
    var apart' := ViewFoot(h', w, g) + RegFoot(h', p.reg, p.r) + ModuleFoot(h', p) + {};
    StackPush(h', p.ws, p.fs, p.top, p.f, apart + New(h, h'), apart');
  }

  /** The frame below comes back, with the result in the register; the old top and the old register are dropped. */
  lemma WholePop(h: Heap, p: Parts, spare: set<Cell>, x: HeapValue, v: Value)
    requires Whole(h, p, spare) && p.ws != [] && Tree(h, x, v) && Foot(h, x, v) <= spare
    ensures var k := |p.ws| - 1;
      Whole(h, p.(ws := p.ws[..k], fs := p.fs[..k], top := p.ws[k], f := p.fs[k], reg := Some(x), r := Some(v)), {})
  {
    hide ViewStands, ViewFoot, EnvStands, EnvFoot, Tree, Foot, Stack;
    var k := |p.ws| - 1;
    var apart := TopFoot(h, p) + RegFoot(h, p.reg, p.r) + ModuleFoot(h, p) + spare;
    StackSizes(h, p.ws, p.fs, apart);
    StackPop(h, p.ws, p.fs, apart);
    StackApart(h, p.ws[..k], p.fs[..k], apart + ViewFoot(h, p.ws[k], p.fs[k]),
               ViewFoot(h, p.ws[k], p.fs[k]) + Foot(h, x, v) + ModuleFoot(h, p) + {});
  }

  // ---------------------------------------------------------------- the executor

  ghost function AllEnvs(stack: seq<StackInfo>): set<Env> {
    set i, o | 0 <= i < |stack| && o in EnvsOf(stack[i]) :: o
  }

  ghost function Views(stack: seq<StackInfo>): (ws: seq<View>)
    reads AllEnvs(stack)
    ensures |ws| == |stack|
    ensures forall i :: 0 <= i < |stack| ==> EnvsOf(stack[i]) <= AllEnvs(stack) && ws[i] == ViewOf(stack[i])
  {
    seq(|stack|, i requires 0 <= i < |stack| reads AllEnvs(stack) => ViewOf(stack[i]))
  }

  /** No two frames are the same object. */
  ghost predicate Distinct(stack: seq<StackInfo>, others: set<Env>) {
    && AllEnvs(stack) !! others
    && forall i, j :: 0 <= i < j < |stack| ==> EnvsOf(stack[i]) !! EnvsOf(stack[j])
  }

  /** The functions of the program, as every new frame sees them. */
  function ModuleEnv(p: Machine.Program): Machine.Env { Machine.Env(Machine.ModuleVars(p), map[]) }

  lemma BindSnoc(vars: map<Name, Value>, params: seq<string>, args: seq<Value>, i: nat)
    requires i < |params| == |args|
    ensures Machine.BindParams(vars, params[..i + 1], args[..i + 1])
         == Machine.BindParams(vars, params[..i], args[..i])[User(params[i]) := args[i]]
    decreases i
  {
    if i == 0 {
      assert params[..1][1..] == [] && args[..1][1..] == [] && params[..0] == [] && args[..0] == [];
    } else {
      assert params[..i + 1][1..] == params[1..][..i] && args[..i + 1][1..] == args[1..][..i];
      assert params[..i][1..] == params[1..][..i - 1] && args[..i][1..] == args[1..][..i - 1];
      BindSnoc(vars[User(params[0]) := args[0]], params[1..], args[1..], i - 1);
    }
  }

  /** The environment of a new call: a fork of the module environment with the arguments mapped into it. */
  method NewEnv(moduleEnv: Env, params: seq<string>, args: seq<HeapValue>, ghost h: Heap, ghost me: Machine.Env, ghost vs: seq<Value>,
                ghost spare: set<Cell>) returns (env: Env, ghost h': Heap)
    requires Current(h) && moduleEnv.Stands(h, me) && me.tmps == map[] && |params| == |args|
    requires Trees(h, args, vs) && TreesIn(h, args, vs, spare) && spare <= h.Keys
    ensures Current(h') && Grown(h, h') && fresh(New(h, h')) && fresh(env)
    ensures var e := Machine.Env(Machine.BindParams(me.vars, params, vs), map[]);
      env.Stands(h', e) && env.Owned(h', e) <= spare + New(h, h')
  {
    hide Family, FamilyFoot, Tree, Foot, EnvStands, EnvFoot;
    env, h' := moduleEnv.Fork(h, me);
    ghost var e := me;
    assert params[..0] == [] && vs[..0] == [];
    for i := 0 to |params|
      invariant Current(h') && Grown(h, h') && fresh(New(h, h'))
      invariant e == Machine.Env(Machine.BindParams(me.vars, params[..i], vs[..i]), map[]) && env.Stands(h', e)
      invariant env.Owned(h', e) <= New(h, h') + TreesFoot(h, args[..i], vs[..i])
    {
      ghost var h1 := h';
      ArgApart(h, args, vs, i, spare);
      FootIn(h, args[i], vs[i]);
      Frame(h, h1, args[i], vs[i]);
      h' := env.MapValue(User(params[i]), args[i], h1, e, vs[i]);
      assert New(h, h') == New(h, h1) + New(h1, h');
      BindSnoc(me.vars, params, vs, i);
      e := e.(vars := e.vars[User(params[i]) := vs[i]]);
    }
    assert params[..|params|] == params && vs[..|params|] == vs && args[..|params|] == args;
    SpareFoot(h, args, vs, spare);
  }

  lemma ArgApart(h: Heap, args: seq<HeapValue>, vs: seq<Value>, i: nat, spare: set<Cell>)
    requires Trees(h, args, vs) && TreesIn(h, args, vs, spare) && i < |args|
    ensures Foot(h, args[i], vs[i]) !! TreesFoot(h, args[..i], vs[..i])
    ensures TreesFoot(h, args[..i + 1], vs[..i + 1]) == TreesFoot(h, args[..i], vs[..i]) + Foot(h, args[i], vs[i])
  {
    hide Tree, Foot;
    var as', vs' := args[..i + 1], vs[..i + 1];
    assert as'[i] == args[i] && vs'[i] == vs[i];
    forall j | 0 <= j < i ensures as'[j] == args[..i][j] && vs'[j] == vs[..i][j] {
    }
    forall d | d in TreesFoot(h, args[..i], vs[..i]) ensures d in TreesFoot(h, as', vs') {
      var j :| 0 <= j < i && d in Foot(h, args[..i][j], vs[..i][j]);
      assert d in Foot(h, as'[j], vs'[j]);
    }
    forall d | d in Foot(h, args[i], vs[i]) ensures d in TreesFoot(h, as', vs') {
      assert d in Foot(h, as'[i], vs'[i]);
    }
  }

  lemma SpareFoot(h: Heap, args: seq<HeapValue>, vs: seq<Value>, spare: set<Cell>)
    requires TreesIn(h, args, vs, spare)
    ensures TreesFoot(h, args, vs) <= spare
  {
    hide Foot;
  }

  /** What a host function hands back: a value of its own, nobody else's. */
  method Materialize(v: Value, ghost h: Heap) returns (x: HeapValue, ghost h': Heap)
    requires Current(h)
    ensures Current(h') && Grown(h, h') && fresh(New(h, h')) && Tree(h', x, v) && Foot(h', x, v) <= New(h, h')
    decreases v
  {
    h' := h;
    match v {
      case Int(i) => x := HInt(i);
      case Float(f) => x := HFloat(f);
      case Bool(b) => x := HBool(b);
      case Str(s) => x := HStr(s);
      case Fn(id) => x := HFn(id);
      case Unit => x := HUnit;
      case Arr(vs) => x, h' := MaterializeArray(vs, v, h);
      case Struct(m) => x, h' := MaterializeStruct(m, v, h);
    }
  }

  method MaterializeArray(vs: seq<Value>, ghost v: Value, ghost h: Heap) returns (x: HeapValue, ghost h': Heap)
    requires Current(h) && v == Arr(vs)
    ensures Current(h') && Grown(h, h') && fresh(New(h, h')) && Tree(h', x, v) && Foot(h', x, v) <= New(h, h')
    decreases v, 0
  {
    hide Tree, Foot, CellTree, CellFoot, Row;
    var cells: seq<Cell> := [];
    h' := h;
    NoRow(h);
    assert vs[..0] == [];
    for i := 0 to |vs|
      invariant Current(h') && fresh(New(h, h')) && Row(h, h', cells, vs[..i]) && Grown(h, h')
    {
      ghost var h1 := h';
      var y, h2 := Materialize(vs[i], h1);
      assert New(h, h2) == New(h, h1) + New(h1, h2);
      var c;
      c, h' := Box(y, h1, h2, vs[i]);
      assert New(h, h') == New(h, h2) + New(h2, h');
      RowMore(h, h1, h', cells, vs[..i], c, vs[i]);
      assert vs[..i] + [vs[i]] == vs[..i + 1];
      cells := cells + [c];
    }
    assert vs[..|vs|] == vs;
    RowTree(h, h', cells, vs);
    x := HArr(cells);
  }

  method MaterializeStruct(m: map<string, Value>, ghost v: Value, ghost h: Heap) returns (x: HeapValue, ghost h': Heap)
    requires Current(h) && v == Struct(m)
    ensures Current(h') && Grown(h, h') && fresh(New(h, h')) && Tree(h', x, v) && Foot(h', x, v) <= New(h, h')
    decreases v, 0
  {
    hide Tree, Foot, CellTree, CellFoot, Family, FamilyFoot;
    var cells: map<string, Cell> := map[];
    ghost var vals: map<string, Value> := map[];
    var rest := m.Keys;
    h' := h;
    NoFamily(h, cells, vals);
    while rest != {}
      invariant Current(h') && Grown(h, h') && fresh(New(h, h'))
      invariant Family(h', cells, vals) && FamilyFoot(h', cells, vals) <= New(h, h')
      invariant rest <= m.Keys && vals.Keys == m.Keys - rest && forall k :: k in vals ==> vals[k] == m[k]
    {
      var k :| k in rest;
      ghost var h1 := h';
      var y, h2 := Materialize(m[k], h1);
      assert New(h, h2) == New(h, h1) + New(h1, h2);
      var c;
      c, h' := Box(y, h1, h2, m[k]);
      assert New(h, h') == New(h, h2) + New(h2, h');
      FamilyMore(h, h1, h', cells, vals, k, c, m[k]);
      cells, vals, rest := cells[k := c], vals[k := m[k]], rest - {k};
    }
    assert vals == m;
    StructIsFamily(h', cells, m);
    x := HStruct(cells);
  }

  class Executor {
    const program: Machine.Program
    const moduleEnv: Env
    var top: StackInfo
    var stack: seq<StackInfo>
    var returnRegister: Option<HeapValue>
    var finished: bool

    ghost function PartsOf(s: Machine.State): Parts
      reads this, EnvsOf(top), AllEnvs(stack), moduleEnv
    {
      Parts(Views(stack), s.stack, ViewOf(top), s.top, returnRegister, s.register, moduleEnv.env, moduleEnv.tmpStore, ModuleEnv(program))
    }

    /** The executor stands for a state of the machine over values: the forest invariant. */
    ghost predicate Stands(h: Heap, s: Machine.State)
      reads this, EnvsOf(top), AllEnvs(stack), moduleEnv
    {
      Whole(h, PartsOf(s), {}) && Distinct(stack, EnvsOf(top) + {moduleEnv}) && moduleEnv !in EnvsOf(top)
    }

    /** The environments of all frames. */
    ghost function Envs(): set<Env>
      reads this
    {
      EnvsOf(top) + AllEnvs(stack)
    }

    constructor (program: Machine.Program, moduleEnv: Env, top: StackInfo)
      ensures this.program == program && this.moduleEnv == moduleEnv && this.top == top
      ensures stack == [] && returnRegister == None && !finished
    {
      this.program, this.moduleEnv, this.top := program, moduleEnv, top;
      stack, returnRegister, finished := [], None, false;
    }

    /** A new frame on top of the one that calls. */
    method Push(caller: StackInfo, id: FnId, args: seq<HeapValue>, ghost h: Heap, ghost s: Machine.State, ghost vs: seq<Value>, ghost spare: set<Cell>)
      returns (r: Option<Fault>, ghost h': Heap)
      requires Current(h) && Whole(h, PartsOf(s).(top := ViewOf(caller)), spare) && EnvsOf(caller) == EnvsOf(top)
      requires Distinct(stack, EnvsOf(top) + {moduleEnv}) && moduleEnv !in EnvsOf(top) && spare <= h.Keys
      requires Trees(h, args, vs) && TreesIn(h, args, vs, spare)
      modifies this`top, this`stack
      ensures Current(h') && Grown(h, h') && fresh(New(h, h'))
      ensures returnRegister == old(returnRegister) && finished == old(finished) && (forall o :: o in Envs() ==> o in old(Envs()) || fresh(o))
      ensures match Machine.CreateFrame(program, id, vs)
        case Failure(f) => r == Some(f)
        case Success(g) => r == None && Stands(h', Machine.State(g, s.stack + [s.top], s.register))
    {
      hide Whole, Machine.CreateFrame, Tree, Foot, ViewStands, ViewFoot, Trees, TreesIn;
      ghost var p := PartsOf(s).(top := ViewOf(caller));
      ModuleStands(h, p, spare);
      var info;
      info, h' := CreateStackInfo(program, id, args, moduleEnv, h, vs, spare);
      if info.Bad? {
        return Some(info.fault), h';
      }
      WholePush(h, h', p, spare, ViewOf(info.value), Machine.CreateFrame(program, id, vs).value);
      DistinctPush(stack, caller, EnvsOf(info.value), moduleEnv);
      stack := stack + [caller];
      top := info.value;
      r := None;
      assert Views(stack) == old(Views(stack)) + [ViewOf(caller)];
      AllEnvsPush(old(stack), caller);
    }

    /** The frame below comes back; without one the run is over. */
    method Pop(x: HeapValue, ghost h: Heap, ghost s: Machine.State, ghost v: Value, ghost spare: set<Cell>)
      requires Whole(h, PartsOf(s), spare) && Tree(h, x, v) && Foot(h, x, v) <= spare
      requires Distinct(stack, EnvsOf(top) + {moduleEnv}) && moduleEnv !in EnvsOf(top)
      modifies this`top, this`stack, this`returnRegister, this`finished
      ensures Envs() <= old(Envs())
      ensures match Machine.Pop(s, v)
        case Running(s') => finished == old(finished) && Stands(h, s')
        case Finished(w) => finished && returnRegister.Some? && Tree(h, returnRegister.value, w)
        case Faulted(_) => false
    {
      hide Tree, Foot, ViewStands, ViewFoot, EnvStands, EnvFoot, Stack, RegStands, RegFoot;
      ghost var p := PartsOf(s);
      StackSizes(h, p.ws, p.fs, TopFoot(h, p) + RegFoot(h, p.reg, p.r) + ModuleFoot(h, p) + spare);
      if |stack| > 0 {
        WholePop(h, p, spare, x, v);
        DistinctPop(stack, EnvsOf(top) + {moduleEnv}, moduleEnv);
        top := stack[|stack| - 1];
        stack := stack[..|stack| - 1];
        assert Views(stack) == p.ws[..|p.ws| - 1];
      } else {
        finished := true;
      }
      returnRegister := Some(x);
    }

    /** The cells a step may write to. */
    ghost function Reach(h: Heap, s: Machine.State): set<Cell>
      reads EnvsOf(top), this`top
    {
      ViewFoot(h, ViewOf(top), s.top)
    }

    /** A host function: its arguments are taken, its result is its own. */
    method StepBuiltin(ghost h: Heap, ghost s: Machine.State) returns (r: Option<Fault>, ghost h': Heap)
      requires Current(h) && Stands(h, s) && !finished && top.BuiltinStack?
      modifies this`top, this`stack, this`returnRegister, this`finished
      ensures Current(h') && Grown(h, h') && fresh(New(h, h'))
      ensures Stepped(h', Machine.Step(program, s), r) && (forall o :: o in Envs() ==> o in old(Envs()) || fresh(o))
    {
      hide Tree, Foot, EnvStands, EnvFoot, Stack, RegStands, RegFoot, TreesFoot;
      ghost var vs := s.top.args;
      TopArgs(h, PartsOf(s));
      var args := ValuesOf(top.args, h, vs);
      var result := program.builtin(top.id, args);
      h' := h;
      if result.None? {
        return Some(BuiltinFault), h;
      }
      var x;
      x, h' := Materialize(result.value, h);
      WholeSpare(h, h', PartsOf(s));
      Pop(x, h', s, result.value, New(h, h'));
      r := None;
    }

    /** One instruction of a bytecode frame. */
    method StepByteCode(ghost h: Heap, ghost s: Machine.State) returns (r: Option<Fault>, ghost h': Heap)
      requires Current(h) && Stands(h, s) && !finished && top.ByteCodeStack?
      modifies this`top, this`stack, this`returnRegister, this`finished, top.env, Reach(h, s)
      ensures Current(h') && h.Keys <= h'.Keys && fresh(New(h, h'))
      ensures Stepped(h', Machine.Step(program, s), r) && (forall o :: o in Envs() ==> o in old(Envs()) || fresh(o))
    {
      hide Tree, Foot, EnvFoot, EnvStands, Stack, RegStands, RegFoot, TreesFoot, Machine.Execute, Machine.CreateFrame, Trees, TreesIn, Whole;
      hide Machine.Act, ViewFoot, ViewStands, Machine.Pop, Machine.MoveIP;
      TopByteFrame(h, PartsOf(s));
      var fn, ip := top.fn, top.ip;
      if fn !in program.code {
        return Some(UnknownFnPanic), h;
      }
      var instructions := program.code[fn].code;
      if ip >= |instructions| {
        return Some(IpOutOfBounds), h;
      }
      ghost var result := Machine.Execute(program.floats, instructions[ip], s.top.env, s.register);
      var a, h1, s1 := Instruct(instructions[ip], h, s);
      h' := h1;
      ActIs(program, s, fn, ip, s.top.env, result);
      if a.Bad? {
        return Some(a.fault), h1;
      }
      r, h' := Perform(a.value, h1, s1, result.value, if result.value.IncrementIP? then {} else New(h, h1));
      assert New(h, h') == New(h, h1) + New(h1, h');
    }

    /** The instruction itself, and the move of the instruction pointer. */
    method Instruct(instr: Instruction, ghost h: Heap, ghost s: Machine.State) returns (a: Got<HAction>, ghost h': Heap, ghost s': Machine.State)
      requires Current(h) && Stands(h, s) && !finished && top.ByteCodeStack? && s.top.ByteFrame? && s.top.ip == top.ip
      modifies this`top, this`returnRegister, top.env, Reach(h, s)
      ensures Current(h') && Beyond(h, h', old(Reach(h, s))) && fresh(New(h, h'))
      ensures Envs() == old(Envs()) && !finished && stack == old(stack) && EnvsOf(top) == old(EnvsOf(top))
      ensures Instructed(a, Machine.Execute(program.floats, instr, s.top.env, s.register), h, h', s, s')
    {
      hide Tree, Foot, EnvFoot, EnvStands, Stack, RegStands, RegFoot, TreesFoot, Machine.Execute, Trees, TreesIn, Whole;
      var fn, env, ip := top.fn, top.env, top.ip;
      ghost var p := PartsOf(s);
      TopByteFrame(h, p);
      s' := s;
      var reg;
      a, reg, h' := ExecuteInstruction(program.floats, instr, env, returnRegister, h, s.top.env, s.register);
      if a.Bad? {
        return;
      }
      ghost var m := Machine.Execute(program.floats, instr, s.top.env, s.register).value;
      var ip' := match a.value
        case SetIP(target) => Success(target)
        case AddIP(offset) => Machine.MoveIP(ip, offset)
        case PopStack(_) => Success(ip)
        case _ => Machine.MoveIP(ip, 1);
      if ip'.Failure? {
        a := Bad(ip'.error);
        return;
      }
      returnRegister := reg;
      top := ByteCodeStack(fn, env, ip'.value);
      s' := Machine.State(Machine.ByteFrame(fn, ip'.value, EnvAfter(m, s.top.env)), s.stack, RegAfter(m, s.register));
      assert Views(stack) == p.ws;
      AfterInstruction(h, h', p, m, EnvView(fn, ip'.value, env.env, env.tmpStore), s'.top, reg, if m.IncrementIP? then {} else New(h, h'));
      assert PartsOf(s') == p.(top := ViewOf(top), f := s'.top, reg := reg, r := s'.register);
    }

    /** The executor after an instruction: its parts are in place, and the action in flight is the one of the value machine. */
    ghost predicate Instructed(a: Got<HAction>, m: Result<Machine.Action>, h: Heap, h': Heap, s: Machine.State, s': Machine.State)
      requires s.top.ByteFrame?
      reads this, EnvsOf(top), AllEnvs(stack), moduleEnv
    {
      if m.Failure? then a.Bad? && Alike(a.fault, m.error)
      else if IpAfter(s.top.ip, m.value).Failure? then a == Bad(IpAfter(s.top.ip, m.value).error)
      else
        var spare := if m.value.IncrementIP? then {} else New(h, h');
        && a.Ok? && s' == Moved(s, m.value) && Whole(h', PartsOf(s'), spare)
        && (a.value.PushStack? <==> m.value.PushStack?) && (a.value.PopStack? <==> m.value.PopStack?)
        && (a.value.PushStack? ==> a.value.id == m.value.id && Trees(h', a.value.args, m.value.args) && TreesIn(h', a.value.args, m.value.args, spare))
        && (a.value.PopStack? ==> Tree(h', a.value.value, m.value.value) && Foot(h', a.value.value, m.value.value) <= spare)
    }

    /** What is left to do once the top frame and the register are up to date. */
    method Perform(a: HAction, ghost h: Heap, ghost s: Machine.State, ghost m: Machine.Action, ghost spare: set<Cell>)
      returns (r: Option<Fault>, ghost h': Heap)
      requires Current(h) && Whole(h, PartsOf(s), spare) && spare <= h.Keys && !finished
      requires Distinct(stack, EnvsOf(top) + {moduleEnv}) && moduleEnv !in EnvsOf(top)
      requires (a.PushStack? <==> m.PushStack?) && (a.PopStack? <==> m.PopStack?)
      requires a.PushStack? ==> m.PushStack? && a.id == m.id && Trees(h, a.args, m.args) && TreesIn(h, a.args, m.args, spare)
      requires a.PopStack? ==> m.PopStack? && Tree(h, a.value, m.value) && Foot(h, a.value, m.value) <= spare
      modifies this`top, this`stack, this`returnRegister, this`finished
      ensures Current(h') && Grown(h, h') && fresh(New(h, h')) && (forall o :: o in Envs() ==> o in old(Envs()) || fresh(o))
      ensures Stepped(h', if a.PushStack? then Pushed(program, s, m.id, m.args) else if a.PopStack? then Machine.Pop(s, m.value) else Machine.Running(s), r)
    {
      hide Tree, Foot, Trees, TreesIn, Whole, Machine.CreateFrame;
      r, h' := None, h;
      match a {
        case PushStack(id, args) =>
          r, h' := Push(top, id, args, h, s, m.args, spare);
        case PopStack(x) =>
          Pop(x, h, s, m.value, spare);
        case _ =>
          WholeLess(h, PartsOf(s), spare);
      }
    }

    method Step(ghost h: Heap, ghost s: Machine.State) returns (r: Option<Fault>, ghost h': Heap)
      requires Current(h) && Stands(h, s) && !finished
      modifies this`top, this`stack, this`returnRegister, this`finished, EnvsOf(top), Reach(h, s)
      ensures Current(h') && h.Keys <= h'.Keys && fresh(New(h, h'))
      ensures Stepped(h', Machine.Step(program, s), r) && (forall o :: o in Envs() ==> o in old(Envs()) || fresh(o))
    {
      hide Whole, ViewFoot, ViewStands, Tree, Machine.Step;
      match top {
        case BuiltinStack(_, _) => r, h' := StepBuiltin(h, s);
        case ByteCodeStack(_, _, _) => r, h' := StepByteCode(h, s);
      }
    }

    /** Up to `limit` steps.  The loop of the original has no bound of its own. */
    method RunFor(limit: nat, ghost h: Heap, ghost s: Machine.State) returns (o: HOutcome, ghost h': Heap)
      requires Current(h) && Stands(h, s) && !finished
      modifies this`top, this`stack, this`returnRegister, this`finished, Envs(), h.Keys
      ensures Current(h') && h.Keys <= h'.Keys
      ensures Agrees(o, Machine.Run(program, s, limit), h')
    {
      hide Machine.Step, Machine.Run, Whole, ViewFoot, ViewStands, Tree, Foot, EnvsOf, Stands;
      h' := h;
      ghost var s', envs := s, Envs();
      for k := 0 to limit
        invariant !finished && (forall o :: o in Envs() ==> o in envs || fresh(o))
        invariant Current(h') && h.Keys <= h'.Keys && fresh(New(h, h')) && Stands(h', s')
        invariant Machine.Run(program, s, limit) == Machine.Run(program, s', limit - k)
      {
        ghost var h1 := h';
        InReach(h1, s');
        assert h1.Keys == h.Keys + New(h, h1);
        RunStep(program, s', limit - k);
        var fault;
        fault, h' := Step(h1, s');
        assert New(h, h') == New(h, h1) + New(h1, h');
        if fault.Some? {
          return Failed(fault.value), h';
        }
        if finished {
          return Done(returnRegister.value), h';
        }
        s' := Machine.Step(program, s').state;
      }
      RunStep(program, s', 0);
      o := Going;
    }

    /** The loop of the original: steps until the executor is finished or a step fails.  `limit` is a number of steps
        that is known to be enough; without one the loop need not end. */
    method RunToEnd(ghost limit: nat, ghost h: Heap, ghost s: Machine.State) returns (o: HOutcome, ghost h': Heap)
      requires Current(h) && Stands(h, s) && !finished && !Machine.Run(program, s, limit).Running?
      modifies this`top, this`stack, this`returnRegister, this`finished, Envs(), h.Keys
      ensures Current(h') && h.Keys <= h'.Keys
      ensures Agrees(o, Machine.Run(program, s, limit), h')
    {
      hide Machine.Step, Machine.Run, Whole, ViewFoot, ViewStands, Tree, Foot, EnvsOf, Stands;
      h' := h;
      ghost var s', envs, left, m := s, Envs(), limit, Machine.Running(s);
      while !finished
        invariant (forall o :: o in Envs() ==> o in envs || fresh(o))
        invariant Current(h') && h.Keys <= h'.Keys && fresh(New(h, h'))
        invariant !finished ==> Stands(h', s') && Machine.Run(program, s, limit) == Machine.Run(program, s', left)
        invariant finished ==> Stepped(h', m, None) && !m.Running? && Machine.Run(program, s, limit) == m
        decreases !finished, left
      {
        ghost var h1 := h';
        InReach(h1, s');
        assert h1.Keys == h.Keys + New(h, h1);
        RunStep(program, s', left);
        m := Machine.Step(program, s');
        var fault;
        fault, h' := Step(h1, s');
        assert New(h, h') == New(h, h1) + New(h1, h');
        if fault.Some? {
          return Failed(fault.value), h';
        }
        left := left - 1;
        if m.Running? {
          s' := m.state;
        }
      }
      o := Done(returnRegister.value);
    }

    lemma InReach(h: Heap, s: Machine.State)
      requires Stands(h, s)
      ensures Reach(h, s) <= h.Keys && EnvsOf(top) <= Envs()
    {
      ViewIn(h, ViewOf(top), s.top);
    }

    /** How a step over cells agrees with a step over values. */
    ghost predicate Stepped(h: Heap, o: Machine.Outcome, r: Option<Fault>)
      reads this, EnvsOf(top), AllEnvs(stack), moduleEnv
    {
      match o
      case Running(s) => r == None && !finished && Stands(h, s)
      case Finished(v) => r == None && finished && returnRegister.Some? && Tree(h, returnRegister.value, v)
      case Faulted(f) => r.Some? && Alike(r.value, f)
    }
  }

  function IpAfter(ip: nat, m: Machine.Action): Result<nat> {
    match m
    case SetIP(target) => Success(target)
    case AddIP(offset) => Machine.MoveIP(ip, offset)
    case PopStack(_) => Success(ip)
    case _ => Machine.MoveIP(ip, 1)
  }

  /** The state with the top frame's environment, its instruction pointer and the register up to date. */
  function Moved(s: Machine.State, m: Machine.Action): Machine.State
    requires s.top.ByteFrame? && IpAfter(s.top.ip, m).Success?
  {
    Machine.State(Machine.ByteFrame(s.top.fn, IpAfter(s.top.ip, m).value, EnvAfter(m, s.top.env)), s.stack, RegAfter(m, s.register))
  }

  lemma ActIs(p: Machine.Program, s: Machine.State, fn: FnId, ip: nat, env: Machine.Env, m: Result<Machine.Action>)
    requires s.top == Machine.ByteFrame(fn, ip, env)
    ensures Machine.Act(p, s, fn, ip, env, m) ==
      if m.Failure? then Machine.Faulted(m.error)
      else if IpAfter(ip, m.value).Failure? then Machine.Faulted(IpAfter(ip, m.value).error)
      else
        var s' := Moved(s, m.value);
        if m.value.PushStack? then Pushed(p, s', m.value.id, m.value.args)
        else if m.value.PopStack? then Machine.Pop(s', m.value.value) else Machine.Running(s')
  {
    hide Machine.CreateFrame;
  }

  /** The outcome of a call, once the caller's instruction pointer has moved on. */
  function Pushed(p: Machine.Program, s: Machine.State, id: FnId, args: seq<Value>): Machine.Outcome {
    var g := Machine.CreateFrame(p, id, args);
    if g.Failure? then Machine.Faulted(g.error) else Machine.Running(Machine.State(g.value, s.stack + [s.top], s.register))
  }

  lemma TopByteFrame(h: Heap, p: Parts)
    requires Whole(h, p, {}) && p.top.EnvView?
    ensures p.f.ByteFrame? && p.f.fn == p.top.fn && p.f.ip == p.top.ip && EnvStands(h, p.top.vars, p.top.tmps, p.f.env)
    ensures RegStands(h, p.reg, p.r) && RegFoot(h, p.reg, p.r) !! EnvFoot(h, p.top.vars, p.top.tmps, p.f.env)
  {
    hide Stack, EnvStands, EnvFoot;
  }

  lemma WholeLess(h: Heap, p: Parts, spare: set<Cell>)
    requires Whole(h, p, spare)
    ensures Whole(h, p, {})
  {
    hide ViewStands, ViewFoot, EnvStands, EnvFoot, Stack, RegStands, RegFoot;
    var apart := TopFoot(h, p) + RegFoot(h, p.reg, p.r) + ModuleFoot(h, p);
    StackApart(h, p.ws, p.fs, apart + spare, apart + {});
  }

  /** One instruction of the top frame leaves the forest a forest. */
  lemma AfterInstruction(h: Heap, h': Heap, p: Parts, m: Machine.Action, top': View, f': Machine.Frame, reg': Option<HeapValue>, spare: set<Cell>)
    requires Whole(h, p, {}) && p.top.EnvView? && p.f.ByteFrame? && Beyond(h, h', TopFoot(h, p))
    requires top'.EnvView? && f'.ByteFrame? && f'.env == EnvAfter(m, p.f.env) && ViewStands(h', top', f')
    requires Keeps(m, h, h', TopFoot(h, p), ViewFoot(h', top', f'), p.reg, reg', p.r)
    requires spare == if m.IncrementIP? then {} else New(h, h')
    ensures Whole(h', p.(top := top', f := f', reg := reg', r := RegAfter(m, p.r)), spare)
  {
    hide EnvStands, EnvFoot, Stack, RegStands, RegFoot;
    ViewIn(h, p.top, p.f);
    WholeExecuted(h, h', p, top', f', reg', RegAfter(m, p.r), spare);
  }

  datatype HOutcome = Going | Done(value: HeapValue) | Failed(fault: Fault)

  /** A run over cells agrees with a run over values. */
  ghost predicate Agrees(o: HOutcome, m: Machine.Outcome, h: Heap) {
    match (o, m)
    case (Going, Running(_)) => true
    case (Done(x), Finished(v)) => Tree(h, x, v)
    case (Failed(f), Faulted(g)) => Alike(f, g)
    case _ => false
  }

  /** A call from the host, for up to `limit` steps. */
  method Execute(program: Machine.Program, id: FnId, args: seq<HeapValue>, limit: nat, ghost h: Heap, ghost vs: seq<Value>)
    returns (o: HOutcome, ghost h': Heap)
    requires Current(h) && Trees(h, args, vs)
    modifies h.Keys
    ensures Current(h') && h.Keys <= h'.Keys
    ensures match Machine.Start(program, id, vs)
      case Running(s) => Agrees(o, Machine.Run(program, s, limit), h')
      case end => Agrees(o, end, h')
  {
    hide Machine.Start, Machine.Step, Machine.Run, Whole, ViewFoot, ViewStands, Tree, Foot;
    var x, h1 := NewExecutor(program, id, args, h, vs);
    h' := h1;
    if x.Bad? {
      return Failed(x.fault), h';
    }
    assert h1.Keys == h.Keys + New(h, h1);
    o, h' := x.value.RunFor(limit, h1, Machine.Start(program, id, vs).state);
  }

  /** A call from the host that ends: `limit` is some number of steps after which it has. */
  method ExecuteToEnd(program: Machine.Program, id: FnId, args: seq<HeapValue>, ghost limit: nat, ghost h: Heap, ghost vs: seq<Value>)
    returns (o: HOutcome, ghost h': Heap)
    requires Current(h) && Trees(h, args, vs)
    requires var m := Machine.Start(program, id, vs); m.Running? ==> !Machine.Run(program, m.state, limit).Running?
    modifies h.Keys
    ensures Current(h') && h.Keys <= h'.Keys
    ensures var m := Machine.Start(program, id, vs); Agrees(o, if m.Running? then Machine.Run(program, m.state, limit) else m, h')
  {
    hide Machine.Start, Machine.Step, Machine.Run, Whole, ViewFoot, ViewStands, Tree, Foot;
    var x, h1 := NewExecutor(program, id, args, h, vs);
    h' := h1;
    if x.Bad? {
      return Failed(x.fault), h';
    }
    assert h1.Keys == h.Keys + New(h, h1);
    o, h' := x.value.RunToEnd(limit, h1, Machine.Start(program, id, vs).state);
  }

  lemma RunStep(p: Machine.Program, s: Machine.State, n: nat)
    ensures n == 0 ==> Machine.Run(p, s, n) == Machine.Running(s)
    ensures n > 0 ==> var o := Machine.Step(p, s);
      Machine.Run(p, s, n) == if o.Running? then Machine.Run(p, o.state, n - 1) else o
  {
    hide Machine.Step;
  }

  /** Every function of the program under its generated name. */
  method MapFunctions(program: Machine.Program) returns (env: Env, ghost h: Heap)
    ensures Current(h) && fresh(h.Keys) && fresh(env) && env.Stands(h, ModuleEnv(program))
  {
    hide Tree, Foot, EnvStands, EnvFoot;
    env := new Env();
    h := map[];
    var rest := program.code.Keys + program.builtins;
    ghost var e := Machine.Env(map[], map[]);
    NoEnv(h, e);
    while rest != {}
      invariant Current(h) && fresh(h.Keys) && env.Stands(h, e) && e.tmps == map[]
      invariant rest <= program.code.Keys + program.builtins
      invariant e.vars == map id | id in (program.code.Keys + program.builtins) - rest :: FnName(id) := Fn(id)
    {
      var id :| id in rest;
      ScalarMade(Fn(id), h);
      ghost var h1 := h;
      h := env.MapValue(FnName(id), HFn(id), h1, e, Fn(id));
      assert h.Keys == h1.Keys + New(h1, h);
      e := e.(vars := e.vars[FnName(id) := Fn(id)]);
      rest := rest - {id};
    }
    assert e == ModuleEnv(program);
  }

  lemma NoEnv(h: Heap, e: Machine.Env)
    requires h == map[] && e == Machine.Env(map[], map[])
    ensures EnvStands(h, map[], map[], e)
  {
  }

  /** A new executor for a call from the host, with arguments that share nothing. */
  method NewExecutor(program: Machine.Program, id: FnId, args: seq<HeapValue>, ghost h: Heap, ghost vs: seq<Value>)
    returns (r: Got<Executor>, ghost h': Heap)
    requires Current(h) && Trees(h, args, vs)
    ensures Current(h') && Grown(h, h') && fresh(New(h, h'))
    ensures match (r, Machine.Start(program, id, vs))
      case (Bad(f), Faulted(g)) => f == g
      case (Ok(x), Running(s)) => fresh(x) && x.program == program && !x.finished && x.Stands(h', s) && fresh(x.Envs())
      case _ => false
  {
    hide Machine.CreateFrame, Tree, Foot, EnvStands, EnvFoot, ViewStands, ViewFoot, Trees, TreesIn;
    var moduleEnv, hm := MapFunctions(program);
    ghost var h1 := h + hm;
    h' := h1;
    ghost var spare := TreesFoot(h, args, vs);
    JoinHeaps(h, hm, args, vs, moduleEnv.env, moduleEnv.tmpStore, ModuleEnv(program));
    var info;
    info, h' := CreateStackInfo(program, id, args, moduleEnv, h1, vs, spare);
    assert New(h, h') <= New(h1, h') + hm.Keys;
    if info.Bad? {
      return Bad(info.fault), h';
    }
    var x := new Executor(program, moduleEnv, info.value);
    ghost var s := Machine.State(Machine.CreateFrame(program, id, vs).value, [], None);
    assert x.stack == [] && x.returnRegister == None;
    FirstWhole(h1, h', x.PartsOf(s), spare);
    r := Ok(x);
  }

  lemma JoinHeaps(h: Heap, hm: Heap, args: seq<HeapValue>, vs: seq<Value>, vars: map<Name, Cell>, tmps: map<Name, Cell>, e: Machine.Env)
    requires Trees(h, args, vs) && EnvStands(hm, vars, tmps, e) && h.Keys !! hm.Keys
    ensures var h1 := h + hm;
      && Grown(h, h1) && EnvStands(h1, vars, tmps, e) && EnvFoot(h1, vars, tmps, e) <= hm.Keys
      && Trees(h1, args, vs) && TreesIn(h1, args, vs, TreesFoot(h, args, vs)) && TreesFoot(h, args, vs) <= h.Keys
  {
    hide Tree, Foot, Family, FamilyFoot;
    EnvIn(hm, vars, tmps, e);
    EnvFrame(hm, h + hm, vars, tmps, e);
    forall i | 0 <= i < |args| ensures Foot(h, args[i], vs[i]) <= TreesFoot(h, args, vs) && Foot(h, args[i], vs[i]) <= h.Keys {
      FootIn(h, args[i], vs[i]);
    }
    TreesFrame(h, h + hm, args, vs, TreesFoot(h, args, vs));
  }

  lemma FirstWhole(h1: Heap, h: Heap, p: Parts, spare: set<Cell>)
    requires p.ws == [] && p.fs == [] && p.reg == None && p.r == None && Grown(h1, h)
    requires EnvStands(h1, p.mvars, p.mtmps, p.me) && spare !! EnvFoot(h1, p.mvars, p.mtmps, p.me)
    requires ViewStands(h, p.top, p.f) && ViewFoot(h, p.top, p.f) <= spare + New(h1, h)
    ensures Whole(h, p, {})
  {
    hide ViewStands, ViewFoot, EnvStands, EnvFoot;
    EnvIn(h1, p.mvars, p.mtmps, p.me);
    EnvFrame(h1, h, p.mvars, p.mtmps, p.me);
  }

  /** The values a host function sees. */
  method ValuesOf(xs: seq<HeapValue>, ghost h: Heap, ghost vs: seq<Value>) returns (r: seq<Value>)
    requires Current(h) && Trees(h, xs, vs)
    ensures r == vs
  {
    hide Tree, Foot;
    r := [];
    for i := 0 to |xs|
      invariant r == vs[..i]
    {
      var v := ValueOf(xs[i], h, vs[i]);
      r := r + [v];
    }
  }

  method ValueOf(x: HeapValue, ghost h: Heap, ghost v: Value) returns (r: Value)
    requires Current(h) && Tree(h, x, v)
    ensures r == v
    decreases v
  {
    hide Foot, CellFoot;
    match x {
      case HInt(i) => r := Int(i);
      case HFloat(f) => r := Float(f);
      case HBool(b) => r := Bool(b);
      case HStr(s) => r := Str(s);
      case HFn(id) => r := Fn(id);
      case HUnit => r := Unit;
      case HArr(cells) =>
        var vs: seq<Value> := [];
        for i := 0 to |cells|
          invariant vs == v.elems[..i]
        {
          var w := ValueOf(cells[i].value, h, v.elems[i]);
          vs := vs + [w];
        }
        r := Arr(vs);
      case HStruct(fields) =>
        var m: map<string, Value> := map[];
        var rest := fields.Keys;
        while rest != {}
          invariant rest <= fields.Keys && m.Keys == fields.Keys - rest && forall k :: k in m ==> m[k] == v.fields[k]
        {
          var k :| k in rest;
          var w := ValueOf(fields[k].value, h, v.fields[k]);
          m, rest := m[k := w], rest - {k};
        }
        assert m == v.fields;
        r := Struct(m);
    }
  }

  lemma TopArgs(h: Heap, p: Parts)
    requires Whole(h, p, {}) && p.top.ArgsView?
    ensures p.f == Machine.BuiltinFrame(p.top.id, p.f.args) && Trees(h, p.top.args, p.f.args)
  {
  }

  /** New cells are spare. */
  lemma WholeSpare(h: Heap, h': Heap, p: Parts)
    requires Whole(h, p, {}) && Grown(h, h')
    ensures Whole(h', p, New(h, h'))
  {
    hide ViewStands, ViewFoot, EnvStands, EnvFoot, Tree, Foot, Stack, RegStands, RegFoot;
    ViewIn(h, p.top, p.f);
    ViewFrame(h, h', p.top, p.f);
    RegIn(h, p.reg, p.r);
    RegFrame(h, h', p.reg, p.r);
    EnvIn(h, p.mvars, p.mtmps, p.me);
    EnvFrame(h, h', p.mvars, p.mtmps, p.me);
    var apart := TopFoot(h, p) + RegFoot(h, p.reg, p.r) + ModuleFoot(h, p);
    assert apart + {} == apart;
    StackFrame(h, h', p.ws, p.fs, apart, {});
  }

  method CreateStackInfo(program: Machine.Program, id: FnId, args: seq<HeapValue>, moduleEnv: Env,
                         ghost h: Heap, ghost vs: seq<Value>, ghost spare: set<Cell>)
    returns (r: Got<StackInfo>, ghost h': Heap)
    requires Current(h) && moduleEnv.Stands(h, ModuleEnv(program)) && spare <= h.Keys
    requires Trees(h, args, vs) && TreesIn(h, args, vs, spare)
    ensures Current(h') && Grown(h, h') && fresh(New(h, h'))
    ensures match (r, Machine.CreateFrame(program, id, vs))
      case (Bad(f), Failure(g)) => f == g
      case (Ok(info), Success(g)) =>
        ViewStands(h', ViewOf(info), g) && ViewFoot(h', ViewOf(info), g) <= spare + New(h, h') && fresh(EnvsOf(info))
      case _ => false
  {
    hide Machine.BindParams, Machine.ModuleVars, Tree, Foot, Family, FamilyFoot, EnvStands, EnvFoot;
    h' := h;
    if id in program.builtins {
      SpareFoot(h, args, vs, spare);
      return Ok(BuiltinStack(id, args)), h;
    }
    if id !in program.code {
      return Bad(UnknownFnPanic), h;
    }
    var params := program.code[id].params;
    if |params| != |args| {
      return Bad(InvalidArgCount), h;
    }
    var env;
    env, h' := NewEnv(moduleEnv, params, args, h, ModuleEnv(program), vs, spare);
    r := Ok(ByteCodeStack(id, env, 0));
  }

  lemma DistinctPush(stack: seq<StackInfo>, caller: StackInfo, more: set<Env>, m: Env)
    requires Distinct(stack, EnvsOf(caller) + {m}) && m !in EnvsOf(caller)
    requires more !! AllEnvs(stack) && more !! EnvsOf(caller)
    ensures Distinct(stack + [caller], more + {m})
  {
  }

  lemma AllEnvsPush(stack: seq<StackInfo>, caller: StackInfo)
    ensures AllEnvs(stack + [caller]) <= AllEnvs(stack) + EnvsOf(caller)
  {
  }

  lemma DistinctPop(stack: seq<StackInfo>, others: set<Env>, m: Env)
    requires Distinct(stack, others) && stack != [] && m in others
    ensures var k := |stack| - 1; Distinct(stack[..k], EnvsOf(stack[k]) + {m}) && m !in EnvsOf(stack[k])
  {
    var k := |stack| - 1;
    forall i | 0 <= i < k ensures stack[..k][i] == stack[i] {
    }
  }

  lemma ModuleStands(h: Heap, p: Parts, spare: set<Cell>)
    requires Whole(h, p, spare)
    ensures EnvStands(h, p.mvars, p.mtmps, p.me)
  {
  }
}
