/** How emitted code and statement outcomes line up. */
module SimFlow {
  import opened Values
  import opened Syntax
  import opened ByteCode
  import opened ExprFlow
  import opened ByteExpr
  import opened Frames
  import opened SecondPass
  import opened ThirdPass
  import opened Layout
  import opened Machine
  import opened Evaluator
  import opened Compiler
  import opened SimBase

  /** A place in a running function: its partial code, and the innermost loop around the place. */
  datatype Site = Site(c: Ctx, code: seq<Partial>, inside: bool, loop: nat, begin: nat, end: nat)

  ghost predicate SiteOk(t: Site) {
    && CtxOk(t.c) && CodeOf(t.c) == Resolve(t.code) && UniqueMarkers(t.code)
    && (t.inside ==>
          && t.begin < |t.code| && t.code[t.begin] == LoopBegin(t.loop)
          && t.end < |t.code| && t.code[t.end] == LoopEnd(t.loop))
  }

  // ---------------------------------------------------------------- outcomes of statements

  /** The run over a statement's code, for every way control can leave it.  `here` is where it starts and
      `there` the emitted position right behind it. */
  ghost predicate FlowDone(t: Site, here: nat, there: nat, vars: Vars, tmps: Vars, reg: Option<Value>,
                           flow: Flow, fuel: nat, k: nat, tmps': Vars, reg': Option<Value>)
  {
    var s := At(t.c, here, vars, tmps, reg);
    match flow
    case Next(v) => Run(t.c.p, s, k) == Running(At(t.c, there, v, tmps', reg')) && VarsOk(v) && TmpsOk(tmps')
    case Broke(v) =>
      && t.inside && t.end <= |t.code| && VarsOk(v) && TmpsOk(tmps')
      && Run(t.c.p, s, k) == Running(At(t.c, Pos(t.code, t.end), v, tmps', reg'))
    case Continued(v) =>
      && t.inside && t.begin <= |t.code| && VarsOk(v) && TmpsOk(tmps')
      && Run(t.c.p, s, k) == Running(At(t.c, Pos(t.code, t.begin), v, tmps', reg'))
    case Returned(v) => Run(t.c.p, s, k) == Pop(s, v)
    case Stopped(f) => Stops(t.c.p, s, k, f, fuel)
  }

  /** A run to the start of a piece of code, followed by the run over it. */
  lemma FlowAfter(t: Site, ip0: nat, vars0: Vars, tmps0: Vars, reg0: Option<Value>, k0: nat,
                  here: nat, there: nat, vars: Vars, tmps: Vars, reg: Option<Value>,
                  flow: Flow, fuel: nat, k: nat, tmps': Vars, reg': Option<Value>)
    requires Run(t.c.p, At(t.c, ip0, vars0, tmps0, reg0), k0) == Running(At(t.c, here, vars, tmps, reg))
    requires FlowDone(t, here, there, vars, tmps, reg, flow, fuel, k, tmps', reg')
    ensures FlowDone(t, ip0, there, vars0, tmps0, reg0, flow, fuel, k0 + k, tmps', reg')
  {
    hide Run, Step;
    RunThen(t.c.p, At(t.c, ip0, vars0, tmps0, reg0), k0, At(t.c, here, vars, tmps, reg), k);
  }

  /** The code behind a piece of code that control has fallen out of. */
  lemma FlowThen(t: Site, ip0: nat, vars0: Vars, tmps0: Vars, reg0: Option<Value>, here: nat, vars: Vars, fuel: nat, k0: nat,
                 tmps: Vars, reg: Option<Value>, there: nat, flow: Flow, k: nat, tmps': Vars, reg': Option<Value>)
    requires FlowDone(t, ip0, here, vars0, tmps0, reg0, Next(vars), fuel, k0, tmps, reg)
    requires FlowDone(t, here, there, vars, tmps, reg, flow, fuel, k, tmps', reg')
    ensures FlowDone(t, ip0, there, vars0, tmps0, reg0, flow, fuel, k0 + k, tmps', reg')
  {
    hide Run, Step;
    FlowAfter(t, ip0, vars0, tmps0, reg0, k0, here, there, vars, tmps, reg, flow, fuel, k, tmps', reg');
  }

  /** A break or continue instruction: a jump to a marker of the innermost loop. */
  lemma MarkerJump(t: Site, p: nat, target: nat, vars: Vars, tmps: Vars, reg: Option<Value>)
    requires SiteOk(t) && t.inside && p < |t.code|
    requires (t.code[p] == BreakTo(t.loop) && target == t.end) || (t.code[p] == ContinueTo(t.loop) && target == t.begin)
    ensures Run(t.c.p, At(t.c, Pos(t.code, p), vars, tmps, reg), 1) == Running(At(t.c, Pos(t.code, target), vars, tmps, reg))
  {
    hide Run, Step, CompileWorld, Resolve, Len, Pos, IndexOf;
    MarkerFound(t.code, target);
    ResolveAt(t.code, p);
    PosBound(t.code, target);
    PosBound(t.code, p);
    JumpStep(t.c, Pos(t.code, p), vars, tmps, reg, Pos(t.code, target));
  }

  lemma ReturnStep(c: Ctx, ip: nat, ret: Option<Arg>, vars: Vars, tmps: Vars, reg: Option<Value>, v: Value)
    requires CtxOk(c) && ip < |CodeOf(c)| && CodeOf(c)[ip] == Instruction.Return(ret)
    requires (ret == None && v == Unit) || (ret.Some? && ArgValue(Env(vars, tmps), ret.value) == Success(v))
    ensures Run(c.p, At(c, ip, vars, tmps, reg), 1) == Pop(At(c, ip, vars, tmps, reg), v)
  {
    OneStep(c.p, At(c, ip, vars, tmps, reg));
  }

  lemma OffTheEnd(c: Ctx, vars: Vars, tmps: Vars, reg: Option<Value>)
    requires CtxOk(c)
    ensures Run(c.p, At(c, |CodeOf(c)|, vars, tmps, reg), 1) == Faulted(IpOutOfBounds)
  {
    OneStep(c.p, At(c, |CodeOf(c)|, vars, tmps, reg));
  }
}
