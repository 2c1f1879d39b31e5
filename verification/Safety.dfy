/** What the return trace buys at run time: control never leaves the code. */
module Safety {
  import opened Values
  import opened Syntax
  import opened ByteCode
  import opened Machine
  import opened Evaluator
  import opened ReturnTrace
  import opened Compiler
  import opened SimBase
  import opened Correctness

  /** The faults of a machine that has lost track of its own code. */
  predicate IsControl(f: Fault) {
    f in {InvalidInstruction, NoReturnValue, IpOutOfBounds, IpUnderflow, IpOverflow, StrayJump}
  }

  predicate Sound<T>(r: Result<T>) { r.Failure? ==> !IsControl(r.error) }

  predicate FlowSound(flow: Flow) { flow.Stopped? ==> !IsControl(flow.fault) }

  /** Every function has passed the return trace, or had its return appended. */
  ghost predicate Traced(w: World) {
    forall id :: id in w.fns ==> w.fns[id].returnsUnit || Returns(w.fns[id].body)
  }

  // ---------------------------------------------------------------- flows out of a body

  /** A body that returns on every path is never fallen out of. */
  lemma {:induction false} NoWayThrough(w: World, stmts: seq<Stmt>, vars: Vars, fuel: nat)
    requires Returns(stmts)
    ensures !ExecBlock(w, stmts, vars, fuel).Next?
    decreases stmts
  {
    hide Eval, EvalCondition;
    if |stmts| == 1 {
      StmtNoWayThrough(w, stmts[0], vars, fuel);
    } else {
      assert stmts[1..][|stmts| - 2] == stmts[|stmts| - 1];
      var flow := ExecStmt(w, stmts[0], vars, fuel);
      if flow.Next? {
        NoWayThrough(w, stmts[1..], flow.vars, fuel);
      }
    }
  }

  lemma {:induction false} StmtNoWayThrough(w: World, s: Stmt, vars: Vars, fuel: nat)
    requires StmtReturns(s)
    ensures !ExecStmt(w, s, vars, fuel).Next?
    decreases s
  {
    hide Eval, EvalCondition, ExecBlock, ExecArms;
    match s {
      case If(_, body, rest) =>
        NoWayThrough(w, body, vars, fuel);
        ArmsNoWayThrough(w, rest, vars, fuel);
      case _ =>
    }
  }

  lemma {:induction false} ArmsNoWayThrough(w: World, a: Arms, vars: Vars, fuel: nat)
    requires ArmsReturn(a)
    ensures !ExecArms(w, a, vars, fuel).Next?
    decreases a
  {
    hide Eval, EvalCondition, ExecBlock;
    match a {
      case Default(b) => NoWayThrough(w, b, vars, fuel);
      case Elif(_, b, rest) =>
        NoWayThrough(w, b, vars, fuel);
        ArmsNoWayThrough(w, rest, vars, fuel);
    }
  }

  /** A body whose jumps are inside loops is never jumped out of. */
  lemma {:induction false} NoWayOut(w: World, stmts: seq<Stmt>, vars: Vars, fuel: nat)
    requires JumpsInLoops(stmts, false)
    ensures var flow := ExecBlock(w, stmts, vars, fuel); !flow.Broke? && !flow.Continued?
    decreases stmts
  {
    hide ExecStmt;
    if stmts != [] {
      StmtNoWayOut(w, stmts[0], vars, fuel);
      var flow := ExecStmt(w, stmts[0], vars, fuel);
      if flow.Next? {
        NoWayOut(w, stmts[1..], flow.vars, fuel);
      }
    }
  }

  lemma {:induction false} StmtNoWayOut(w: World, s: Stmt, vars: Vars, fuel: nat)
    requires StmtJumpsInLoops(s, false)
    ensures var flow := ExecStmt(w, s, vars, fuel); !flow.Broke? && !flow.Continued?
    decreases s
  {
    hide Eval, EvalCondition, ExecBlock, ExecArms, ExecWhile, EvalIndex, EvalPath;
    match s {
      case While(cond, body) => LoopNoWayOut(w, cond, body, vars, fuel);
      case If(_, body, rest) =>
        NoWayOut(w, body, vars, fuel);
        ArmsNoWayOut(w, rest, vars, fuel);
      case _ =>
    }
  }

  lemma {:induction false} ArmsNoWayOut(w: World, a: Arms, vars: Vars, fuel: nat)
    requires ArmsJumpsInLoops(a, false)
    ensures var flow := ExecArms(w, a, vars, fuel); !flow.Broke? && !flow.Continued?
    decreases a
  {
    hide Eval, EvalCondition, ExecBlock;
    match a {
      case NoMore =>
      case Default(b) => NoWayOut(w, b, vars, fuel);
      case Elif(_, b, rest) =>
        NoWayOut(w, b, vars, fuel);
        ArmsNoWayOut(w, rest, vars, fuel);
    }
  }

  lemma {:induction false} LoopNoWayOut(w: World, cond: Expr, body: seq<Stmt>, vars: Vars, fuel: nat)
    ensures var flow := ExecWhile(w, cond, body, vars, fuel); !flow.Broke? && !flow.Continued?
    decreases fuel
  {
    hide EvalCondition, ExecBlock;
    var flow := ExecBlock(w, body, vars, fuel);
    if fuel > 0 && (flow.Next? || flow.Continued?) {
      LoopNoWayOut(w, cond, body, flow.vars, fuel - 1);
    }
  }

  // ---------------------------------------------------------------- no evaluation ends in a control fault

  lemma {:induction false} EvalSound(w: World, e: Expr, vars: Vars, fuel: nat)
    requires Traced(w) && WorldOk(w)
    ensures Sound(Eval(w, e, vars, fuel))
    decreases fuel, 1, e, 1
  {
    hide EvalList, EvalCall, EvalChain, EvalIndex, EvalPath, ReadPath, Traced, WorldOk, FieldMap, BinValue, UniValue;
    match e {
      case Bin(op, num, l, r) =>
        EvalSound(w, l, vars, fuel);
        EvalSound(w, r, vars, fuel);
        BinSound(w, op, num, l, r, vars, fuel);
      case Uni(op, e1) =>
        EvalSound(w, e1, vars, fuel);
        UniSound(w, op, e1, vars, fuel);
      case Call(c) => EvalCallSound(w, c, [], vars, fuel);
      case Chain(base, chain) => PipeSound(w, base, chain, vars, fuel);
      case StructInit(_, inits) => EvalListSound(w, inits, vars, fuel);
      case ArrayList(es) => EvalListSound(w, es, vars, fuel);
      case ArrayFill(e1, _) => EvalSound(w, e1, vars, fuel);
      case Indexing(a, i) => IndexingSound(w, a, i, vars, fuel);
      case Access(root, rootIndex, path) => AccessSound(w, root, rootIndex, path, vars, fuel);
      case _ =>
    }
  }

  lemma BinSound(w: World, op: BinOp, num: NumType, l: Expr, r: Expr, vars: Vars, fuel: nat)
    requires Sound(Eval(w, l, vars, fuel)) && Sound(Eval(w, r, vars, fuel))
    ensures Sound(Eval(w, Bin(op, num, l, r), vars, fuel))
  {
    hide EvalList, EvalCall, EvalChain, EvalIndex, EvalPath, ReadPath, FieldMap;
  }

  lemma UniSound(w: World, op: UniOp, e: Expr, vars: Vars, fuel: nat)
    requires Sound(Eval(w, e, vars, fuel))
    ensures Sound(Eval(w, Uni(op, e), vars, fuel))
  {
    hide EvalList, EvalCall, EvalChain, EvalIndex, EvalPath, ReadPath, FieldMap;
  }

  lemma {:induction false} PipeSound(w: World, base: CallExpr, chain: seq<CallExpr>, vars: Vars, fuel: nat)
    requires Traced(w) && WorldOk(w)
    ensures Sound(Eval(w, Chain(base, chain), vars, fuel))
    decreases fuel, 1, Chain(base, chain), 0
  {
    hide EvalCall, EvalChain, Traced, WorldOk;
    EvalCallSound(w, base, [], vars, fuel);
    var v := EvalCall(w, base, [], vars, fuel);
    if v.Success? {
      EvalChainSound(w, chain, v.value, vars, fuel);
    }
  }

  lemma {:induction false} IndexingSound(w: World, a: Expr, i: Expr, vars: Vars, fuel: nat)
    requires Traced(w) && WorldOk(w)
    ensures Sound(Eval(w, Indexing(a, i), vars, fuel))
    decreases fuel, 1, Indexing(a, i), 0
  {
    hide ReadPath, Traced, WorldOk, EvalList, EvalCall, EvalChain, EvalIndex, EvalPath;
    EvalSound(w, a, vars, fuel);
    EvalSound(w, i, vars, fuel);
    var v, x := Eval(w, a, vars, fuel), Eval(w, i, vars, fuel);
    if v.Success? && x.Success? {
      ReadPathSound(v.value, [ToIndex(x.value)]);
    }
  }

  lemma {:induction false} AccessSound(w: World, root: string, rootIndex: Option<Expr>, path: seq<Seg>, vars: Vars, fuel: nat)
    requires Traced(w) && WorldOk(w)
    ensures Sound(Eval(w, Access(root, rootIndex, path), vars, fuel))
    decreases fuel, 1, Access(root, rootIndex, path), 0
  {
    hide EvalIndex, EvalPath, ReadPath, Traced, WorldOk;
    EvalIndexSound(w, rootIndex, vars, fuel);
    EvalPathSound(w, path, vars, fuel);
    var s0, s1 := EvalIndex(w, rootIndex, vars, fuel), EvalPath(w, path, vars, fuel);
    var v := Lookup(vars, User(root));
    if s0.Success? && s1.Success? && v.Success? {
      ReadPathSound(v.value, s0.value + s1.value);
    }
  }

  lemma {:induction false} ReadPathSound(v: Value, steps: seq<PathStep>)
    ensures Sound(ReadPath(v, steps))
  {
    if steps != [] && ReadStep(v, steps[0]).Success? {
      ReadPathSound(ReadStep(v, steps[0]).value, steps[1..]);
    }
  }

  lemma {:induction false} WritePathSound(v: Value, steps: seq<PathStep>, leaf: Value)
    ensures Sound(WritePath(v, steps, leaf))
  {
    if steps != [] && ReadStep(v, steps[0]).Success? {
      WritePathSound(ReadStep(v, steps[0]).value, steps[1..], leaf);
    }
  }

  lemma {:induction false} EvalListSound(w: World, es: seq<Expr>, vars: Vars, fuel: nat)
    requires Traced(w) && WorldOk(w)
    ensures Sound(EvalList(w, es, vars, fuel))
    decreases fuel, 1, es
  {
    hide Eval, Traced, WorldOk;
    if es != [] {
      EvalSound(w, es[0], vars, fuel);
      EvalListSound(w, es[1..], vars, fuel);
    }
  }

  lemma {:induction false} EvalIndexSound(w: World, index: Option<Expr>, vars: Vars, fuel: nat)
    requires Traced(w) && WorldOk(w)
    ensures Sound(EvalIndex(w, index, vars, fuel))
    decreases fuel, 1, index
  {
    hide Eval, Traced, WorldOk;
    if index.Some? {
      EvalSound(w, index.value, vars, fuel);
    }
  }

  lemma {:induction false} EvalPathSound(w: World, path: seq<Seg>, vars: Vars, fuel: nat)
    requires Traced(w) && WorldOk(w)
    ensures Sound(EvalPath(w, path, vars, fuel))
    decreases fuel, 1, path
  {
    hide Eval, Traced, WorldOk;
    if path != [] {
      if path[0].SegIndex? {
        EvalSound(w, path[0].index, vars, fuel);
      }
      EvalPathSound(w, path[1..], vars, fuel);
    }
  }

  lemma {:induction false} EvalCallSound(w: World, c: CallExpr, prefix: seq<Value>, vars: Vars, fuel: nat)
    requires Traced(w) && WorldOk(w)
    ensures Sound(EvalCall(w, c, prefix, vars, fuel))
    decreases fuel, 1, c
  {
    hide EvalList, CallFn, Traced, WorldOk;
    EvalListSound(w, c.args, vars, fuel);
    var f, args := Lookup(vars, CalleeName(c.callee)), EvalList(w, c.args, vars, fuel);
    if f.Success? && args.Success? && f.value.Fn? {
      CallSound(w, f.value.id, prefix + args.value, fuel);
    }
  }

  lemma {:induction false} EvalChainSound(w: World, cs: seq<CallExpr>, previous: Value, vars: Vars, fuel: nat)
    requires Traced(w) && WorldOk(w)
    ensures Sound(EvalChain(w, cs, previous, vars, fuel))
    decreases fuel, 1, cs
  {
    hide EvalCall, Traced, WorldOk;
    if cs != [] {
      EvalCallSound(w, cs[0], [previous], vars, fuel);
      var v := EvalCall(w, cs[0], [previous], vars, fuel);
      if v.Success? {
        EvalChainSound(w, cs[1..], v.value, vars, fuel);
      }
    }
  }

  lemma {:induction false} CallSound(w: World, id: FnId, args: seq<Value>, fuel: nat)
    requires Traced(w) && WorldOk(w)
    ensures Sound(CallFn(w, id, args, fuel))
    decreases fuel, 0, 0
  {
    hide ExecBlock, Returns, JumpsInLoops, BindParams;
    if id !in w.builtins && id in w.fns && |w.fns[id].params| == |args| && fuel > 0 {
      var d := w.fns[id];
      var vars := BindParams(Evaluator.ModuleVars(w), d.params, args);
      BlockSound(w, d.body, vars, fuel - 1);
      NoWayOut(w, d.body, vars, fuel - 1);
      if !d.returnsUnit {
        NoWayThrough(w, d.body, vars, fuel - 1);
      }
    }
  }

  lemma {:induction false} BlockSound(w: World, stmts: seq<Stmt>, vars: Vars, fuel: nat)
    requires Traced(w) && WorldOk(w)
    ensures FlowSound(ExecBlock(w, stmts, vars, fuel))
    decreases fuel, 1, stmts
  {
    hide ExecStmt, Traced, WorldOk;
    if stmts != [] {
      StmtSound(w, stmts[0], vars, fuel);
      var flow := ExecStmt(w, stmts[0], vars, fuel);
      if flow.Next? {
        BlockSound(w, stmts[1..], flow.vars, fuel);
      }
    }
  }

  lemma {:induction false} ConditionSound(w: World, cond: Expr, vars: Vars, fuel: nat)
    requires Traced(w) && WorldOk(w)
    ensures Sound(EvalCondition(w, cond, vars, fuel))
    decreases fuel, 1, cond, 2
  {
    hide Eval, Traced, WorldOk;
    EvalSound(w, cond, vars, fuel);
  }

  lemma {:induction false} StmtSound(w: World, s: Stmt, vars: Vars, fuel: nat)
    requires Traced(w) && WorldOk(w)
    ensures FlowSound(ExecStmt(w, s, vars, fuel))
    decreases fuel, 1, s
  {
    hide Eval, EvalIndex, EvalPath, EvalCondition, ExecBlock, ExecArms, ExecWhile, WritePath, Traced, WorldOk;
    match s {
      case ExprStmt(e) => EvalSound(w, e, vars, fuel);
      case Local(_, e) => EvalSound(w, e, vars, fuel);
      case Assign(root, rootIndex, path, value) =>
        EvalSound(w, value, vars, fuel);
        EvalIndexSound(w, rootIndex, vars, fuel);
        EvalPathSound(w, path, vars, fuel);
        var r, s0, s1 := Eval(w, value, vars, fuel), EvalIndex(w, rootIndex, vars, fuel), EvalPath(w, path, vars, fuel);
        if r.Success? && s0.Success? && s1.Success? && User(root) in vars {
          WritePathSound(vars[User(root)], s0.value + s1.value, r.value);
        }
      case Return(Some(e)) => EvalSound(w, e, vars, fuel);
      case While(cond, body) => LoopSound(w, cond, body, vars, fuel);
      case If(cond, body, rest) =>
        ConditionSound(w, cond, vars, fuel);
        BlockSound(w, body, vars, fuel);
        ArmsSound(w, rest, vars, fuel);
      case _ =>
    }
  }

  lemma {:induction false} ArmsSound(w: World, a: Arms, vars: Vars, fuel: nat)
    requires Traced(w) && WorldOk(w)
    ensures FlowSound(ExecArms(w, a, vars, fuel))
    decreases fuel, 1, a
  {
    hide EvalCondition, ExecBlock, Traced, WorldOk;
    match a {
      case NoMore =>
      case Default(b) => BlockSound(w, b, vars, fuel);
      case Elif(cond, b, rest) =>
        ConditionSound(w, cond, vars, fuel);
        BlockSound(w, b, vars, fuel);
        ArmsSound(w, rest, vars, fuel);
    }
  }

  lemma {:induction false} LoopSound(w: World, cond: Expr, body: seq<Stmt>, vars: Vars, fuel: nat)
    requires Traced(w) && WorldOk(w)
    ensures FlowSound(ExecWhile(w, cond, body, vars, fuel))
    decreases fuel, 1, While(cond, body), 0
  {
    hide EvalCondition, ExecBlock, Traced, WorldOk;
    ConditionSound(w, cond, vars, fuel);
    BlockSound(w, body, vars, fuel);
    var flow := ExecBlock(w, body, vars, fuel);
    if fuel > 0 && (flow.Next? || flow.Continued?) {
      LoopSound(w, cond, body, flow.vars, fuel - 1);
    }
  }

  // ---------------------------------------------------------------- and so no run does

  /** A traced program never runs off its code, never takes a return that is not there, never moves its instruction
      pointer out of range: no reachable state of any run faults that way. */
  lemma ControlStays(w: World, id: FnId, args: seq<Value>, k: nat)
    requires Compilable(w) && Traced(w)
    ensures var o := RunFrom(CompileWorld(w), id, args, k); o.Faulted? ==> !IsControl(o.fault)
  {
    hide RunFrom, CallFn, CompileWorld, Traced;
    var fuel := ExecutorToEvaluator(w, id, args, k);
    CallSound(w, id, args, fuel);
  }
}
