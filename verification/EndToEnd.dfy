/** The whole way: from the functions of a program to what the executor over cells makes of a call. */
module EndToEnd {
  import opened Values
  import opened Syntax
  import opened ByteCode
  import opened ExprBuilder
  import opened FrameFacts
  import opened ControlFlow
  import opened Skeleton
  import opened CfgBuilder
  import opened ReturnTrace
  import opened Evaluator
  import opened Compiler
  import opened Pipeline
  import opened SimBase
  import opened Correctness
  import opened Safety
  import opened Cells
  import opened HeapEnv
  import opened HeapExecute
  import opened Executor
  import Machine

  /** Analysis of one function: its graph is built and its returns are traced. */
  method Analyze(d: FnDef) returns (ok: bool)
    ensures ok <==> JumpsInLoops(d.body, false) && (d.returnsUnit || Returns(d.body))
  {
    hide SkelOf, Returns, FragmentsReturn, FirstStray, JumpsInLoops, WholeGraph;
    StrayIsOutside(d.body, false);
    SkelReturns(d.body, [], d.firstId, 0);
    var local := new LocalData(d.firstId);
    var cfg := new Cfg();
    var generated := cfg.Generate(local, d.body, d.returnsUnit);
    if generated.Rejected? {
      return false;
    }
    ok := CheckReturnsForm(cfg.graph, cfg.end, SkelOf(d.body, [], d.firstId, 0).fragments, d.returnsUnit);
  }

  /** A function the compiler treats as it should: accepted, and without the jumps it gets wrong. */
  predicate Clean(d: FnDef) { JumpsInLoops(d.body, false) && !Breaks(d.body) && !Continues(d.body) }

  /** Every function of a program to bytecode. */
  method CompileProgram(w: World) returns (p: Option<Machine.Program>)
    ensures p.Some? <==> forall id :: id in w.fns ==> JumpsInLoops(w.fns[id].body, false) && !Breaks(w.fns[id].body)
    ensures (forall id :: id in w.fns ==> Clean(w.fns[id])) ==> p == Some(CompileWorld(w))
  {
    hide JumpsInLoops, Breaks, Continues, FirstStray, CompileFn;
    var code: map<FnId, Machine.Compiled> := map[];
    var rest := w.fns.Keys;
    while rest != {}
      invariant rest <= w.fns.Keys && code.Keys == w.fns.Keys - rest
      invariant forall id :: id in code ==> JumpsInLoops(w.fns[id].body, false) && !Breaks(w.fns[id].body)
      invariant forall id :: id in code && Clean(w.fns[id]) ==> code[id] == CompileFn(w.fns[id])
    {
      var id :| id in rest;
      var d := w.fns[id];
      StrayIsOutside(d.body, false);
      var out := CompileToByteCode(d);
      match out {
        case Emitted(instructions) =>
          CompiledAs(d, instructions);
          code, rest := code[id := Machine.Compiled(d.params, instructions)], rest - {id};
        case Refused(_) => return None;
        case Panic => return None;
      }
    }
    p := Some(Machine.Program(code, w.builtins, w.builtin, w.floats));
    if forall id :: id in w.fns ==> Clean(w.fns[id]) {
      assert code == CompileWorld(w).code;
    }
  }

  lemma CompiledAs(d: FnDef, code: seq<Instruction>)
    ensures CompileFn(d).code == code ==> CompileFn(d) == Machine.Compiled(d.params, code)
  {
  }

  /** What a call may end with, by the meaning of the source program. */
  ghost predicate Means(w: World, id: FnId, args: seq<Value>, o: HOutcome, h: Heap) {
    match o
    case Going => true
    case Done(x) => exists fuel: nat, v: Value :: CallFn(w, id, args, fuel) == Success(v) && Tree(h, x, v)
    case Failed(f) => exists fuel: nat, g: Fault :: CallFn(w, id, args, fuel) == Failure(g) && Alike(f, g) && g != OutOfFuel
  }

  /** Compile a clean program and call a function of it, for up to `limit` steps: the value it ends with, and the fault,
      are those of the source program; and if every function has passed the return trace, control never gets lost. */
  method CompileAndCall(w: World, id: FnId, args: seq<HeapValue>, limit: nat, ghost h: Heap, ghost vs: seq<Value>)
    returns (o: HOutcome, ghost h': Heap)
    requires forall id :: id in w.fns ==> Clean(w.fns[id])
    requires Small(CompileWorld(w))
    requires Current(h) && Trees(h, args, vs)
    modifies h.Keys
    ensures Current(h') && Means(w, id, vs, o, h')
    ensures o.Going? <==> RunFrom(CompileWorld(w), id, vs, limit).Running?
    ensures Traced(w) && o.Failed? ==> !IsControl(o.fault)
  {
    hide JumpsInLoops, Breaks, Continues, CompileWorld, CallFn, Machine.Run, Machine.Start, Trees, Tree, Current, Traced;
    var p := CompileProgram(w);
    o, h' := Execute(p.value, id, args, limit, h, vs);
    CleanIsCompilable(w);
    ghost var fuel := ExecutorToEvaluator(w, id, vs, limit);
    if Traced(w) {
      ControlStays(w, id, vs, limit);
    }
  }

  /** The converse: when the source program ends, by whatever amount of fuel shows it, so does the call, with the same
      value or the same fault. */
  method CompileAndFinish(w: World, id: FnId, args: seq<HeapValue>, ghost fuel: nat, ghost h: Heap, ghost vs: seq<Value>)
    returns (o: HOutcome, ghost h': Heap)
    requires forall id :: id in w.fns ==> Clean(w.fns[id])
    requires Small(CompileWorld(w)) && CallFn(w, id, vs, fuel) != Failure(OutOfFuel)
    requires Current(h) && Trees(h, args, vs)
    modifies h.Keys
    ensures Current(h')
    ensures var r := CallFn(w, id, vs, fuel);
      if r.Success? then o.Done? && Tree(h', o.value, r.value) else o.Failed? && Alike(o.fault, r.error)
  {
    hide JumpsInLoops, Breaks, Continues, CompileWorld, CallFn, Machine.Run, Machine.Start, Trees, Tree, Current;
    var p := CompileProgram(w);
    CleanIsCompilable(w);
    ghost var k := RootSim(w, id, vs, fuel);
    o, h' := ExecuteToEnd(p.value, id, args, k, h, vs);
  }

  lemma CleanIsCompilable(w: World)
    requires (forall id :: id in w.fns ==> Clean(w.fns[id])) && Small(CompileWorld(w))
    ensures Compilable(w)
  {
    hide JumpsInLoops, CompileWorld;
  }
}
