/** Compilation preserves meaning, in both directions and for every outcome. */
module Correctness {
  import opened Values
  import opened Syntax
  import opened ByteCode
  import opened Machine
  import opened Evaluator
  import opened Compiler
  import opened SimBase
  import opened Simulation

  /** The executor started on function `id`, after `k` steps. */
  function RunFrom(p: Program, id: FnId, args: seq<Value>, k: nat): Outcome {
    match Start(p, id, args)
    case Running(s) => Run(p, s, k)
    case o => o
  }

  /** A program the pipeline can have produced: jumps inside loops, code addressable by the instruction pointer. */
  ghost predicate Compilable(w: World) {
    WorldOk(w) && Small(CompileWorld(w))
  }

  /** One evaluation, followed by the executor. */
  lemma RootSim(w: World, id: FnId, args: seq<Value>, fuel: nat) returns (k: nat)
    requires Compilable(w)
    ensures var r := CallFn(w, id, args, fuel);
      var o := RunFrom(CompileWorld(w), id, args, k);
      && (r.Success? ==> o == Finished(r.value))
      && (r.Failure? && r.error != OutOfFuel ==> o == Faulted(r.error))
      && (r.Failure? && r.error == OutOfFuel ==> o.Running? && k + 1 >= fuel)
  {
    hide Run, Step, ExecBlock, CompileWorld, BindParams, WorldOk, Small, CreateFrame;
    var p := CompileWorld(w);
    FrameOf(w, id, args);
    if id in w.builtins {
      BuiltinStep(p, id, args, [], None);
      return 1;
    }
    if id !in w.fns || |w.fns[id].params| != |args| {
      return 0;
    }
    var c := Ctx(w, p, id, []);
    CtxOf(w, id, []);
    var vars := BindParams(Evaluator.ModuleVars(w), w.fns[id].params, args);
    if fuel == 0 {
      RunZero(p, At(c, 0, vars, map[], None));
      return 0;
    }
    BindParamsOk(Evaluator.ModuleVars(w), w.fns[id].params, args);
    k := BodySim(c, vars, None, fuel - 1);
  }

  lemma RunFromEnded(p: Program, id: FnId, args: seq<Value>, m: nat, n: nat)
    requires m <= n && !RunFrom(p, id, args, m).Running?
    ensures RunFrom(p, id, args, n) == RunFrom(p, id, args, m)
  {
    hide Step;
    var o := Start(p, id, args);
    if o.Running? {
      RunEnded(p, o.state, m, n);
    }
  }

  /** What the executor ends with, the evaluator computes with enough fuel. */
  lemma ExecutorToEvaluator(w: World, id: FnId, args: seq<Value>, k: nat) returns (fuel: nat)
    requires Compilable(w)
    ensures var r := CallFn(w, id, args, fuel);
      match RunFrom(CompileWorld(w), id, args, k)
      case Finished(v) => r == Success(v)
      case Faulted(f) => r == Failure(f) && f != OutOfFuel
      case Running(_) => true
  {
    hide RunFrom, CallFn, CompileWorld;
    fuel := k + 2;
    var p := CompileWorld(w);
    var k' := RootSim(w, id, args, fuel);
    if !RunFrom(p, id, args, k).Running? {
      if k <= k' {
        RunFromEnded(p, id, args, k, k');
      } else {
        RunFromEnded(p, id, args, k', k);
      }
    }
  }

  /** The executor returns exactly the values the source program evaluates to. */
  lemma ValuesPreserved(w: World, id: FnId, args: seq<Value>, v: Value)
    requires Compilable(w)
    ensures (exists k: nat :: RunFrom(CompileWorld(w), id, args, k) == Finished(v))
       <==> (exists fuel: nat :: CallFn(w, id, args, fuel) == Success(v))
  {
    hide RunFrom, CallFn, CompileWorld, Compilable;
    if k: nat :| RunFrom(CompileWorld(w), id, args, k) == Finished(v) {
      var fuel := ExecutorToEvaluator(w, id, args, k);
    }
    if fuel: nat :| CallFn(w, id, args, fuel) == Success(v) {
      var k := RootSim(w, id, args, fuel);
    }
  }

  /** It stops with exactly the faults the source program runs into. */
  lemma FaultsPreserved(w: World, id: FnId, args: seq<Value>, f: Fault)
    requires Compilable(w)
    ensures (exists k: nat :: RunFrom(CompileWorld(w), id, args, k) == Faulted(f))
       <==> f != OutOfFuel && (exists fuel: nat :: CallFn(w, id, args, fuel) == Failure(f))
  {
    hide RunFrom, CallFn, CompileWorld, Compilable;
    if k: nat :| RunFrom(CompileWorld(w), id, args, k) == Faulted(f) {
      var fuel := ExecutorToEvaluator(w, id, args, k);
    }
    if fuel: nat :| f != OutOfFuel && CallFn(w, id, args, fuel) == Failure(f) {
      var k := RootSim(w, id, args, fuel);
    }
  }

  ghost predicate RunsForever(p: Program, id: FnId, args: seq<Value>) {
    forall k: nat :: RunFrom(p, id, args, k).Running?
  }

  ghost predicate Diverges(w: World, id: FnId, args: seq<Value>) {
    forall fuel: nat :: CallFn(w, id, args, fuel) == Failure(OutOfFuel)
  }

  /** It runs forever exactly when no amount of fuel is enough. */
  lemma DivergencePreserved(w: World, id: FnId, args: seq<Value>)
    requires Compilable(w)
    ensures RunsForever(CompileWorld(w), id, args) <==> Diverges(w, id, args)
  {
    hide RunFrom, CompileWorld, Compilable, ExecBlock;
    var p := CompileWorld(w);
    if RunsForever(p, id, args) {
      forall fuel: nat ensures CallFn(w, id, args, fuel) == Failure(OutOfFuel) {
        var k := RootSim(w, id, args, fuel);
        assert RunFrom(p, id, args, k).Running?;
      }
    }
    if Diverges(w, id, args) {
      forall k: nat ensures RunFrom(p, id, args, k).Running? {
        var fuel := ExecutorToEvaluator(w, id, args, k);
        assert CallFn(w, id, args, fuel) == Failure(OutOfFuel);
      }
    }
  }
}
