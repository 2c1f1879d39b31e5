/** A pipe is the nesting of its calls. */
module Pipes {
  import opened Values
  import opened Syntax
  import opened Evaluator

  /** The calls of a pipe written inside one another, every result as argument 0 of the next. */
  function Nested(previous: Expr, stages: seq<CallExpr>): Expr
    decreases |stages|
  {
    if stages == [] then previous
    else Nested(Call(CallExpr(stages[0].callee, [previous] + stages[0].args)), stages[1..])
  }

  /** Every function a pipe goes through can be looked up. */
  predicate CalleesBound(stages: seq<CallExpr>, vars: Vars) {
    forall c :: c in stages ==> Lookup(vars, CalleeName(c.callee)).Success?
  }

  /** One stage: a call that is handed a value is a call with the expression of that value in front, except that such a
      call looks up what it calls before it evaluates that expression. */
  lemma StageIsCall(w: World, c: CallExpr, previous: Expr, vars: Vars, fuel: nat)
    ensures var p, call := Eval(w, previous, vars, fuel), Eval(w, Call(CallExpr(c.callee, [previous] + c.args)), vars, fuel);
      && (Lookup(vars, CalleeName(c.callee)).Success? ==> call == if p.Failure? then p else EvalCall(w, c, [p.value], vars, fuel))
      && (Lookup(vars, CalleeName(c.callee)).Failure? ==> call.Failure? && (p.Success? ==> EvalCall(w, c, [p.value], vars, fuel).Failure?))
  {
    hide CallFn;
    var all := [previous] + c.args;
    assert all[0] == previous && all[1..] == c.args;
    var p, rest := Eval(w, previous, vars, fuel), EvalList(w, c.args, vars, fuel);
    assert EvalList(w, all, vars, fuel)
        == if p.Failure? then Failure(p.error) else if rest.Failure? then Failure(rest.error) else Success([p.value] + rest.value);
    if p.Success? && rest.Success? {
      assert [] + ([p.value] + rest.value) == [p.value] + rest.value;
    }
  }

  lemma {:induction false} StagesNest(w: World, stages: seq<CallExpr>, previous: Expr, vars: Vars, fuel: nat)
    ensures var p, nested := Eval(w, previous, vars, fuel), Eval(w, Nested(previous, stages), vars, fuel);
      var piped := if p.Failure? then p else EvalChain(w, stages, p.value, vars, fuel);
      && (CalleesBound(stages, vars) ==> nested == piped)
      && (nested == piped || (nested.Failure? && piped.Failure?))
    decreases |stages|
  {
    hide Eval, EvalCall, Lookup;
    if stages != [] {
      var c := stages[0];
      StagesNest(w, stages[1..], Call(CallExpr(c.callee, [previous] + c.args)), vars, fuel);
      StageIsCall(w, c, previous, vars, fuel);
    }
  }

  /** A pipe has exactly the values of the nested calls, and fails exactly when they do.  It also fails with the same
      fault when what it calls can be looked up: the nested form looks up the outermost function first, the pipe the
      innermost. */
  lemma PipeIsNesting(w: World, base: CallExpr, stages: seq<CallExpr>, vars: Vars, fuel: nat)
    ensures var piped, nested := Eval(w, Chain(base, stages), vars, fuel), Eval(w, Nested(Call(base), stages), vars, fuel);
      && (CalleesBound(stages, vars) ==> piped == nested)
      && (piped == nested || (piped.Failure? && nested.Failure?))
  {
    hide EvalCall, EvalChain, CalleesBound;
    StagesNest(w, stages, Call(base), vars, fuel);
  }
}
