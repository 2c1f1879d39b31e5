/** Flattening as it is done: temporaries are mapped into a growing expression, identifiers come from a
    counter shared by the whole function, and a pipe edits the arguments of a call it has already mapped. */
module ExprBuilder {
  import opened Values
  import opened Syntax
  import opened ExprFlow

  /** The identifier counter of one function; temporaries, variables, loops and branches all draw from it. */
  class LocalData {
    var counter: nat

    constructor (first: nat)
      ensures counter == first
    {
      counter := first;
    }

    method NewId() returns (id: nat)
      modifies this
      ensures id == old(counter) && counter == old(counter) + 1
    {
      id := counter;
      counter := counter + 1;
    }
  }

  /** A flattened expression: its temporaries by identifier, and the order they execute in. */
  class TypedExpr {
    var tmps: map<TmpId, TmpValue>
    var executionOrder: seq<TmpId>

    constructor ()
      ensures Valid(0) && Temps() == []
    {
      tmps, executionOrder := map[], [];
    }

    /** Every ordered temporary is mapped, once, and below the next free identifier. */
    ghost predicate Valid(next: nat)
      reads this
    {
      && (forall i :: 0 <= i < |executionOrder| ==> executionOrder[i] in tmps)
      && (forall i, j :: 0 <= i < j < |executionOrder| ==> executionOrder[i] < executionOrder[j])
      && (forall id :: id in tmps ==> id < next)
    }

    function Temps(): (order: seq<Temp>)
      reads this
      requires forall i :: 0 <= i < |executionOrder| ==> executionOrder[i] in tmps
      ensures |order| == |executionOrder|
    {
      seq(|executionOrder|, i requires 0 <= i < |executionOrder| reads this
                              requires executionOrder[i] in tmps => Temp(executionOrder[i], tmps[executionOrder[i]]))
    }

    method MapTmp(id: TmpId, v: TmpValue)
      requires Valid(id)
      modifies this
      ensures Valid(id + 1) && Temps() == old(Temps()) + [Temp(id, v)]
    {
      ghost var before := Temps();
      tmps := tmps[id := v];
      executionOrder := executionOrder + [id];
      assert forall i :: 0 <= i < |before| ==> Temps()[i] == before[i];
    }

    /** The insertion a pipe makes: one more argument in front of those of the newest call. */
    method InsertArgument(id: TmpId, first: TmpId)
      requires Valid(id + 1) && executionOrder != [] && executionOrder[|executionOrder| - 1] == id && tmps[id].TCall?
      modifies this
      ensures Valid(id + 1)
      ensures old(tmps[id].TCall?)
      ensures Temps() == old(Temps())[..|old(Temps())| - 1] + [Temp(id, TCall(old(tmps[id].fn), [first] + old(tmps[id].args)))]
    {
      tmps := tmps[id := TCall(tmps[id].fn, [first] + tmps[id].args)];
    }
  }

  lemma FlattenNothing(n: nat)
    ensures FlattenList([], n) == FlatList([], [], n)
  {
  }

  lemma {:induction false} FlattenListSnoc(es: seq<Expr>, e: Expr, n: nat)
    ensures var a := FlattenList(es, n);
      var f := Flatten(e, a.next);
      FlattenList(es + [e], n) == FlatList(a.tmps + f.tmps, a.ids + [f.next - 1], f.next)
  {
    hide Flatten;
    if es == [] {
      assert es + [e] == [e];
      assert FlattenList([e], n) == FlatList(Flatten(e, n).tmps + [], [Flatten(e, n).next - 1] + [], Flatten(e, n).next);
    } else {
      assert (es + [e])[1..] == es[1..] + [e];
      FlattenListSnoc(es[1..], e, Flatten(es[0], n).next);
    }
  }

  lemma {:induction false} FlattenPathSnoc(path: seq<Seg>, s: Seg, n: nat)
    ensures var a := FlattenPath(path, n);
      FlattenPath(path + [s], n) ==
        match s
        case SegField(f) => FlatPath(a.path + [TField(f)], a.next)
        case SegIndex(f, e) => var fe := Flatten(e, a.next); FlatPath(a.path + [TFieldIndex(f, fe.tmps)], fe.next)
  {
    hide Flatten;
    if path == [] {
      assert path + [s] == [s];
    } else {
      assert (path + [s])[1..] == path[1..] + [s];
      FlattenPathSnoc(path[1..], s, if path[0].SegField? then n else Flatten(path[0].index, n).next);
    }
  }

  lemma {:induction false} FlattenChainSnoc(cs: seq<CallExpr>, c: CallExpr, previous: TmpId, n: nat)
    requires previous == n - 1
    ensures var a := FlattenChain(cs, previous, n);
      var f := FlattenCall(c, [a.next - 1], a.next);
      FlattenChain(cs + [c], previous, n) == Flat(a.tmps + f.tmps, f.next)
    decreases cs
  {
    hide *;
    if cs == [] {
      FlattenChainOne(c, previous, n);
      assert cs + [c] == [c];
      assert [] + FlattenCall(c, [previous], n).tmps == FlattenCall(c, [previous], n).tmps;
    } else {
      var f := FlattenCall(cs[0], [previous], n);
      FlattenChainSnoc(cs[1..], c, f.next - 1, f.next);
      assert (cs + [c])[1..] == cs[1..] + [c];
      FlattenChainStep(cs, previous, n);
      FlattenChainStep(cs + [c], previous, n);
      var a := FlattenChain(cs[1..], f.next - 1, f.next);
      var g := FlattenCall(c, [a.next - 1], a.next);
      assert f.tmps + (a.tmps + g.tmps) == f.tmps + a.tmps + g.tmps;
    }
  }

  lemma FlattenChainOne(c: CallExpr, previous: TmpId, n: nat)
    ensures FlattenChain([c], previous, n) == FlattenCall(c, [previous], n)
  {
    hide FlattenCall;
    var f := FlattenCall(c, [previous], n);
    assert FlattenChain([c], previous, n) == Flat(f.tmps + [], f.next);
  }

  lemma FlattenChainIs(base: CallExpr, chain: seq<CallExpr>, n: nat)
    ensures var f := FlattenCall(base, [], n);
      var g := FlattenChain(chain, f.next - 1, f.next);
      Flatten(Chain(base, chain), n) == Flat(f.tmps + g.tmps, g.next)
  {
    hide FlattenCall, FlattenChain;
  }

  lemma FlattenChainNone(n: nat)
    requires n > 0
    ensures FlattenChain([], n - 1, n) == Flat([], n)
  {
  }

  lemma FlattenChainStep(cs: seq<CallExpr>, previous: TmpId, n: nat)
    requires cs != []
    ensures var f := FlattenCall(cs[0], [previous], n);
      var rest := FlattenChain(cs[1..], f.next - 1, f.next);
      FlattenChain(cs, previous, n) == Flat(f.tmps + rest.tmps, rest.next)
  {
    hide FlattenCall;
  }

  /** What flattening one more expression into `scope` must do. */
  twostate predicate Extended(local: LocalData, scope: TypedExpr, tmps: seq<Temp>, next: nat)
    reads local, scope
  {
    && old(scope.Valid(local.counter)) && scope.Valid(local.counter)
    && local.counter == next && scope.Temps() == old(scope.Temps()) + tmps
  }

  method NewTmp(local: LocalData, scope: TypedExpr, v: TmpValue) returns (id: TmpId)
    requires scope.Valid(local.counter)
    modifies local, scope
    ensures Extended(local, scope, [Temp(old(local.counter), v)], old(local.counter) + 1) && id == old(local.counter)
  {
    id := local.NewId();
    scope.MapTmp(id, v);
  }

  method FlattenInto(local: LocalData, scope: TypedExpr, e: Expr) returns (id: TmpId)
    requires scope.Valid(local.counter)
    modifies local, scope
    ensures var f := Flatten(e, old(local.counter)); Extended(local, scope, f.tmps, f.next) && id == f.next - 1
    decreases e, 2
  {
    match e {
      case Lit(l) => id := NewTmp(local, scope, TLit(l));
      case Var(x) => id := NewTmp(local, scope, TVar(x));
      case FnRef(fn) => id := NewTmp(local, scope, TFn(fn));
      case Call(c) => id := FlattenCallInto(local, scope, c);
      case Chain(base, chain) => id := FlattenChainInto(local, scope, base, chain);
      case Access(root, rootIndex, path) => id := FlattenAccessInto(local, scope, root, rootIndex, path);
      case Bin(_, _, _, _) => id := FlattenOperator(local, scope, e);
      case Uni(_, _) => id := FlattenOperator(local, scope, e);
      case Indexing(_, _) => id := FlattenOperator(local, scope, e);
      case _ => id := FlattenInit(local, scope, e);
    }
  }

  lemma FlattenOperatorIs(e: Expr, n: nat)
    ensures e.Bin? ==>
      var f := Flatten(e.lhs, n);
      var g := Flatten(e.rhs, f.next);
      Flatten(e, n) == Push(f.tmps + g.tmps, g.next, TBin(e.op, e.num, f.next - 1, g.next - 1))
    ensures e.Indexing? ==>
      var f := Flatten(e.arr, n);
      var g := Flatten(e.indexer, f.next);
      Flatten(e, n) == Push(f.tmps + g.tmps, g.next, TIndexing(f.next - 1, g.next - 1))
    ensures e.Uni? ==>
      var f := Flatten(e.operand, n);
      Flatten(e, n) == Push(f.tmps, f.next, TUni(e.uop, f.next - 1))
  {
  }

  method FlattenOperator(local: LocalData, scope: TypedExpr, e: Expr) returns (id: TmpId)
    requires e.Bin? || e.Uni? || e.Indexing?
    requires scope.Valid(local.counter)
    modifies local, scope
    ensures var f := Flatten(e, old(local.counter)); Extended(local, scope, f.tmps, f.next) && id == f.next - 1
    decreases e, 1
  {
    hide Flatten;
    FlattenOperatorIs(e, local.counter);
    match e {
      case Bin(op, num, l, r) =>
        var lhs, rhs := FlattenTwo(local, scope, e, l, r);
        id := NewTmp(local, scope, TBin(op, num, lhs, rhs));
      case Indexing(a, i) =>
        var arr, indexer := FlattenTwo(local, scope, e, a, i);
        id := NewTmp(local, scope, TIndexing(arr, indexer));
      case Uni(op, e1) =>
        var operand := FlattenInto(local, scope, e1);
        id := NewTmp(local, scope, TUni(op, operand));
    }
  }

  method FlattenInit(local: LocalData, scope: TypedExpr, e: Expr) returns (id: TmpId)
    requires e.StructInit? || e.ArrayList? || e.ArrayFill?
    requires scope.Valid(local.counter)
    modifies local, scope
    ensures var f := Flatten(e, old(local.counter)); Extended(local, scope, f.tmps, f.next) && id == f.next - 1
    decreases e, 1
  {
    match e {
      case StructInit(names, inits) =>
        var ids := FlattenListInto(local, scope, inits);
        id := NewTmp(local, scope, TStruct(names, ids));
      case ArrayList(es) =>
        var ids := FlattenListInto(local, scope, es);
        id := NewTmp(local, scope, TArrayList(ids));
      case ArrayFill(e1, size) =>
        var elem := FlattenInto(local, scope, e1);
        id := NewTmp(local, scope, TArrayFill(elem, size));
    }
  }

  /** Index expressions have execution orders of their own. */
  method FlattenAccessInto(local: LocalData, scope: TypedExpr, root: string, rootIndex: Option<Expr>, path: seq<Seg>)
    returns (id: TmpId)
    requires scope.Valid(local.counter)
    modifies local, scope
    ensures var f := Flatten(Access(root, rootIndex, path), old(local.counter));
      Extended(local, scope, f.tmps, f.next) && id == f.next - 1
    decreases Access(root, rootIndex, path), 1
  {
    var index := FlattenRootIndex(local, rootIndex);
    var segs := FlattenSegs(local, path);
    id := NewTmp(local, scope, TAccess(TmpAccess(root, index, segs)));
  }

  method FlattenTwo(local: LocalData, scope: TypedExpr, ghost e: Expr, a: Expr, b: Expr) returns (x: TmpId, y: TmpId)
    requires a < e && b < e
    requires scope.Valid(local.counter)
    modifies local, scope
    ensures var f := Flatten(a, old(local.counter));
      var g := Flatten(b, f.next);
      Extended(local, scope, f.tmps + g.tmps, g.next) && x == f.next - 1 && y == g.next - 1
    decreases e, 0
  {
    hide Flatten;
    x := FlattenInto(local, scope, a);
    y := FlattenInto(local, scope, b);
  }

  method FlattenListInto(local: LocalData, scope: TypedExpr, es: seq<Expr>) returns (ids: seq<TmpId>)
    requires scope.Valid(local.counter)
    modifies local, scope
    ensures var f := FlattenList(es, old(local.counter)); Extended(local, scope, f.tmps, f.next) && ids == f.ids
    decreases es
  {
    hide Flatten, FlattenList;
    ids := [];
    ghost var n := local.counter;
    assert FlattenList([], n) == FlatList([], [], n) by { FlattenNothing(n); }
    for i := 0 to |es|
      invariant var f := FlattenList(es[..i], n); Extended(local, scope, f.tmps, f.next) && ids == f.ids
    {
      FlattenListSnoc(es[..i], es[i], n);
      assert es[..i + 1] == es[..i] + [es[i]];
      var id := FlattenInto(local, scope, es[i]);
      ids := ids + [id];
    }
    assert es[..|es|] == es;
  }

  method FlattenCallInto(local: LocalData, scope: TypedExpr, c: CallExpr) returns (id: TmpId)
    requires scope.Valid(local.counter)
    modifies local, scope
    ensures var f := FlattenCall(c, [], old(local.counter)); Extended(local, scope, f.tmps, f.next) && id == f.next - 1
    decreases c, 1
  {
    var callee := NewTmp(local, scope, if c.callee.CalleeVar? then TVar(c.callee.name) else TFn(c.callee.id));
    var args := FlattenListInto(local, scope, c.args);
    assert [] + args == args;
    id := NewTmp(local, scope, TCall(callee, args));
  }

  /** One stage of a pipe: flattened as the call it is written as, then given the result of the stage before. */
  method FlattenStage(local: LocalData, scope: TypedExpr, previous: TmpId, c: CallExpr) returns (id: TmpId)
    requires scope.Valid(local.counter)
    modifies local, scope
    ensures var f := FlattenCall(c, [previous], old(local.counter)); Extended(local, scope, f.tmps, f.next) && id == f.next - 1
    decreases c, 2
  {
    ghost var n, before := local.counter, scope.Temps();
    id := FlattenCallInto(local, scope, c);
    ghost var args := FlattenList(c.args, n + 1);
    ghost var tmps := [CalleeTmp(c.callee, n)] + args.tmps;
    assert scope.Temps() == before + tmps + [Temp(id, TCall(n, [] + args.ids))];
    assert [] + args.ids == args.ids;
    assert scope.Temps()[|before + tmps|] == Temp(id, TCall(n, args.ids));
    scope.InsertArgument(id, previous);
    assert scope.Temps() == before + tmps + [Temp(id, TCall(n, [previous] + args.ids))];
  }

  method FlattenChainInto(local: LocalData, scope: TypedExpr, base: CallExpr, chain: seq<CallExpr>) returns (id: TmpId)
    requires scope.Valid(local.counter)
    modifies local, scope
    ensures var f := Flatten(Chain(base, chain), old(local.counter)); Extended(local, scope, f.tmps, f.next) && id == f.next - 1
    decreases Chain(base, chain), 1
  {
    hide Flatten, FlattenCall, FlattenChain;
    FlattenChainIs(base, chain, local.counter);
    var previous := FlattenCallInto(local, scope, base);
    ghost var before := scope.Temps();
    ghost var n := local.counter;
    FlattenChainNone(n);
    for i := 0 to |chain|
      invariant scope.Valid(local.counter)
      invariant var f := FlattenChain(chain[..i], n - 1, n);
        local.counter == f.next && scope.Temps() == before + f.tmps && previous == f.next - 1
    {
      FlattenChainSnoc(chain[..i], chain[i], n - 1, n);
      assert chain[..i + 1] == chain[..i] + [chain[i]];
      previous := FlattenStage(local, scope, previous, chain[i]);
    }
    assert chain[..|chain|] == chain;
    id := previous;
  }

  method FlattenRootIndex(local: LocalData, index: Option<Expr>) returns (r: RootIndex)
    modifies local
    ensures var f := FlattenIndex(index, old(local.counter)); r == f.index && local.counter == f.next
    decreases index
  {
    match index {
      case None => r := NoIndex;
      case Some(e) =>
        var f := FlattenExpr(local, e);
        r := Index(f.tmps);
    }
  }

  method FlattenSegs(local: LocalData, path: seq<Seg>) returns (segs: seq<TmpSeg>)
    modifies local
    ensures var f := FlattenPath(path, old(local.counter)); segs == f.path && local.counter == f.next
    decreases path
  {
    segs := [];
    ghost var n := local.counter;
    for i := 0 to |path|
      invariant var f := FlattenPath(path[..i], n); segs == f.path && local.counter == f.next
    {
      FlattenPathSnoc(path[..i], path[i], n);
      assert path[..i + 1] == path[..i] + [path[i]];
      match path[i] {
        case SegField(x) => segs := segs + [TField(x)];
        case SegIndex(x, e) =>
          var f := FlattenExpr(local, e);
          segs := segs + [TFieldIndex(x, f.tmps)];
      }
    }
    assert path[..|path|] == path;
  }

  /** A whole expression of its own. */
  method FlattenExpr(local: LocalData, e: Expr) returns (f: Flat)
    modifies local
    ensures f == Flatten(e, old(local.counter)) && local.counter == f.next
    decreases e, 3
  {
    var scope := new TypedExpr();
    var _ := FlattenInto(local, scope, e);
    f := Flat(scope.Temps(), local.counter);
  }

  /** The assignee of an assignment. */
  method FlattenAssignee(local: LocalData, root: string, rootIndex: Option<Expr>, path: seq<Seg>) returns (access: TmpAccess)
    modifies local
    ensures var f := FlattenAccess(root, rootIndex, path, old(local.counter)); access == f.access && local.counter == f.next
  {
    var index := FlattenRootIndex(local, rootIndex);
    var segs := FlattenSegs(local, path);
    access := TmpAccess(root, index, segs);
  }
}
