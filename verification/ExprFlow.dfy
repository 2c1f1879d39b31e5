/** Expressions as ordered lists of single-assignment temporaries. */
module ExprFlow {
  import opened Values
  import opened Syntax

  type TmpId = nat

  datatype Temp = Temp(id: TmpId, value: TmpValue)

  datatype TmpSeg = TField(name: string) | TFieldIndex(name: string, index: seq<Temp>)

  datatype TmpValue =
    | TLit(lit: Literal)
    | TVar(name: string)
    | TFn(id: FnId)
    | TBin(op: BinOp, num: NumType, lhs: TmpId, rhs: TmpId)
    | TUni(uop: UniOp, operand: TmpId)
    | TCall(fn: TmpId, args: seq<TmpId>)
    | TStruct(names: seq<string>, inits: seq<TmpId>)
    | TArrayList(elems: seq<TmpId>)
    | TArrayFill(elem: TmpId, size: nat)
    | TIndexing(arr: TmpId, indexer: TmpId)
    | TAccess(access: TmpAccess)

  datatype RootIndex = NoIndex | Index(order: seq<Temp>)

  /** A field-access path; every index expression is an execution order of its own. */
  datatype TmpAccess = TmpAccess(root: string, rootIndex: RootIndex, path: seq<TmpSeg>)

  /** The temporaries an expression adds to the execution order, and the next free identifier. */
  datatype Flat = Flat(tmps: seq<Temp>, next: nat)

  datatype FlatList = FlatList(tmps: seq<Temp>, ids: seq<TmpId>, next: nat)

  datatype FlatIndex = FlatIndex(index: RootIndex, next: nat)

  datatype FlatPath = FlatPath(path: seq<TmpSeg>, next: nat)

  datatype FlatAccess = FlatAccess(access: TmpAccess, next: nat)

  /** One more temporary at the end of an order. */
  function Push(tmps: seq<Temp>, next: nat, v: TmpValue): Flat {
    Flat(tmps + [Temp(next, v)], next + 1)
  }

  /** The result of an expression is always its newest temporary. */
  function Flatten(e: Expr, n: nat): (r: Flat)
    ensures r.next > n && r.tmps != [] && r.tmps[|r.tmps| - 1].id == r.next - 1
    decreases e
  {
    match e
    case Lit(l) => Push([], n, TLit(l))
    case Var(x) => Push([], n, TVar(x))
    case FnRef(id) => Push([], n, TFn(id))
    case Bin(op, num, l, r) =>
      var fl := Flatten(l, n);
      var fr := Flatten(r, fl.next);
      Push(fl.tmps + fr.tmps, fr.next, TBin(op, num, fl.next - 1, fr.next - 1))
    case Uni(op, e1) =>
      var f := Flatten(e1, n);
      Push(f.tmps, f.next, TUni(op, f.next - 1))
    case Call(c) => FlattenCall(c, [], n)
    case Chain(base, chain) =>
      var fb := FlattenCall(base, [], n);
      var fc := FlattenChain(chain, fb.next - 1, fb.next);
      Flat(fb.tmps + fc.tmps, fc.next)
    case StructInit(names, inits) =>
      var f := FlattenList(inits, n);
      Push(f.tmps, f.next, TStruct(names, f.ids))
    case ArrayList(es) =>
      var f := FlattenList(es, n);
      Push(f.tmps, f.next, TArrayList(f.ids))
    case ArrayFill(e1, size) =>
      var f := Flatten(e1, n);
      Push(f.tmps, f.next, TArrayFill(f.next - 1, size))
    case Indexing(a, i) =>
      var fa := Flatten(a, n);
      var fi := Flatten(i, fa.next);
      Push(fa.tmps + fi.tmps, fi.next, TIndexing(fa.next - 1, fi.next - 1))
    case Access(root, rootIndex, path) =>
      var fi := FlattenIndex(rootIndex, n);
      var fp := FlattenPath(path, fi.next);
      Push([], fp.next, TAccess(TmpAccess(root, fi.index, fp.path)))
  }

  function FlattenList(es: seq<Expr>, n: nat): (r: FlatList)
    ensures r.next >= n && |r.ids| == |es|
    decreases es
  {
    if es == [] then FlatList([], [], n)
    else
      var f := Flatten(es[0], n);
      var rest := FlattenList(es[1..], f.next);
      FlatList(f.tmps + rest.tmps, [f.next - 1] + rest.ids, rest.next)
  }

  /** A call: the callee, then the arguments, then the call itself.  `prefix` holds the argument a
      pipe inserts in front of the written ones. */
  function FlattenCall(c: CallExpr, prefix: seq<TmpId>, n: nat): (r: Flat)
    ensures r.next > n && r.tmps != [] && r.tmps[|r.tmps| - 1].id == r.next - 1
    decreases c
  {
    var args := FlattenList(c.args, n + 1);
    Push([CalleeTmp(c.callee, n)] + args.tmps, args.next, TCall(n, prefix + args.ids))
  }

  function CalleeTmp(c: Callee, n: nat): Temp {
    Temp(n, if c.CalleeVar? then TVar(c.name) else TFn(c.id))
  }

  function FlattenChain(cs: seq<CallExpr>, previous: TmpId, n: nat): (r: Flat)
    ensures r.next >= n
    ensures cs == [] ==> r.tmps == [] && r.next == n
    ensures cs != [] ==> r.next > n && r.tmps != [] && r.tmps[|r.tmps| - 1].id == r.next - 1
    decreases cs
  {
    if cs == [] then Flat([], n)
    else
      var f := FlattenCall(cs[0], [previous], n);
      var rest := FlattenChain(cs[1..], f.next - 1, f.next);
      Flat(f.tmps + rest.tmps, rest.next)
  }

  function FlattenIndex(index: Option<Expr>, n: nat): (r: FlatIndex)
    ensures r.next >= n
    decreases index
  {
    match index
    case None => FlatIndex(NoIndex, n)
    case Some(e) =>
      var f := Flatten(e, n);
      FlatIndex(Index(f.tmps), f.next)
  }

  function FlattenPath(path: seq<Seg>, n: nat): (r: FlatPath)
    ensures r.next >= n
    decreases path
  {
    if path == [] then FlatPath([], n)
    else match path[0] {
      case SegField(f) =>
        var rest := FlattenPath(path[1..], n);
        FlatPath([TField(f)] + rest.path, rest.next)
      case SegIndex(f, e) =>
        var fe := Flatten(e, n);
        var rest := FlattenPath(path[1..], fe.next);
        FlatPath([TFieldIndex(f, fe.tmps)] + rest.path, rest.next)
    }
  }

  function FlattenAccess(root: string, rootIndex: Option<Expr>, path: seq<Seg>, n: nat): (r: FlatAccess)
    ensures r.next >= n
  {
    var fi := FlattenIndex(rootIndex, n);
    var fp := FlattenPath(path, fi.next);
    FlatAccess(TmpAccess(root, fi.index, fp.path), fp.next)
  }
}
