/** Temporaries to instructions. */
module ByteExpr {
  import opened Values
  import opened Syntax
  import opened ExprFlow
  import opened ByteCode

  function TmpLoc(id: TmpId): Location { Location.Tmp(TmpName(id)) }

  function TmpArg(id: TmpId): Arg { Loc(TmpLoc(id)) }

  function TmpArgs(ids: seq<TmpId>): seq<Arg> { seq(|ids|, i requires 0 <= i < |ids| => TmpArg(ids[i])) }

  function LastTmp(tmps: seq<Temp>): TmpId { if tmps == [] then 0 else tmps[|tmps| - 1].id }

  function TranslateExpr(tmps: seq<Temp>): seq<Instruction>
    decreases tmps, 1
  {
    if tmps == [] then [] else TranslateTmp(tmps[0]) + TranslateExpr(tmps[1..])
  }

  function LiteralArg(l: Literal): Arg {
    match l
    case LString(s) => StringArg(s)
    case LInt(i) => IntArg(i)
    case LFloat(f) => FloatArg(f)
    case LBool(b) => BoolArg(b)
  }

  function BinInstr(op: BinOp, num: NumType, store: Location, lhs: Arg, rhs: Arg): Instruction {
    match op
    case Arith(a) => if num.IntType? then IntOp(a, store, lhs, rhs) else FloatOp(a, store, lhs, rhs)
    case Compare(c) => if num.IntType? then CompareInt(c, store, lhs, rhs) else CompareFloat(c, store, lhs, rhs)
    case LogicalAnd => And(store, lhs, rhs)
    case LogicalOr => Or(store, lhs, rhs)
    case Eq => EqInstr(store, lhs, rhs)
    case InEq => InEqInstr(store, lhs, rhs)
  }

  function TranslateTmp(t: Temp): seq<Instruction>
    decreases t, 0
  {
    var store := TmpLoc(t.id);
    match t.value
    case TLit(l) => [Store(store, LiteralArg(l))]
    case TVar(x) => [Store(store, Loc(Namespace(User(x))))]
    case TFn(id) => [Store(store, Loc(Namespace(FnName(id))))]
    case TBin(op, num, l, r) => [BinInstr(op, num, store, TmpArg(l), TmpArg(r))]
    case TUni(op, x) => [if op.Negate? then NegateInstr(store, TmpArg(x)) else Invert(store, TmpArg(x))]
    case TCall(f, args) => [FnCall(TmpLoc(f), TmpArgs(args)), TakeReturn(store)]
    case TStruct(names, inits) => [StoreStructure(store, FieldMap(names, TmpArgs(inits)))]
    case TArrayList(es) => [StoreArray1(store, TmpArgs(es))]
    case TArrayFill(e, size) => [StoreArray2(store, TmpArg(e), size)]
    case TIndexing(a, i) => [Store(store, Loc(Compound(TmpName(a), Some(TmpName(i)), [])))]
    case TAccess(access) => AccessCode(access) + [Store(store, Loc(AccessLocation(access)))]
  }

  /** The instructions computing the index temporaries of a path, root index first. */
  function AccessCode(a: TmpAccess): seq<Instruction>
    decreases a, 1
  {
    IndexCode(a.rootIndex) + PathCode(a.path)
  }

  function IndexCode(index: RootIndex): seq<Instruction>
    decreases index, 2
  {
    if index.NoIndex? then [] else TranslateExpr(index.order)
  }

  function PathCode(path: seq<TmpSeg>): seq<Instruction>
    decreases path, 1
  {
    if path == [] then []
    else (if path[0].TField? then [] else TranslateExpr(path[0].index)) + PathCode(path[1..])
  }

  function PathAccess(path: seq<TmpSeg>): seq<FieldAccess> {
    if path == [] then []
    else [if path[0].TField? then FieldAccess.Field(path[0].name)
          else FieldAccess.FieldIndex(path[0].name, TmpName(LastTmp(path[0].index)))] + PathAccess(path[1..])
  }

  function RootIndexName(index: RootIndex): Option<Name> {
    if index.NoIndex? then None else Some(TmpName(LastTmp(index.order)))
  }

  function AccessLocation(a: TmpAccess): Location {
    if a.path == [] && a.rootIndex.NoIndex? then Namespace(User(a.root))
    else Compound(User(a.root), RootIndexName(a.rootIndex), PathAccess(a.path))
  }

  lemma {:induction false} TranslateAppend(a: seq<Temp>, b: seq<Temp>)
    ensures TranslateExpr(a + b) == TranslateExpr(a) + TranslateExpr(b)
  {
    if a == [] {
      assert a + b == b;
    } else {
      assert (a + b)[1..] == a[1..] + b;
      TranslateAppend(a[1..], b);
    }
  }

  lemma TranslateEmpty()
    ensures TranslateExpr([]) == []
  {
  }

  lemma TranslateOne(t: Temp)
    ensures TranslateExpr([t]) == TranslateTmp(t)
  {
    assert TranslateExpr([t]) == TranslateTmp(t) + TranslateExpr([]);
  }

  lemma TranslatePush(tmps: seq<Temp>, n: nat, v: TmpValue)
    ensures TranslateExpr(Push(tmps, n, v).tmps) == TranslateExpr(tmps) + TranslateTmp(Temp(n, v))
  {
    TranslateAppend(tmps, [Temp(n, v)]);
    TranslateOne(Temp(n, v));
  }

  /** The translation as it is done: instructions of one temporary after another. */
  method Translate(tmps: seq<Temp>) returns (instructions: seq<Instruction>)
    ensures instructions == TranslateExpr(tmps)
  {
    hide TranslateTmp;
    instructions := [];
    TranslateEmpty();
    for i := 0 to |tmps|
      invariant instructions == TranslateExpr(tmps[..i])
    {
      assert tmps[..i + 1] == tmps[..i] + [tmps[i]];
      TranslateAppend(tmps[..i], [tmps[i]]);
      TranslateOne(tmps[i]);
      instructions := instructions + TranslateTmp(tmps[i]);
    }
    assert tmps[..|tmps|] == tmps;
  }
}
