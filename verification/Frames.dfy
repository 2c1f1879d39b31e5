/** The structured code of a statement list: what the first pass leaves behind, as one tree. */
module Frames {
  import opened Values
  import opened Syntax
  import opened ByteCode
  import opened ExprFlow
  import opened ByteExpr

  /** A frame entry.  Loops and branches own their nested frames; `result` is where the condition ends up. */
  datatype Item =
    | Plain(instr: Instruction)
    | Loop(id: nat, cond: seq<Instruction>, result: Arg, body: seq<Item>)
    | Branch(id: nat, cond: seq<Instruction>, result: Arg, thn: seq<Item>, els: seq<Item>)
    | ContinueItem(id: nat)
    | BreakItem(id: nat)

  /** The first pass keeps nested frames in tables; a frame only names them. */
  datatype Entry =
    | PlainEntry(instr: Instruction)
    | LoopEntry(id: nat)
    | BranchEntry(id: nat)
    | ContinueEntry(id: nat)
    | BreakEntry(id: nat)

  datatype LoopFrame = LoopFrame(result: Option<Arg>, condition: Option<seq<Entry>>, body: Option<seq<Entry>>)

  datatype BranchFrame = BranchFrame(result: Option<Arg>, condition: Option<seq<Entry>>,
                                     thn: Option<seq<Entry>>, els: Option<seq<Entry>>)

  function EntryOf(x: Item): Entry {
    match x
    case Plain(i) => PlainEntry(i)
    case Loop(id, _, _, _) => LoopEntry(id)
    case Branch(id, _, _, _, _) => BranchEntry(id)
    case ContinueItem(id) => ContinueEntry(id)
    case BreakItem(id) => BreakEntry(id)
  }

  function Entries(items: seq<Item>): seq<Entry> {
    seq(|items|, i requires 0 <= i < |items| => EntryOf(items[i]))
  }

  /** The tables hold the nested frames of the items, each complete. */
  ghost predicate Stored(loops: map<nat, LoopFrame>, branches: map<nat, BranchFrame>, items: seq<Item>) {
    forall x :: x in items ==> ItemStored(loops, branches, x)
  }

  ghost predicate ItemStored(loops: map<nat, LoopFrame>, branches: map<nat, BranchFrame>, x: Item) {
    match x
    case Loop(id, cond, result, body) =>
      && id in loops
      && loops[id] == LoopFrame(Some(result), Some(Entries(PlainItems(cond))), Some(Entries(body)))
      && Stored(loops, branches, body)
    case Branch(id, cond, result, thn, els) =>
      && id in branches
      && branches[id] == BranchFrame(Some(result), Some(Entries(PlainItems(cond))), Some(Entries(thn)), Some(Entries(els)))
      && Stored(loops, branches, thn) && Stored(loops, branches, els)
    case _ => true
  }

  datatype Code = Code(items: seq<Item>, next: nat)

  function PlainItems(code: seq<Instruction>): seq<Item> {
    seq(|code|, i requires 0 <= i < |code| => Plain(code[i]))
  }

  function ExprCode(f: Flat): seq<Instruction> { TranslateExpr(f.tmps) }

  function ResultId(f: Flat): TmpId { LastTmp(f.tmps) }

  function LocalCode(name: string, f: Flat): seq<Instruction> {
    ExprCode(f) + [Store(Namespace(User(name)), TmpArg(ResultId(f)))]
  }

  /** The right-hand side is computed first, then the index expressions, and the store comes last. */
  function AssignCode(access: TmpAccess, value: Flat): seq<Instruction> {
    ExprCode(value) + AccessCode(access) + [Store(AccessLocation(access), TmpArg(ResultId(value)))]
  }

  function ReturnCode(f: Flat): seq<Instruction> {
    ExprCode(f) + [Instruction.Return(Some(TmpArg(ResultId(f))))]
  }

  /** `loop` is the innermost enclosing loop; identifiers are handed out in the order the graph builder asks for them. */
  function BlockCode(stmts: seq<Stmt>, n: nat, loop: nat): (r: Code)
    ensures r.next >= n
    decreases stmts
  {
    if stmts == [] then Code([], n)
    else
      var c := StmtCode(stmts[0], n, loop);
      var rest := BlockCode(stmts[1..], c.next, loop);
      Code(c.items + rest.items, rest.next)
  }

  function StmtCode(s: Stmt, n: nat, loop: nat): (r: Code)
    ensures r.next >= n
    decreases s
  {
    match s
    case ExprStmt(e) =>
      var f := Flatten(e, n);
      Code(PlainItems(ExprCode(f)), f.next)
    case Local(x, e) =>
      var f := Flatten(e, n);
      Code(PlainItems(LocalCode(x, f)), f.next + 1)
    case Assign(root, rootIndex, path, value) =>
      var a := FlattenAccess(root, rootIndex, path, n);
      var f := Flatten(value, a.next);
      Code(PlainItems(AssignCode(a.access, f)), f.next)
    case Return(None) => Code([Plain(Instruction.Return(None))], n)
    case Return(Some(e)) =>
      var f := Flatten(e, n);
      Code(PlainItems(ReturnCode(f)), f.next)
    case Break => Code([BreakItem(loop)], n)
    case Continue => Code([ContinueItem(loop)], n)
    case While(cond, body) =>
      var f := Flatten(cond, n + 1);
      var b := BlockCode(body, f.next, n);
      Code([Loop(n, ExprCode(f), TmpArg(ResultId(f)), b.items)], b.next)
    case If(cond, body, rest) =>
      var b := BlockCode(body, n, loop);
      var f := Flatten(cond, b.next + 1);
      var r := ArmsCode(rest, f.next, loop);
      Code([Branch(b.next, ExprCode(f), TmpArg(ResultId(f)), b.items, r.items)], r.next)
  }

  /** What the false path of the preceding branch holds. */
  function ArmsCode(a: Arms, n: nat, loop: nat): (r: Code)
    ensures r.next >= n
    decreases a
  {
    match a
    case NoMore => Code([], n)
    case Default(b) => BlockCode(b, n, loop)
    case Elif(cond, body, rest) =>
      var b := BlockCode(body, n, loop);
      var f := Flatten(cond, b.next + 1);
      var r := ArmsCode(rest, f.next, loop);
      Code([Branch(b.next, ExprCode(f), TmpArg(ResultId(f)), b.items, r.items)], r.next)
  }

  /** The frame of a whole function, with the return the graph builder appends for the unit type. */
  function FunctionItems(d: FnDef): seq<Item> {
    BlockCode(d.body, d.firstId, 0).items
      + if d.returnsUnit then [Plain(Instruction.Return(None))] else []
  }
}
