/** Identifiers and jumps in frame trees. */
module FrameFacts {
  import opened Values
  import opened Syntax
  import opened ByteCode
  import opened ExprFlow
  import opened Frames

  /** The loops and branches of a frame tree. */
  function Ids(items: seq<Item>): set<nat> {
    if items == [] then {} else ItemIds(items[0]) + Ids(items[1..])
  }

  function ItemIds(x: Item): set<nat> {
    match x
    case Loop(id, _, _, body) => {id} + Ids(body)
    case Branch(id, _, _, thn, els) => {id} + Ids(thn) + Ids(els)
    case _ => {}
  }

  /** No identifier names two loops or branches. */
  predicate Unique(items: seq<Item>) {
    items == [] || (ItemUnique(items[0]) && Unique(items[1..]) && ItemIds(items[0]) !! Ids(items[1..]))
  }

  predicate ItemUnique(x: Item) {
    match x
    case Loop(id, _, _, body) => id !in Ids(body) && Unique(body)
    case Branch(id, _, _, thn, els) =>
      id !in Ids(thn) && id !in Ids(els) && Ids(thn) !! Ids(els) && Unique(thn) && Unique(els)
    case _ => true
  }

  predicate HasBreak(items: seq<Item>) {
    items != [] && (ItemBreaks(items[0]) || HasBreak(items[1..]))
  }

  predicate ItemBreaks(x: Item) {
    match x
    case BreakItem(_) => true
    case Loop(_, _, _, body) => HasBreak(body)
    case Branch(_, _, _, thn, els) => HasBreak(thn) || HasBreak(els)
    case _ => false
  }

  predicate HasContinue(items: seq<Item>) {
    items != [] && (ItemContinues(items[0]) || HasContinue(items[1..]))
  }

  predicate ItemContinues(x: Item) {
    match x
    case ContinueItem(_) => true
    case Loop(_, _, _, body) => HasContinue(body)
    case Branch(_, _, _, thn, els) => HasContinue(thn) || HasContinue(els)
    case _ => false
  }

  lemma {:induction false} FactsAppend(a: seq<Item>, b: seq<Item>)
    ensures Ids(a + b) == Ids(a) + Ids(b)
    ensures HasBreak(a + b) <==> HasBreak(a) || HasBreak(b)
    ensures HasContinue(a + b) <==> HasContinue(a) || HasContinue(b)
    ensures Unique(a + b) <==> Unique(a) && Unique(b) && Ids(a) !! Ids(b)
  {
    hide ItemIds, ItemUnique, ItemBreaks, ItemContinues;
    if a == [] {
      assert a + b == b;
    } else {
      assert (a + b)[1..] == a[1..] + b;
      FactsAppend(a[1..], b);
    }
  }

  lemma {:induction false} FactsPlain(code: seq<Instruction>)
    ensures var items := PlainItems(code);
      Ids(items) == {} && Unique(items) && !HasBreak(items) && !HasContinue(items)
  {
    if code != [] {
      assert PlainItems(code)[1..] == PlainItems(code[1..]);
      FactsPlain(code[1..]);
    }
  }

  /** Identifiers between `n` and `next`, each used once. */
  ghost predicate Drawn(items: seq<Item>, n: nat, next: nat) {
    Unique(items) && forall id :: id in Ids(items) ==> n <= id < next
  }

  lemma DrawnAppend(a: seq<Item>, b: seq<Item>, n: nat, mid: nat, next: nat)
    requires Drawn(a, n, mid) && Drawn(b, mid, next) && n <= mid <= next
    ensures Drawn(a + b, n, next)
  {
    hide Ids, Unique;
    FactsAppend(a, b);
  }

  /** The counter gives every loop and branch of a block an identifier of its own. */
  lemma {:induction false} BlockDrawn(stmts: seq<Stmt>, n: nat, loop: nat)
    ensures var c := BlockCode(stmts, n, loop); Drawn(c.items, n, c.next)
    decreases stmts
  {
    hide Drawn, StmtCode;
    if stmts == [] {
      NothingDrawn(n);
    } else {
      var c := StmtCode(stmts[0], n, loop);
      StmtDrawn(stmts[0], n, loop);
      BlockDrawn(stmts[1..], c.next, loop);
      var rest := BlockCode(stmts[1..], c.next, loop);
      DrawnAppend(c.items, rest.items, n, c.next, rest.next);
    }
  }

  lemma NothingDrawn(n: nat)
    ensures Drawn([], n, n)
  {
  }

  lemma PlainDrawn(code: seq<Instruction>, n: nat, next: nat)
    ensures Drawn(PlainItems(code), n, next)
  {
    FactsPlain(code);
  }

  lemma {:induction false} StmtDrawn(s: Stmt, n: nat, loop: nat)
    ensures var c := StmtCode(s, n, loop); Drawn(c.items, n, c.next)
    decreases s
  {
    hide Drawn, Flatten, BlockCode, ArmsCode, ExprCode, LocalCode, AssignCode, ReturnCode, FlattenAccess;
    var c := StmtCode(s, n, loop);
    match s {
      case ExprStmt(e) => PlainDrawn(ExprCode(Flatten(e, n)), n, c.next);
      case Local(x, e) => PlainDrawn(LocalCode(x, Flatten(e, n)), n, c.next);
      case Assign(root, rootIndex, path, value) =>
        var a := FlattenAccess(root, rootIndex, path, n);
        PlainDrawn(AssignCode(a.access, Flatten(value, a.next)), n, c.next);
      case Return(Some(e)) => PlainDrawn(ReturnCode(Flatten(e, n)), n, c.next);
      case Return(None) => LeafDrawn(c.items[0], n);
      case Break => LeafDrawn(c.items[0], n);
      case Continue => LeafDrawn(c.items[0], n);
      case While(cond, body) =>
        var f := Flatten(cond, n + 1);
        BlockDrawn(body, f.next, n);
        LoopDrawn(c.items[0], n, f.next, c.next);
      case If(cond, body, rest) =>
        var b := BlockCode(body, n, loop);
        var f := Flatten(cond, b.next + 1);
        BlockDrawn(body, n, loop);
        ArmsDrawn(rest, f.next, loop);
        BranchDrawn(c.items[0], n, b.next, f.next, c.next);
    }
  }

  lemma {:induction false} ArmsDrawn(a: Arms, n: nat, loop: nat)
    ensures var c := ArmsCode(a, n, loop); Drawn(c.items, n, c.next)
    decreases a
  {
    hide Drawn, Flatten, BlockCode, ExprCode;
    match a {
      case NoMore => NothingDrawn(n);
      case Default(b) => BlockDrawn(b, n, loop);
      case Elif(cond, body, rest) =>
        var b := BlockCode(body, n, loop);
        var f := Flatten(cond, b.next + 1);
        BlockDrawn(body, n, loop);
        ArmsDrawn(rest, f.next, loop);
        var c := ArmsCode(a, n, loop);
        BranchDrawn(c.items[0], n, b.next, f.next, c.next);
    }
  }

  lemma LeafDrawn(x: Item, n: nat)
    requires !x.Loop? && !x.Branch?
    ensures Drawn([x], n, n)
  {
    FactsOne(x);
  }

  lemma LoopDrawn(x: Item, n: nat, mid: nat, next: nat)
    requires x.Loop? && x.id == n < mid <= next && Drawn(x.body, mid, next)
    ensures Drawn([x], n, next)
  {
    FactsOne(x);
  }

  lemma BranchDrawn(x: Item, n: nat, id: nat, mid: nat, next: nat)
    requires x.Branch? && x.id == id && n <= id < mid <= next && Drawn(x.thn, n, id) && Drawn(x.els, mid, next)
    ensures Drawn([x], n, next)
  {
    FactsOne(x);
  }

  // ---------------------------------------------------------------- jumps of a body

  predicate Breaks(stmts: seq<Stmt>) {
    stmts != [] && (StmtBreaks(stmts[0]) || Breaks(stmts[1..]))
  }

  predicate StmtBreaks(s: Stmt) {
    match s
    case Break => true
    case While(_, body) => Breaks(body)
    case If(_, body, rest) => Breaks(body) || ArmsBreak(rest)
    case _ => false
  }

  predicate ArmsBreak(a: Arms) {
    match a
    case NoMore => false
    case Default(b) => Breaks(b)
    case Elif(_, b, rest) => Breaks(b) || ArmsBreak(rest)
  }

  predicate Continues(stmts: seq<Stmt>) {
    stmts != [] && (StmtContinues(stmts[0]) || Continues(stmts[1..]))
  }

  predicate StmtContinues(s: Stmt) {
    match s
    case Continue => true
    case While(_, body) => Continues(body)
    case If(_, body, rest) => Continues(body) || ArmsContinue(rest)
    case _ => false
  }

  predicate ArmsContinue(a: Arms) {
    match a
    case NoMore => false
    case Default(b) => Continues(b)
    case Elif(_, b, rest) => Continues(b) || ArmsContinue(rest)
  }

  lemma {:induction false} BlockJumps(stmts: seq<Stmt>, n: nat, loop: nat)
    ensures var c := BlockCode(stmts, n, loop); (HasBreak(c.items) <==> Breaks(stmts)) && (HasContinue(c.items) <==> Continues(stmts))
    decreases stmts
  {
    hide StmtCode, StmtBreaks, StmtContinues;
    if stmts != [] {
      var c := StmtCode(stmts[0], n, loop);
      StmtJumps(stmts[0], n, loop);
      BlockJumps(stmts[1..], c.next, loop);
      FactsAppend(c.items, BlockCode(stmts[1..], c.next, loop).items);
    }
  }

  lemma {:induction false} StmtJumps(s: Stmt, n: nat, loop: nat)
    ensures var c := StmtCode(s, n, loop); (HasBreak(c.items) <==> StmtBreaks(s)) && (HasContinue(c.items) <==> StmtContinues(s))
    decreases s
  {
    hide HasBreak, HasContinue, Flatten, BlockCode, ArmsCode, ExprCode, LocalCode, AssignCode, ReturnCode, FlattenAccess, Breaks, Continues;
    var c := StmtCode(s, n, loop);
    match s {
      case ExprStmt(e) => FactsPlain(ExprCode(Flatten(e, n)));
      case Local(x, e) => FactsPlain(LocalCode(x, Flatten(e, n)));
      case Assign(root, rootIndex, path, value) =>
        var a := FlattenAccess(root, rootIndex, path, n);
        FactsPlain(AssignCode(a.access, Flatten(value, a.next)));
      case Return(Some(e)) => FactsPlain(ReturnCode(Flatten(e, n)));
      case Return(None) => FactsOne(c.items[0]);
      case Break => FactsOne(c.items[0]);
      case Continue => FactsOne(c.items[0]);
      case While(cond, body) =>
        BlockJumps(body, Flatten(cond, n + 1).next, n);
        FactsOne(c.items[0]);
      case If(cond, body, rest) =>
        BlockJumps(body, n, loop);
        ArmsJumps(rest, Flatten(cond, BlockCode(body, n, loop).next + 1).next, loop);
        FactsOne(c.items[0]);
    }
  }

  lemma {:induction false} ArmsJumps(a: Arms, n: nat, loop: nat)
    ensures var c := ArmsCode(a, n, loop); (HasBreak(c.items) <==> ArmsBreak(a)) && (HasContinue(c.items) <==> ArmsContinue(a))
    decreases a
  {
    hide HasBreak, HasContinue, Flatten, BlockCode, ExprCode, Breaks, Continues;
    match a {
      case NoMore => NoJumps();
      case Default(b) => BlockJumps(b, n, loop);
      case Elif(cond, body, rest) =>
        BlockJumps(body, n, loop);
        ArmsJumps(rest, Flatten(cond, BlockCode(body, n, loop).next + 1).next, loop);
        FactsOne(ArmsCode(a, n, loop).items[0]);
    }
  }

  lemma FactsOne(x: Item)
    ensures HasBreak([x]) <==> ItemBreaks(x)
    ensures HasContinue([x]) <==> ItemContinues(x)
    ensures Ids([x]) == ItemIds(x) && (Unique([x]) <==> ItemUnique(x))
  {
    hide ItemBreaks, ItemContinues, ItemIds, ItemUnique;
    NoJumps();
    assert [x][1..] == [];
    assert Ids([]) == {} && Unique([]);
  }

  lemma NoJumps()
    ensures !HasBreak([]) && !HasContinue([])
  {
  }
}
