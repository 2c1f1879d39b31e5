/** What a name means, said on the text: walk back from its use, over blocks that have been closed, to the first
    declaration of the name; the resolver binds every name that way, and nothing else. */
module Binding {
  import opened Values
  import opened Syntax
  import opened ResolveScope

  // ---------------------------------------------------------------- a body as text

  /** What matters of a text, in order: where blocks open and close, what is declared, what is named.  `RootUse` names a
      variable that is read or assigned along a path, `Unseen` stands for names where the resolver does not look. */
  datatype Event = Open | Close | Decl(x: string) | Use(x: string) | RootUse(x: string) | FnUse(id: FnId) | Unseen

  function ExprText(e: Expr): seq<Event>
    decreases e
  {
    match e
    case Lit(_) => []
    case Var(x) => [Use(x)]
    case FnRef(id) => [FnUse(id)]
    case Bin(_, _, l, r) => ExprText(l) + ExprText(r)
    case Uni(_, e1) => ExprText(e1)
    case Call(c) => CallText(c)
    case Chain(base, chain) => CallText(base) + CallsText(chain)
    case StructInit(_, inits) => ListText(inits)
    case ArrayList(es) => ListText(es)
    case ArrayFill(e1, _) => ExprText(e1)
    case Indexing(a, i) => ExprText(a) + ExprText(i)
    case Access(root, rootIndex, path) =>
      [RootUse(root)] + (if rootIndex.Some? && MentionsNames(rootIndex.value) then [Unseen] else []) + PathText(path)
  }

  function CallText(c: CallExpr): seq<Event>
    decreases c
  {
    (match c.callee case CalleeVar(x) => [Use(x)] case CalleeFn(id) => [FnUse(id)]) + ListText(c.args)
  }

  function CallsText(cs: seq<CallExpr>): seq<Event>
    decreases cs
  {
    if cs == [] then [] else CallText(cs[0]) + CallsText(cs[1..])
  }

  function ListText(es: seq<Expr>): seq<Event>
    decreases es
  {
    if es == [] then [] else ExprText(es[0]) + ListText(es[1..])
  }

  function PathText(path: seq<Seg>): seq<Event>
    decreases path
  {
    if path == [] then []
    else (match path[0] case SegField(_) => [] case SegIndex(_, e) => ExprText(e)) + PathText(path[1..])
  }

  function IndexText(index: Option<Expr>): seq<Event>
    decreases index
  {
    if index.Some? then ExprText(index.value) else []
  }

  /** A declaration comes behind its initializer, an assignment names its variable first. */
  function StmtText(s: Stmt): seq<Event>
    decreases s
  {
    match s
    case ExprStmt(e) => ExprText(e)
    case Local(x, e) => ExprText(e) + [Decl(x)]
    case Assign(root, rootIndex, path, value) => [RootUse(root)] + IndexText(rootIndex) + PathText(path) + ExprText(value)
    case Return(None) => []
    case Return(Some(e)) => ExprText(e)
    case Break => []
    case Continue => []
    case While(cond, body) => ExprText(cond) + Enclosed(BlockText(body))
    case If(cond, body, rest) => ExprText(cond) + Enclosed(BlockText(body)) + ArmsText(rest)
  }

  function Enclosed(text: seq<Event>): seq<Event> { [Open] + text + [Close] }

  function BlockText(stmts: seq<Stmt>): seq<Event>
    decreases stmts
  {
    if stmts == [] then [] else StmtText(stmts[0]) + BlockText(stmts[1..])
  }

  function ArmsText(a: Arms): seq<Event>
    decreases a
  {
    match a
    case NoMore => []
    case Default(b) => Enclosed(BlockText(b))
    case Elif(cond, b, rest) => ExprText(cond) + Enclosed(BlockText(b)) + ArmsText(rest)
  }

  // ---------------------------------------------------------------- the meaning of a name

  /** How many declarations there are. */
  function Decls(text: seq<Event>): nat {
    if text == [] then 0 else Decls(text[..|text| - 1]) + if text[|text| - 1].Decl? then 1 else 0
  }

  /** The declaration that `x` means behind this text, by its number: the nearest one before, not counting what stands in
      blocks that are closed again; `depth` such blocks have been entered backwards. */
  function Nearest(text: seq<Event>, x: string, depth: nat): Option<nat> {
    if text == [] then None
    else
      var before, last := text[..|text| - 1], text[|text| - 1];
      if last.Close? then Nearest(before, x, depth + 1)
      else if last.Open? && depth > 0 then Nearest(before, x, depth - 1)
      else if last == Decl(x) && depth == 0 then Some(Decls(before))
      else Nearest(before, x, depth)
  }

  /** Whether an event may stand behind this text: a name needs a declaration or a function, a path a variable. */
  predicate Legal(before: seq<Event>, fns: FnMap, e: Event) {
    match e
    case Use(x) => Nearest(before, x, 0).Some? || x in fns
    case RootUse(x) => Nearest(before, x, 0).Some?
    case Unseen => false
    case _ => true
  }

  function Spelled(keyed: bool, x: string, id: nat): string { if keyed then Slot(id) else x }

  /** What the event becomes in either reading: a variable where one is visible, and only otherwise a function. */
  function Meaning(keyed: bool, before: seq<Event>, fns: FnMap, e: Event): Event
    requires Legal(before, fns, e)
  {
    match e
    case Use(x) =>
      var id := Nearest(before, x, 0);
      if id.Some? then Use(Spelled(keyed, x, id.value)) else FnUse(fns[x])
    case RootUse(x) => RootUse(Spelled(keyed, x, Nearest(before, x, 0).value))
    case Decl(x) => Decl(Spelled(keyed, x, Decls(before)))
    case _ => e
  }

  predicate AllLegal(before: seq<Event>, fns: FnMap, text: seq<Event>)
    decreases |text|
  {
    text == [] || (Legal(before, fns, text[0]) && AllLegal(before + [text[0]], fns, text[1..]))
  }

  function Meanings(keyed: bool, before: seq<Event>, fns: FnMap, text: seq<Event>): (r: seq<Event>)
    requires AllLegal(before, fns, text)
    ensures |r| == |text|
    decreases |text|
  {
    if text == [] then []
    else [Meaning(keyed, before, fns, text[0])] + Meanings(keyed, before + [text[0]], fns, text[1..])
  }

  /** Position by position. */
  lemma {:induction false} MeaningAt(keyed: bool, before: seq<Event>, fns: FnMap, text: seq<Event>, i: nat)
    requires AllLegal(before, fns, text) && i < |text|
    ensures Legal(before + text[..i], fns, text[i])
    ensures Meanings(keyed, before, fns, text)[i] == Meaning(keyed, before + text[..i], fns, text[i])
    decreases i
  {
    hide Meaning, Legal;
    if i == 0 {
      assert before + text[..0] == before;
    } else {
      MeaningAt(keyed, before + [text[0]], fns, text[1..], i - 1);
      assert before + [text[0]] + text[1..][..i - 1] == before + text[..i];
    }
  }

  // ---------------------------------------------------------------- text in pieces

  lemma {:induction false} LegalAppend(before: seq<Event>, fns: FnMap, a: seq<Event>, b: seq<Event>)
    ensures AllLegal(before, fns, a + b) <==> AllLegal(before, fns, a) && AllLegal(before + a, fns, b)
    decreases |a|
  {
    hide Legal;
    if a == [] {
      assert a + b == b && before + a == before;
    } else {
      LegalAppend(before + [a[0]], fns, a[1..], b);
      assert (a + b)[1..] == a[1..] + b && (a + b)[0] == a[0];
      assert before + [a[0]] + a[1..] == before + a;
    }
  }

  lemma {:induction false} MeaningsAppend(keyed: bool, before: seq<Event>, fns: FnMap, a: seq<Event>, b: seq<Event>)
    requires AllLegal(before, fns, a + b) && AllLegal(before, fns, a) && AllLegal(before + a, fns, b)
    ensures Meanings(keyed, before, fns, a + b) == Meanings(keyed, before, fns, a) + Meanings(keyed, before + a, fns, b)
    decreases |a|
  {
    hide Legal, Meaning;
    if a == [] {
      assert a + b == b && before + a == before;
      assert Meanings(keyed, before, fns, a) == [];
      assert Meanings(keyed, before, fns, a + b) == Meanings(keyed, before + a, fns, b);
    } else {
      LegalAppend(before + [a[0]], fns, a[1..], b);
      assert (a + b)[1..] == a[1..] + b && (a + b)[0] == a[0];
      assert before + [a[0]] + a[1..] == before + a;
      MeaningsAppend(keyed, before + [a[0]], fns, a[1..], b);
    }
  }

  /** What a piece of text becomes, in both readings. */
  datatype Reading = Refused | Read(named: seq<Event>, keyed: seq<Event>)

  function Then(a: Reading, b: Reading): Reading {
    if a.Refused? || b.Refused? then Refused else Read(a.named + b.named, a.keyed + b.keyed)
  }

  function Expected(before: seq<Event>, fns: FnMap, text: seq<Event>): Reading {
    if AllLegal(before, fns, text) then Read(Meanings(false, before, fns, text), Meanings(true, before, fns, text)) else Refused
  }

  lemma ExpectedBoth(before: seq<Event>, fns: FnMap, a: seq<Event>, b: seq<Event>)
    ensures Expected(before, fns, a + b) == Then(Expected(before, fns, a), Expected(before + a, fns, b))
  {
    hide AllLegal, Meanings;
    LegalAppend(before, fns, a, b);
    if AllLegal(before, fns, a + b) {
      MeaningsAppend(false, before, fns, a, b);
      MeaningsAppend(true, before, fns, a, b);
    }
  }

  lemma ExpectedNothing(before: seq<Event>, fns: FnMap)
    ensures Expected(before, fns, []) == Read([], [])
  {
  }

  lemma ExpectedOne(before: seq<Event>, fns: FnMap, e: Event)
    ensures Expected(before, fns, [e])
         == if Legal(before, fns, e) then Read([Meaning(false, before, fns, e)], [Meaning(true, before, fns, e)]) else Refused
  {
    hide Legal, Meaning;
    var one := [e];
    assert one[0] == e && one[1..] == [];
    assert AllLegal(before + [e], fns, one[1..]);
  }

  // ---------------------------------------------------------------- what does not change the meaning of names

  predicate Quiet(e: Event) { !e.Open? && !e.Close? && !e.Decl? }

  lemma Last(text: seq<Event>, e: Event)
    ensures var all := text + [e]; all[..|all| - 1] == text && all[|all| - 1] == e && Decls(all) == Decls(text) + if e.Decl? then 1 else 0
  {
    assert (text + [e])[..|text + [e]| - 1] == text;
  }

  /** Naming something is not declaring it. */
  lemma {:induction false} NearestQuiet(before: seq<Event>, text: seq<Event>, x: string, depth: nat)
    requires forall e :: e in text ==> Quiet(e)
    ensures Nearest(before + text, x, depth) == Nearest(before, x, depth) && Decls(before + text) == Decls(before)
    decreases |text|
  {
    if text == [] {
      assert before + text == before;
    } else {
      var front, last := text[..|text| - 1], text[|text| - 1];
      assert before + text == before + front + [last];
      assert last in text && forall e :: e in front ==> e in text;
      Last(before + front, last);
      NearestQuiet(before, front, x, depth);
    }
  }

  lemma {:induction false} ExprQuiet(e: Expr)
    ensures forall v :: v in ExprText(e) ==> Quiet(v)
    decreases e
  {
    match e {
      case Bin(_, _, l, r) =>
        ExprQuiet(l);
        ExprQuiet(r);
      case Uni(_, e1) => ExprQuiet(e1);
      case Call(c) => CallQuiet(c);
      case Chain(base, chain) =>
        CallQuiet(base);
        CallsQuiet(chain);
      case StructInit(_, inits) => ListQuiet(inits);
      case ArrayList(es) => ListQuiet(es);
      case ArrayFill(e1, _) => ExprQuiet(e1);
      case Indexing(a, i) =>
        ExprQuiet(a);
        ExprQuiet(i);
      case Access(_, _, path) => PathQuiet(path);
      case Lit(_) =>
      case Var(_) =>
      case FnRef(_) =>
    }
  }

  lemma {:induction false} CallQuiet(c: CallExpr)
    ensures forall v :: v in CallText(c) ==> Quiet(v)
    decreases c
  {
    ListQuiet(c.args);
  }

  lemma {:induction false} CallsQuiet(cs: seq<CallExpr>)
    ensures forall v :: v in CallsText(cs) ==> Quiet(v)
    decreases cs
  {
    if cs != [] {
      CallQuiet(cs[0]);
      CallsQuiet(cs[1..]);
    }
  }

  lemma {:induction false} ListQuiet(es: seq<Expr>)
    ensures forall v :: v in ListText(es) ==> Quiet(v)
    decreases es
  {
    if es != [] {
      ExprQuiet(es[0]);
      ListQuiet(es[1..]);
    }
  }

  lemma {:induction false} PathQuiet(path: seq<Seg>)
    ensures forall v :: v in PathText(path) ==> Quiet(v)
    decreases path
  {
    if path != [] {
      if path[0].SegIndex? {
        ExprQuiet(path[0].index);
      }
      PathQuiet(path[1..]);
    }
  }

  /** Walking back over a block that is closed again changes nothing. */
  lemma {:induction false} BlockSkipped(before: seq<Event>, stmts: seq<Stmt>, x: string, depth: nat)
    ensures Nearest(before + BlockText(stmts), x, depth + 1) == Nearest(before, x, depth + 1)
    decreases stmts, 0
  {
    if stmts == [] {
      assert before + [] == before;
    } else {
      assert before + (StmtText(stmts[0]) + BlockText(stmts[1..])) == before + StmtText(stmts[0]) + BlockText(stmts[1..]);
      BlockSkipped(before + StmtText(stmts[0]), stmts[1..], x, depth);
      StmtSkipped(before, stmts[0], x, depth);
    }
  }

  lemma {:induction false} StmtSkipped(before: seq<Event>, s: Stmt, x: string, depth: nat)
    ensures Nearest(before + StmtText(s), x, depth + 1) == Nearest(before, x, depth + 1)
    decreases s
  {
    hide BlockText, ArmsText, ExprText, Nearest;
    match s {
      case Local(y, e) =>
        ExprQuiet(e);
        NearestQuiet(before, ExprText(e), x, depth + 1);
        assert before + (ExprText(e) + [Decl(y)]) == before + ExprText(e) + [Decl(y)];
        DeclSkipped(before + ExprText(e), y, x, depth);
      case While(cond, body) =>
        ExprQuiet(cond);
        NearestQuiet(before, ExprText(cond), x, depth + 1);
        assert before + (ExprText(cond) + Enclosed(BlockText(body))) == before + ExprText(cond) + Enclosed(BlockText(body));
        EnclosedSkipped(before + ExprText(cond), body, x, depth + 1);
      case If(cond, body, rest) =>
        ExprQuiet(cond);
        NearestQuiet(before, ExprText(cond), x, depth + 1);
        var b := before + ExprText(cond);
        assert before + (ExprText(cond) + Enclosed(BlockText(body)) + ArmsText(rest)) == b + Enclosed(BlockText(body)) + ArmsText(rest);
        EnclosedSkipped(b, body, x, depth + 1);
        ArmsSkipped(b + Enclosed(BlockText(body)), rest, x, depth + 1);
      case ExprStmt(e) => SimpleSkipped(before, s, x, depth + 1);
      case Assign(_, _, _, _) => SimpleSkipped(before, s, x, depth + 1);
      case Return(_) => SimpleSkipped(before, s, x, depth + 1);
      case Break => SimpleSkipped(before, s, x, depth + 1);
      case Continue => SimpleSkipped(before, s, x, depth + 1);
    }
  }

  lemma DeclSkipped(before: seq<Event>, y: string, x: string, depth: nat)
    ensures Nearest(before + [Decl(y)], x, depth + 1) == Nearest(before, x, depth + 1)
  {
    Last(before, Decl(y));
  }

  /** Statements that neither declare nor open a block. */
  predicate Simple(s: Stmt) { !s.Local? && !s.While? && !s.If? }

  lemma SimpleSkipped(before: seq<Event>, s: Stmt, x: string, depth: nat)
    requires Simple(s)
    ensures Nearest(before + StmtText(s), x, depth) == Nearest(before, x, depth) && Decls(before + StmtText(s)) == Decls(before)
  {
    SimpleQuiet(s);
    NearestQuiet(before, StmtText(s), x, depth);
  }

  lemma SimpleQuiet(s: Stmt)
    requires Simple(s)
    ensures forall v :: v in StmtText(s) ==> Quiet(v)
  {
    hide ExprText, PathText;
    match s {
      case ExprStmt(e) => ExprQuiet(e);
      case Assign(_, rootIndex, path, value) =>
        if rootIndex.Some? {
          ExprQuiet(rootIndex.value);
        }
        PathQuiet(path);
        ExprQuiet(value);
      case Return(None) =>
      case Return(Some(e)) => ExprQuiet(e);
      case Break =>
      case Continue =>
    }
  }

  lemma {:induction false} EnclosedSkipped(before: seq<Event>, body: seq<Stmt>, x: string, depth: nat)
    ensures Nearest(before + Enclosed(BlockText(body)), x, depth) == Nearest(before, x, depth)
    decreases body, 1
  {
    hide BlockText;
    var text := BlockText(body);
    var inside := before + [Open];
    assert before + Enclosed(text) == inside + text + [Close];
    Last(inside + text, Close);
    BlockSkipped(inside, body, x, depth);
    Last(before, Open);
  }

  lemma {:induction false} ArmsSkipped(before: seq<Event>, a: Arms, x: string, depth: nat)
    ensures Nearest(before + ArmsText(a), x, depth) == Nearest(before, x, depth)
    decreases a
  {
    hide BlockText, ExprText, Nearest;
    match a {
      case NoMore => assert before + [] == before;
      case Default(b) => EnclosedSkipped(before, b, x, depth);
      case Elif(cond, b, rest) =>
        ExprQuiet(cond);
        NearestQuiet(before, ExprText(cond), x, depth);
        var c := before + ExprText(cond);
        assert before + (ExprText(cond) + Enclosed(BlockText(b)) + ArmsText(rest)) == c + Enclosed(BlockText(b)) + ArmsText(rest);
        EnclosedSkipped(c, b, x, depth);
        ArmsSkipped(c + Enclosed(BlockText(b)), rest, x, depth);
    }
  }

  // ---------------------------------------------------------------- the resolver's scope is that meaning

  /** The scope holds exactly the names that mean something, each with the number of its declaration. */
  ghost predicate Knows(scope: Scope, text: seq<Event>) {
    forall x :: Nearest(text, x, 0) == if x in scope then Some(scope[x]) else None
  }

  lemma KnowsQuiet(scope: Scope, before: seq<Event>, text: seq<Event>)
    requires Knows(scope, before) && forall e :: e in text ==> Quiet(e)
    ensures Knows(scope, before + text) && Decls(before + text) == Decls(before)
  {
    NearestQuiet(before, text, "", 0);
    forall x ensures Nearest(before + text, x, 0) == Nearest(before, x, 0) {
      NearestQuiet(before, text, x, 0);
    }
  }

  lemma KnowsDecl(scope: Scope, before: seq<Event>, x: string)
    requires Knows(scope, before)
    ensures Knows(scope[x := Decls(before)], before + [Decl(x)]) && Decls(before + [Decl(x)]) == Decls(before) + 1
  {
    Last(before, Decl(x));
  }

  lemma KnowsOpen(scope: Scope, before: seq<Event>)
    requires Knows(scope, before)
    ensures Knows(scope, before + [Open]) && Decls(before + [Open]) == Decls(before)
  {
    Last(before, Open);
  }

  lemma KnowsEnclosed(scope: Scope, before: seq<Event>, body: seq<Stmt>)
    requires Knows(scope, before)
    ensures Knows(scope, before + Enclosed(BlockText(body)))
  {
    hide BlockText, Nearest;
    forall x ensures Nearest(before + Enclosed(BlockText(body)), x, 0) == Nearest(before, x, 0) {
      EnclosedSkipped(before, body, x, 0);
    }
  }

  // ---------------------------------------------------------------- what the resolver makes of it, as text

  function OfExpr(b: Resolved<Pair<Expr>>): Reading {
    if b.Fine? then Read(ExprText(b.value.named), ExprText(b.value.keyed)) else Refused
  }

  function OfList(b: Resolved<Pair<seq<Expr>>>): Reading {
    if b.Fine? then Read(ListText(b.value.named), ListText(b.value.keyed)) else Refused
  }

  function OfCall(b: Resolved<Pair<CallExpr>>): Reading {
    if b.Fine? then Read(CallText(b.value.named), CallText(b.value.keyed)) else Refused
  }

  function OfCalls(b: Resolved<Pair<seq<CallExpr>>>): Reading {
    if b.Fine? then Read(CallsText(b.value.named), CallsText(b.value.keyed)) else Refused
  }

  function OfPath(b: Resolved<Pair<seq<Seg>>>): Reading {
    if b.Fine? then Read(PathText(b.value.named), PathText(b.value.keyed)) else Refused
  }

  function OfIndex(b: Resolved<Pair<Option<Expr>>>): Reading {
    if b.Fine? then Read(IndexText(b.value.named), IndexText(b.value.keyed)) else Refused
  }

  function OfStmt(b: Resolved<Bound<Stmt>>): Reading {
    if b.Fine? then Read(StmtText(b.value.code.named), StmtText(b.value.code.keyed)) else Refused
  }

  function OfBlock(b: Resolved<Bound<seq<Stmt>>>): Reading {
    if b.Fine? then Read(BlockText(b.value.code.named), BlockText(b.value.code.keyed)) else Refused
  }

  function OfArms(b: Resolved<Bound<Arms>>): Reading {
    if b.Fine? then Read(ArmsText(b.value.code.named), ArmsText(b.value.code.keyed)) else Refused
  }

  function Wrap(r: Reading): Reading {
    if r.Refused? then Refused else Read(Enclosed(r.named), Enclosed(r.keyed))
  }

  // ---------------------------------------------------------------- expressions

  lemma {:induction false} ExprBinds(scope: Scope, fns: FnMap, e: Expr, before: seq<Event>)
    requires Knows(scope, before)
    ensures OfExpr(BindExpr(scope, fns, e)) == Expected(before, fns, ExprText(e))
    decreases e, 1
  {
    hide Expected, Knows, BindList, BindPath, BindCall, BindCalls, ListText, PathText, CallText, CallsText;
    match e {
      case Lit(_) => ExpectedNothing(before, fns);
      case Var(x) => UseBinds(scope, fns, x, before);
      case FnRef(id) => ExpectedOne(before, fns, FnUse(id));
      case Bin(_, _, l, r) =>
        ExprBinds(scope, fns, l, before);
        NextExpr(scope, fns, l, before);
        ExprBinds(scope, fns, r, before + ExprText(l));
        ExpectedBoth(before, fns, ExprText(l), ExprText(r));
      case Uni(_, e1) => ExprBinds(scope, fns, e1, before);
      case Call(c) => CallBinds(scope, fns, c, before);
      case Chain(base, chain) =>
        CallBinds(scope, fns, base, before);
        CallQuiet(base);
        KnowsQuiet(scope, before, CallText(base));
        CallsBind(scope, fns, chain, before + CallText(base));
        ExpectedBoth(before, fns, CallText(base), CallsText(chain));
      case StructInit(_, inits) => ListBinds(scope, fns, inits, before);
      case ArrayList(es) => ListBinds(scope, fns, es, before);
      case ArrayFill(e1, _) => ExprBinds(scope, fns, e1, before);
      case Indexing(a, i) =>
        ExprBinds(scope, fns, a, before);
        NextExpr(scope, fns, a, before);
        ExprBinds(scope, fns, i, before + ExprText(a));
        ExpectedBoth(before, fns, ExprText(a), ExprText(i));
      case Access(_, _, _) => AccessBinds(scope, fns, e, before);
    }
  }

  lemma NextExpr(scope: Scope, fns: FnMap, e: Expr, before: seq<Event>)
    requires Knows(scope, before)
    ensures Knows(scope, before + ExprText(e)) && Decls(before + ExprText(e)) == Decls(before)
  {
    ExprQuiet(e);
    KnowsQuiet(scope, before, ExprText(e));
  }

  lemma UseBinds(scope: Scope, fns: FnMap, x: string, before: seq<Event>)
    requires Knows(scope, before)
    ensures OfExpr(BindingInfo(scope, fns, x)) == Expected(before, fns, [Use(x)])
  {
    hide Nearest, Expected;
    ExpectedOne(before, fns, Use(x));
    assert Nearest(before, x, 0) == if x in scope then Some(scope[x]) else None;
  }

  lemma RootBinds(scope: Scope, fns: FnMap, x: string, before: seq<Event>)
    requires Knows(scope, before)
    ensures Expected(before, fns, [RootUse(x)]) == if x in scope then Read([RootUse(x)], [RootUse(Slot(scope[x]))]) else Refused
  {
    hide Nearest, Expected;
    ExpectedOne(before, fns, RootUse(x));
    assert Nearest(before, x, 0) == if x in scope then Some(scope[x]) else None;
  }

  lemma {:induction false} AccessBinds(scope: Scope, fns: FnMap, e: Expr, before: seq<Event>)
    requires e.Access? && Knows(scope, before)
    ensures OfExpr(BindExpr(scope, fns, e)) == Expected(before, fns, ExprText(e))
    decreases e, 0
  {
    hide Expected, Knows, PathText, MentionsNames;
    var Access(root, rootIndex, path) := e;
    var hidden := if rootIndex.Some? && MentionsNames(rootIndex.value) then [Unseen] else [];
    var start := [RootUse(root)] + hidden;
    RootBinds(scope, fns, root, before);
    ExpectedBoth(before, fns, [RootUse(root)], hidden);
    ExpectedOne(before + [RootUse(root)], fns, Unseen);
    ExpectedNothing(before + [RootUse(root)], fns);
    KnowsQuiet(scope, before, start);
    PathBinds(scope, fns, path, before + start);
    ExpectedBoth(before, fns, start, PathText(path));
  }

  lemma {:induction false} CallBinds(scope: Scope, fns: FnMap, c: CallExpr, before: seq<Event>)
    requires Knows(scope, before)
    ensures OfCall(BindCall(scope, fns, c)) == Expected(before, fns, CallText(c))
    decreases c
  {
    hide Expected, Knows, ListText, BindList;
    var callee := match c.callee case CalleeVar(x) => [Use(x)] case CalleeFn(id) => [FnUse(id)];
    if c.callee.CalleeVar? {
      UseBinds(scope, fns, c.callee.name, before);
    } else {
      ExpectedOne(before, fns, FnUse(c.callee.id));
    }
    KnowsQuiet(scope, before, callee);
    ListBinds(scope, fns, c.args, before + callee);
    ExpectedBoth(before, fns, callee, ListText(c.args));
  }

  lemma {:induction false} CallsBind(scope: Scope, fns: FnMap, cs: seq<CallExpr>, before: seq<Event>)
    requires Knows(scope, before)
    ensures OfCalls(BindCalls(scope, fns, cs)) == Expected(before, fns, CallsText(cs))
    decreases cs
  {
    hide Expected, Knows, CallText, BindCall;
    if cs == [] {
      ExpectedNothing(before, fns);
    } else {
      CallBinds(scope, fns, cs[0], before);
      CallQuiet(cs[0]);
      KnowsQuiet(scope, before, CallText(cs[0]));
      CallsBind(scope, fns, cs[1..], before + CallText(cs[0]));
      ExpectedBoth(before, fns, CallText(cs[0]), CallsText(cs[1..]));
    }
  }

  lemma {:induction false} ListBinds(scope: Scope, fns: FnMap, es: seq<Expr>, before: seq<Event>)
    requires Knows(scope, before)
    ensures OfList(BindList(scope, fns, es)) == Expected(before, fns, ListText(es))
    decreases es
  {
    hide Expected, Knows, ExprText, BindExpr;
    if es == [] {
      ExpectedNothing(before, fns);
    } else {
      ExprBinds(scope, fns, es[0], before);
      NextExpr(scope, fns, es[0], before);
      ListBinds(scope, fns, es[1..], before + ExprText(es[0]));
      ExpectedBoth(before, fns, ExprText(es[0]), ListText(es[1..]));
    }
  }

  lemma {:induction false} PathBinds(scope: Scope, fns: FnMap, path: seq<Seg>, before: seq<Event>)
    requires Knows(scope, before)
    ensures OfPath(BindPath(scope, fns, path)) == Expected(before, fns, PathText(path))
    decreases path
  {
    hide Expected, Knows, ExprText, BindExpr;
    if path == [] {
      ExpectedNothing(before, fns);
    } else if path[0].SegField? {
      PathBinds(scope, fns, path[1..], before);
      assert [] + PathText(path[1..]) == PathText(path[1..]);
    } else {
      var text := ExprText(path[0].index);
      ExprBinds(scope, fns, path[0].index, before);
      NextExpr(scope, fns, path[0].index, before);
      PathBinds(scope, fns, path[1..], before + text);
      ExpectedBoth(before, fns, text, PathText(path[1..]));
    }
  }

  lemma IndexBinds(scope: Scope, fns: FnMap, index: Option<Expr>, before: seq<Event>)
    requires Knows(scope, before)
    ensures OfIndex(BindIndex(scope, fns, index)) == Expected(before, fns, IndexText(index))
    ensures Knows(scope, before + IndexText(index)) && Decls(before + IndexText(index)) == Decls(before)
  {
    hide Expected, Knows, ExprText, BindExpr;
    if index.Some? {
      ExprBinds(scope, fns, index.value, before);
      NextExpr(scope, fns, index.value, before);
    } else {
      ExpectedNothing(before, fns);
      assert before + [] == before;
    }
  }

  // ---------------------------------------------------------------- statements

  /** Behind bound text, the scope and the counter are right again. */
  ghost predicate GoesOn(scope: Scope, next: VarId, text: seq<Event>) { Knows(scope, text) && next == Decls(text) }

  lemma {:induction false} StmtBinds(scope: Scope, fns: FnMap, s: Stmt, next: VarId, before: seq<Event>)
    requires GoesOn(scope, next, before)
    ensures var b := BindStmt(scope, fns, s, next);
      OfStmt(b) == Expected(before, fns, StmtText(s)) && (b.Fine? ==> GoesOn(b.value.scope, b.value.next, before + StmtText(s)))
    decreases s
  {
    hide Expected, Knows, ExprText, PathText, BlockText, ArmsText, IndexText, Enclosed, BindExpr, BindPath, BindIndex, BindBlock, BindArms, Decls;
    match s {
      case ExprStmt(e) =>
        ExprBinds(scope, fns, e, before);
        NextExpr(scope, fns, e, before);
      case Local(_, _) => LocalBinds(scope, fns, s, next, before);
      case Assign(_, _, _, _) => AssignBinds(scope, fns, s, next, before);
      case Return(None) => NothingBinds(scope, fns, before);
      case Return(Some(e)) =>
        ExprBinds(scope, fns, e, before);
        NextExpr(scope, fns, e, before);
      case Break => NothingBinds(scope, fns, before);
      case Continue => NothingBinds(scope, fns, before);
      case While(cond, body) =>
        ExprBinds(scope, fns, cond, before);
        NextExpr(scope, fns, cond, before);
        EnclosedBinds(scope, fns, body, next, before + ExprText(cond));
        ExpectedBoth(before, fns, ExprText(cond), Enclosed(BlockText(body)));
        assert before + (ExprText(cond) + Enclosed(BlockText(body))) == before + ExprText(cond) + Enclosed(BlockText(body));
      case If(_, _, _) => IfBinds(scope, fns, s, next, before);
    }
  }

  lemma NothingBinds(scope: Scope, fns: FnMap, before: seq<Event>)
    ensures Expected(before, fns, []) == Read([], []) && before + [] == before
  {
  }

  lemma LocalBinds(scope: Scope, fns: FnMap, s: Stmt, next: VarId, before: seq<Event>)
    requires s.Local? && GoesOn(scope, next, before)
    ensures var b := BindStmt(scope, fns, s, next);
      OfStmt(b) == Expected(before, fns, StmtText(s)) && (b.Fine? ==> GoesOn(b.value.scope, b.value.next, before + StmtText(s)))
  {
    hide Expected, Knows, ExprText, BindExpr, Decls;
    var Local(x, e) := s;
    ExprBinds(scope, fns, e, before);
    NextExpr(scope, fns, e, before);
    var b := before + ExprText(e);
    ExpectedOne(b, fns, Decl(x));
    ExpectedBoth(before, fns, ExprText(e), [Decl(x)]);
    KnowsDecl(scope, b, x);
    assert before + (ExprText(e) + [Decl(x)]) == b + [Decl(x)];
  }

  lemma AssignBinds(scope: Scope, fns: FnMap, s: Stmt, next: VarId, before: seq<Event>)
    requires s.Assign? && GoesOn(scope, next, before)
    ensures var b := BindStmt(scope, fns, s, next);
      OfStmt(b) == Expected(before, fns, StmtText(s)) && (b.Fine? ==> GoesOn(b.value.scope, b.value.next, before + StmtText(s)))
  {
    hide Expected, Knows, ExprText, PathText, IndexText, BindExpr, BindPath, BindIndex, Decls;
    var Assign(root, rootIndex, path, value) := s;
    var t0, t1, t2, t3 := [RootUse(root)], IndexText(rootIndex), PathText(path), ExprText(value);
    RootBinds(scope, fns, root, before);
    KnowsQuiet(scope, before, t0);
    IndexBinds(scope, fns, rootIndex, before + t0);
    PathBinds(scope, fns, path, before + t0 + t1);
    PathQuiet(path);
    KnowsQuiet(scope, before + t0 + t1, t2);
    ExprBinds(scope, fns, value, before + t0 + t1 + t2);
    NextExpr(scope, fns, value, before + t0 + t1 + t2);
    ExpectedBoth(before, fns, t0, t1);
    assert before + (t0 + t1) == before + t0 + t1;
    ExpectedBoth(before, fns, t0 + t1, t2);
    assert before + (t0 + t1 + t2) == before + t0 + t1 + t2;
    ExpectedBoth(before, fns, t0 + t1 + t2, t3);
    assert before + (t0 + t1 + t2 + t3) == before + t0 + t1 + t2 + t3;
  }

  lemma {:induction false} IfBinds(scope: Scope, fns: FnMap, s: Stmt, next: VarId, before: seq<Event>)
    requires s.If? && GoesOn(scope, next, before)
    ensures var b := BindStmt(scope, fns, s, next);
      OfStmt(b) == Expected(before, fns, StmtText(s)) && (b.Fine? ==> GoesOn(b.value.scope, b.value.next, before + StmtText(s)))
    decreases s, 0
  {
    hide Expected, Knows, ExprText, BlockText, ArmsText, Enclosed, BindExpr, BindBlock, BindArms, Decls;
    var If(cond, body, rest) := s;
    var t0, t1, t2 := ExprText(cond), Enclosed(BlockText(body)), ArmsText(rest);
    ExprBinds(scope, fns, cond, before);
    NextExpr(scope, fns, cond, before);
    EnclosedBinds(scope, fns, body, next, before + t0);
    ExpectedBoth(before, fns, t0, t1);
    assert before + (t0 + t1) == before + t0 + t1;
    ExpectedBoth(before, fns, t0 + t1, t2);
    assert before + (t0 + t1 + t2) == before + t0 + t1 + t2;
    var b := BindBlock(scope, fns, body, next);
    if b.Fine? {
      ArmsBind(scope, fns, rest, b.value.next, before + t0 + t1);
    }
  }

  lemma {:induction false} EnclosedBinds(scope: Scope, fns: FnMap, body: seq<Stmt>, next: VarId, before: seq<Event>)
    requires GoesOn(scope, next, before)
    ensures var b := BindBlock(scope, fns, body, next);
      && Wrap(OfBlock(b)) == Expected(before, fns, Enclosed(BlockText(body)))
      && (b.Fine? ==> GoesOn(scope, b.value.next, before + Enclosed(BlockText(body))))
    decreases body, 1
  {
    hide Expected, Knows, BlockText, BindBlock, Decls;
    var text := BlockText(body);
    KnowsOpen(scope, before);
    BlockBinds(scope, fns, body, next, before + [Open]);
    ExpectedOne(before, fns, Open);
    ExpectedBoth(before, fns, [Open], text);
    ExpectedOne(before + ([Open] + text), fns, Close);
    ExpectedBoth(before, fns, [Open] + text, [Close]);
    KnowsEnclosed(scope, before, body);
    assert before + Enclosed(text) == before + [Open] + text + [Close];
    Last(before + [Open] + text, Close);
  }

  lemma {:induction false} BlockBinds(scope: Scope, fns: FnMap, stmts: seq<Stmt>, next: VarId, before: seq<Event>)
    requires GoesOn(scope, next, before)
    ensures var b := BindBlock(scope, fns, stmts, next);
      OfBlock(b) == Expected(before, fns, BlockText(stmts)) && (b.Fine? ==> GoesOn(b.value.scope, b.value.next, before + BlockText(stmts)))
    decreases stmts, 0
  {
    hide Expected, Knows, StmtText, BindStmt, Decls;
    if stmts == [] {
      NothingBinds(scope, fns, before);
    } else {
      var first, rest := StmtText(stmts[0]), BlockText(stmts[1..]);
      StmtBinds(scope, fns, stmts[0], next, before);
      ExpectedBoth(before, fns, first, rest);
      assert before + (first + rest) == before + first + rest;
      var a := BindStmt(scope, fns, stmts[0], next);
      if a.Fine? {
        BlockBinds(a.value.scope, fns, stmts[1..], a.value.next, before + first);
      }
    }
  }

  lemma {:induction false} ArmsBind(scope: Scope, fns: FnMap, arms: Arms, next: VarId, before: seq<Event>)
    requires GoesOn(scope, next, before)
    ensures var b := BindArms(scope, fns, arms, next);
      OfArms(b) == Expected(before, fns, ArmsText(arms)) && (b.Fine? ==> GoesOn(scope, b.value.next, before + ArmsText(arms)))
    decreases arms
  {
    hide Expected, Knows, ExprText, BlockText, Enclosed, BindExpr, BindBlock, Decls;
    match arms {
      case NoMore => NothingBinds(scope, fns, before);
      case Default(body) => EnclosedBinds(scope, fns, body, next, before);
      case Elif(cond, body, rest) =>
        var t0, t1, t2 := ExprText(cond), Enclosed(BlockText(body)), ArmsText(rest);
        ExprBinds(scope, fns, cond, before);
        NextExpr(scope, fns, cond, before);
        EnclosedBinds(scope, fns, body, next, before + t0);
        ExpectedBoth(before, fns, t0, t1);
        assert before + (t0 + t1) == before + t0 + t1;
        ExpectedBoth(before, fns, t0 + t1, t2);
        assert before + (t0 + t1 + t2) == before + t0 + t1 + t2;
        var b := BindBlock(scope, fns, body, next);
        if b.Fine? {
          ArmsBind(scope, fns, rest, b.value.next, before + t0 + t1);
        }
    }
  }

  // ---------------------------------------------------------------- functions

  /** The parameters, declared in front of the body. */
  function ParamText(params: seq<string>): seq<Event> {
    if params == [] then [] else [Decl(params[0])] + ParamText(params[1..])
  }

  lemma {:induction false} ParamsGoOn(scope: Scope, params: seq<string>, next: VarId, before: seq<Event>)
    requires GoesOn(scope, next, before)
    ensures GoesOn(ParamScope(scope, params, next), next + |params|, before + ParamText(params))
    decreases params
  {
    hide Knows, Decls;
    if params == [] {
      assert before + [] == before;
    } else {
      KnowsDecl(scope, before, params[0]);
      ParamsGoOn(scope[params[0] := next], params[1..], next + 1, before + [Decl(params[0])]);
      assert before + [Decl(params[0])] + ParamText(params[1..]) == before + ParamText(params);
    }
  }

  lemma NothingKnown()
    ensures GoesOn(map[], 0, [])
  {
  }

  /** A function is bound if and only if every name in its body means something, and then every name in it is what it
      means: the variable of the nearest declaration that is still visible, or, where there is none, the function. */
  lemma NamesMeanTheNearest(fns: FnMap, d: FnDef)
    ensures var b := BindFn(fns, d);
      var before, text := ParamText(d.params), BlockText(d.body);
      && (b.Fine? <==> AllLegal(before, fns, text))
      && (b.Fine? ==>
            && BlockText(b.value.named.body) == Meanings(false, before, fns, text)
            && BlockText(b.value.keyed.body) == Meanings(true, before, fns, text)
            && b.value.named.params == d.params && b.value.keyed.params == Slots(|d.params|, 0))
  {
    hide BlockText, BindBlock, AllLegal, Meanings, Knows, Decls;
    NothingKnown();
    ParamsGoOn(map[], d.params, 0, []);
    assert [] + ParamText(d.params) == ParamText(d.params);
    BlockBinds(ParamScope(map[], d.params, 0), fns, d.body, |d.params|, ParamText(d.params));
  }

  // ---------------------------------------------------------------- variables before functions

  /** The same functions under all names that are not variables. */
  ghost predicate SameOutside(scope: Scope, f: FnMap, g: FnMap) {
    forall x :: x !in scope ==> (x in f <==> x in g) && (x in f ==> f[x] == g[x])
  }

  lemma {:induction false} ExprHides(scope: Scope, f: FnMap, g: FnMap, e: Expr)
    requires SameOutside(scope, f, g)
    ensures BindExpr(scope, f, e) == BindExpr(scope, g, e)
    decreases e
  {
    match e {
      case Bin(_, _, l, r) =>
        ExprHides(scope, f, g, l);
        ExprHides(scope, f, g, r);
      case Uni(_, e1) => ExprHides(scope, f, g, e1);
      case Call(c) => CallHides(scope, f, g, c);
      case Chain(base, chain) =>
        CallHides(scope, f, g, base);
        CallsHide(scope, f, g, chain);
      case StructInit(_, inits) => ListHides(scope, f, g, inits);
      case ArrayList(es) => ListHides(scope, f, g, es);
      case ArrayFill(e1, _) => ExprHides(scope, f, g, e1);
      case Indexing(a, i) =>
        ExprHides(scope, f, g, a);
        ExprHides(scope, f, g, i);
      case Access(_, _, path) => PathHides(scope, f, g, path);
      case Lit(_) =>
      case Var(_) =>
      case FnRef(_) =>
    }
  }

  lemma {:induction false} CallHides(scope: Scope, f: FnMap, g: FnMap, c: CallExpr)
    requires SameOutside(scope, f, g)
    ensures BindCall(scope, f, c) == BindCall(scope, g, c)
    decreases c
  {
    ListHides(scope, f, g, c.args);
  }

  lemma {:induction false} CallsHide(scope: Scope, f: FnMap, g: FnMap, cs: seq<CallExpr>)
    requires SameOutside(scope, f, g)
    ensures BindCalls(scope, f, cs) == BindCalls(scope, g, cs)
    decreases cs
  {
    if cs != [] {
      CallHides(scope, f, g, cs[0]);
      CallsHide(scope, f, g, cs[1..]);
    }
  }

  lemma {:induction false} ListHides(scope: Scope, f: FnMap, g: FnMap, es: seq<Expr>)
    requires SameOutside(scope, f, g)
    ensures BindList(scope, f, es) == BindList(scope, g, es)
    decreases es
  {
    if es != [] {
      ExprHides(scope, f, g, es[0]);
      ListHides(scope, f, g, es[1..]);
    }
  }

  lemma {:induction false} PathHides(scope: Scope, f: FnMap, g: FnMap, path: seq<Seg>)
    requires SameOutside(scope, f, g)
    ensures BindPath(scope, f, path) == BindPath(scope, g, path)
    decreases path
  {
    if path != [] {
      if path[0].SegIndex? {
        ExprHides(scope, f, g, path[0].index);
      }
      PathHides(scope, f, g, path[1..]);
    }
  }

  lemma {:induction false} StmtHides(scope: Scope, f: FnMap, g: FnMap, s: Stmt, next: VarId)
    requires SameOutside(scope, f, g)
    ensures BindStmt(scope, f, s, next) == BindStmt(scope, g, s, next)
    ensures var b := BindStmt(scope, f, s, next); b.Fine? ==> SameOutside(b.value.scope, f, g)
    decreases s
  {
    hide BindExpr, BindPath, BindBlock, BindArms;
    match s {
      case ExprStmt(e) => ExprHides(scope, f, g, e);
      case Local(_, e) => ExprHides(scope, f, g, e);
      case Assign(_, rootIndex, path, value) =>
        if rootIndex.Some? {
          ExprHides(scope, f, g, rootIndex.value);
        }
        PathHides(scope, f, g, path);
        ExprHides(scope, f, g, value);
      case Return(None) =>
      case Return(Some(e)) => ExprHides(scope, f, g, e);
      case Break =>
      case Continue =>
      case While(cond, body) =>
        ExprHides(scope, f, g, cond);
        VariablesHideFunctions(scope, f, g, body, next);
      case If(cond, body, rest) =>
        ExprHides(scope, f, g, cond);
        VariablesHideFunctions(scope, f, g, body, next);
        var b := BindBlock(scope, f, body, next);
        if b.Fine? {
          ArmsHide(scope, f, g, rest, b.value.next);
        }
    }
  }

  lemma {:induction false} ArmsHide(scope: Scope, f: FnMap, g: FnMap, arms: Arms, next: VarId)
    requires SameOutside(scope, f, g)
    ensures BindArms(scope, f, arms, next) == BindArms(scope, g, arms, next)
    decreases arms
  {
    hide BindExpr, BindBlock;
    match arms {
      case NoMore =>
      case Default(body) => VariablesHideFunctions(scope, f, g, body, next);
      case Elif(cond, body, rest) =>
        ExprHides(scope, f, g, cond);
        VariablesHideFunctions(scope, f, g, body, next);
        var b := BindBlock(scope, f, body, next);
        if b.Fine? {
          ArmsHide(scope, f, g, rest, b.value.next);
        }
    }
  }

  /** A visible variable hides every function of its name: which functions there are under the names of visible variables
      makes no difference to anything bound there. */
  lemma {:induction false} VariablesHideFunctions(scope: Scope, f: FnMap, g: FnMap, stmts: seq<Stmt>, next: VarId)
    requires SameOutside(scope, f, g)
    ensures BindBlock(scope, f, stmts, next) == BindBlock(scope, g, stmts, next)
    decreases stmts
  {
    hide BindStmt, SameOutside;
    if stmts != [] {
      StmtHides(scope, f, g, stmts[0], next);
      var a := BindStmt(scope, f, stmts[0], next);
      if a.Fine? {
        VariablesHideFunctions(a.value.scope, f, g, stmts[1..], a.value.next);
      }
    }
  }
}
