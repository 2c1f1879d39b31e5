/** Precedence climbing is exact: the parser returns the one canonical tree of what it consumes, and finds it whenever
    there is one. */
module PrecedenceClimbing {
  import opened Values
  import opened ExprParser

  // ---------------------------------------------------------------- small facts

  lemma Regroup<T>(a: seq<T>, b: seq<T>, c: seq<T>, d: seq<T>)
    ensures a + b + c + d == a + (b + c + d) && a + b + c + d == a + b + (c + d) && a + (b + c + d) == a + (b + (c + d))
  {
  }

  lemma Headed<T>(x: T, s: seq<T>, rest: seq<T>)
    ensures ([x] + s + rest)[0] == x && ([x] + s + rest)[1..] == s + rest
  {
  }

  lemma Bracketed<T>(x: T, s: seq<T>, y: T, rest: seq<T>)
    ensures ([x] + s + [y] + rest)[0] == x && ([x] + s + [y] + rest)[1..] == s + ([y] + rest)
  {
  }

  lemma Applied<T>(x: T, y: T, s: seq<T>, z: T, rest: seq<T>)
    ensures var ts := [x, y] + s + [z] + rest;
      |ts| > 1 && ts[0] == x && ts[1] == y && ts[1..][0] == y && ts[1..][1..] == s + ([z] + rest) && s + ([z] + rest) == s + [z] + rest
  {
  }

  lemma {:induction false} CallsEnd(t: Tree, rest: seq<Token>)
    requires Erase(t).CallAst?
    ensures FollowOk(t, rest)
    decreases t
  {
    match t {
      case Prefix(_, e) => CallsEnd(e, rest);
      case Group(_) =>
      case Call(_, _) =>
    }
  }

  /** No tree starts with a token that ends or separates arguments or stages, or that is a binary operator only. */
  lemma {:induction false} FirstToken(t: Tree)
    requires Canonical(t)
    ensures Yield(t) != [] && Yield(t)[0] !in {Comma, RParen, RBracket, Pipe, TypeWord}
    decreases t
  {
    match t {
      case Bin(_, l, _) => FirstToken(l);
      case Chain(b, _) => FirstToken(b);
      case Lit(_) =>
      case Name(_) =>
      case Prefix(_, _) =>
      case Group(_) =>
      case Call(_, _) =>
      case Index(_, _) =>
    }
  }

  lemma OpOfToken(t: Token)
    requires GetOp(t).Some?
    ensures OpToken(GetOp(t).value) == t
  {
  }

  // ---------------------------------------------------------------- soundness

  /** A parser result that is right: a canonical tree of what was consumed, with a proper end. */
  predicate Parses(p: Parsed<Tree>, ts: seq<Token>) {
    p.Ok? ==> Yield(p.tree) + p.rest == ts && Canonical(p.tree) && FollowOk(p.tree, p.rest)
  }

  lemma {:induction false} PrimarySound(ts: seq<Token>)
    ensures var p := ParsePrimary(ts); Parses(p, ts) && (p.Ok? ==> IsPrimary(p.tree))
    decreases |ts|, 0
  {
    if ts != [] {
      var first, more := ts[0], ts[1..];
      assert ts == [first] + more;
      if first.Plus? || first.Minus? || first.Invert? {
        PrimarySound(more);
      } else if first.LParen? {
        PipedSound(more);
        var p := Expect(ParsePiped(more), RParen);
        if p.Ok? {
          Regroup([LParen], Yield(p.tree), [RParen], p.rest);
        }
      } else if first.Ident? {
        IdentSound(first.name, more);
      }
    }
  }

  lemma {:induction false} IdentSound(x: string, ts: seq<Token>)
    ensures var p := ParseIdentLeaf(x, ts); Parses(p, [Ident(x)] + ts) && (p.Ok? ==> IsPrimary(p.tree))
    decreases |ts|, 0
  {
    hide ParseArgs, ParsePiped;
    if ts != [] {
      if ts[0].LParen? {
        CallSound(x, ts[1..]);
        assert [Ident(x), LParen] + ts[1..] == [Ident(x)] + ts;
      } else if ts[0].LBracket? {
        IndexSound(x, ts[1..]);
        assert [Ident(x), LBracket] + ts[1..] == [Ident(x)] + ts;
      }
    }
  }

  lemma {:induction false} CallSound(x: string, ts: seq<Token>)
    ensures var p := ParseArgs(ts);
      p.Ok? ==> Parses(Ok(Call(x, p.tree), p.rest), [Ident(x), LParen] + ts)
    decreases |ts|, 5
  {
    hide ParseArgs, ArgsYield, CanonicalArgs;
    ArgsSound(ts);
    var p := ParseArgs(ts);
    if p.Ok? {
      Regroup([Ident(x), LParen], ArgsYield(p.tree), [RParen], p.rest);
    }
  }

  lemma {:induction false} IndexSound(x: string, ts: seq<Token>)
    ensures var p := Expect(ParsePiped(ts), RBracket);
      p.Ok? && p.rest != [] && p.rest[0] != Dot ==> Parses(Ok(Index(x, p.tree), p.rest), [Ident(x), LBracket] + ts)
    decreases |ts|, 5
  {
    hide ParsePiped;
    PipedSound(ts);
    var p := Expect(ParsePiped(ts), RBracket);
    if p.Ok? {
      Regroup([Ident(x), LBracket], Yield(p.tree), [RBracket], p.rest);
    }
  }

  lemma {:induction false} ArgsSound(ts: seq<Token>)
    ensures var p := ParseArgs(ts);
      p.Ok? ==> ArgsYield(p.tree) + [RParen] + p.rest == ts && CanonicalArgs(p.tree)
    decreases |ts|, 4
  {
    hide ParsePiped, ParsePrimary, ParseExpr, Precedence, Erase, FollowOk, Canonical, GetOp, Yield;
    if ts != [] {
      if ts[0] == RParen {
        assert ts == [RParen] + ts[1..];
      } else {
        PipedSound(ts);
        var a := ParsePiped(ts);
        if a.Ok? && a.rest != [] {
          var comma := a.rest[0] == Comma;
          var from := if comma then a.rest[1..] else a.rest;
          ArgsSound(from);
          var more := ParseArgs(from);
          if more.Ok? {
            var sep := if comma then [Comma] else [];
            assert a.rest == sep + from;
            var behind := ArgsYield(more.tree) + [RParen];
            Regroup(Yield(a.tree), sep, behind, more.rest);
            assert Yield(a.tree) + sep + ArgsYield(more.tree) + [RParen] == Yield(a.tree) + sep + behind;
            assert !comma ==> a.rest[0] == behind[0] by {
              assert from == behind + more.rest;
            }
            if !comma {
              EndsByFirst(a.tree, a.rest, behind);
            }
          }
        }
      }
    }
  }

  /** Whether a tree ends is decided by the next token. */
  lemma {:induction false} EndsByFirst(t: Tree, rest: seq<Token>, rest': seq<Token>)
    requires rest != [] && rest' != [] && rest[0] == rest'[0]
    ensures FollowOk(t, rest) ==> FollowOk(t, rest')
    ensures Ends(t, rest) ==> Ends(t, rest')
    decreases t
  {
    match t {
      case Prefix(_, e) => EndsByFirst(e, rest, rest');
      case Bin(_, _, r) => EndsByFirst(r, rest, rest');
      case Lit(_) =>
      case Name(_) =>
      case Group(_) =>
      case Call(_, _) =>
      case Index(_, _) =>
      case Chain(_, _) =>
    }
  }

  lemma {:induction false} ElementSound(ts: seq<Token>)
    ensures var p := ParseElement(ts); Parses(p, ts) && (p.Ok? ==> !p.tree.Chain? && NextOp(p.rest).None?)
    decreases |ts|, 2
  {
    PrimarySound(ts);
    var p := ParsePrimary(ts);
    if p.Ok? {
      ExprSound(p.rest, p.tree, 0);
    }
  }

  lemma {:induction false} PipedSound(ts: seq<Token>)
    ensures var p := ParsePiped(ts); Parses(p, ts) && (p.Ok? ==> Ends(p.tree, p.rest))
    decreases |ts|, 3
  {
    ElementSound(ts);
    var b := ParseElement(ts);
    if b.Ok? {
      StagesSound(b.rest);
      var s := ParseStages(b.rest);
      if s.Ok? && s.tree != [] {
        assert ([Erase(b.tree)] + EraseAll(s.tree))[1..] == EraseAll(s.tree);
        if NotACall([Erase(b.tree)] + EraseAll(s.tree)).None? {
          AllCalls(s.tree);
          assert Yield(b.tree) + StagesYield(s.tree) + s.rest == Yield(b.tree) + (StagesYield(s.tree) + s.rest);
        }
      }
    }
  }

  predicate AllCanonical(ss: seq<Tree>) {
    forall i :: 0 <= i < |ss| ==> Canonical(ss[i]) && !ss[i].Chain?
  }

  lemma {:induction false} AllCalls(ss: seq<Tree>)
    requires AllCanonical(ss)
    ensures NotACall(EraseAll(ss)).None? <==> CanonicalStages(ss)
  {
    if ss != [] {
      AllCalls(ss[1..]);
    }
  }

  lemma {:induction false} StagesSound(ts: seq<Token>)
    ensures var p := ParseStages(ts);
      p.Ok? ==>
        && StagesYield(p.tree) + p.rest == ts && AllCanonical(p.tree)
        && (p.rest == [] || p.rest[0] != Pipe)
        && (p.tree != [] ==> NextOp(p.rest).None?)
    decreases |ts|, 0
  {
    hide ParseElement, ParsePrimary, ParseExpr, Precedence, FollowOk, Canonical, GetOp, Yield;
    if ts != [] && ts[0] == Pipe {
      ElementSound(ts[1..]);
      var e := ParseElement(ts[1..]);
      if e.Ok? {
        StagesSound(e.rest);
        var more := ParseStages(e.rest);
        if more.Ok? {
          Regroup([Pipe], Yield(e.tree), StagesYield(more.tree), more.rest);
          assert ts == [Pipe] + ts[1..];
          assert ([e.tree] + more.tree)[1..] == more.tree;
        }
      }
    }
  }

  /** What the climbing loops keep: the operand at hand is canonical, and the next operator does not bind more tightly. */
  predicate Ready(t: Tree, rest: seq<Token>) {
    Canonical(t) && !t.Chain? && FollowOk(t, rest) && (NextOp(rest).Some? ==> Precedence(NextOp(rest).value) <= Root(t))
  }

  lemma {:induction false} ExprSound(ts: seq<Token>, lhs: Tree, min: nat)
    requires Ready(lhs, ts)
    ensures var p := ParseExpr(ts, lhs, min);
      p.Ok? ==>
        && Yield(p.tree) + p.rest == Yield(lhs) + ts && Ready(p.tree, p.rest) && !Binds(p.rest, min)
        && (Binds(ts, min) ==> Root(p.tree) >= min && p.tree.Bin?)
    decreases |ts|, 0
  {
    hide ParsePrimary, ParseRhs, Erase, Yield, Canonical, FollowOk, Precedence, GetOp;
    if Binds(ts, min) {
      var op := NextOp(ts).value;
      PrimarySound(ts[1..]);
      var r := ParsePrimary(ts[1..]);
      if r.Ok? {
        OperandReady(r.tree, r.rest, op);
        RhsSound(r.rest, r.tree, Precedence(op));
        var rhs := ParseRhs(r.rest, r.tree, Precedence(op));
        if rhs.Ok? {
          OpOfToken(ts[0]);
          NodeReady(op, lhs, rhs.tree, rhs.rest);
          assert ts == [OpToken(op)] + ts[1..];
          ExprSound(rhs.rest, Bin(op, lhs, rhs.tree), min);
        }
      }
    }
  }

  lemma OperandReady(t: Tree, rest: seq<Token>, op: BinOp)
    requires IsPrimary(t) && Canonical(t) && FollowOk(t, rest)
    ensures Ready(t, rest) && Root(t) > Precedence(op)
  {
  }

  lemma NodeReady(op: BinOp, l: Tree, r: Tree, rest: seq<Token>)
    requires Canonical(l) && !l.Chain? && Root(l) >= Precedence(op)
    requires Ready(r, rest) && Root(r) > Precedence(op) && !Binds(rest, Precedence(op) + 1)
    ensures Ready(Bin(op, l, r), rest)
    ensures Yield(Bin(op, l, r)) + rest == Yield(l) + ([OpToken(op)] + (Yield(r) + rest))
  {
    hide Precedence, GetOp;
    Regroup(Yield(l), [OpToken(op)], Yield(r), rest);
  }

  lemma {:induction false} RhsSound(ts: seq<Token>, rhs: Tree, main: nat)
    requires Ready(rhs, ts) && Root(rhs) > main
    ensures var p := ParseRhs(ts, rhs, main);
      p.Ok? ==>
        && Yield(p.tree) + p.rest == Yield(rhs) + ts && Ready(p.tree, p.rest)
        && Root(p.tree) > main && !Binds(p.rest, main + 1)
    decreases |ts|, 1
  {
    if Binds(ts, main + 1) {
      var min := Precedence(NextOp(ts).value);
      ExprSound(ts, rhs, min);
      var e := ParseExpr(ts, rhs, min);
      if e.Ok? {
        RhsSound(e.rest, e.tree, main);
      }
    }
  }

  // ---------------------------------------------------------------- completeness

  /** The leftmost operand of a tree of operators, and the tokens behind it. */
  function First(t: Tree): Tree {
    if t.Bin? then First(t.lhs) else t
  }

  function Tail(t: Tree): seq<Token> {
    if t.Bin? then Tail(t.lhs) + [OpToken(t.op)] + Yield(t.rhs) else []
  }

  lemma {:induction false} PrimaryComplete(t: Tree, rest: seq<Token>)
    requires IsPrimary(t) && Canonical(t) && FollowOk(t, rest)
    ensures ParsePrimary(Yield(t) + rest) == Ok(t, rest)
    decreases t, 0
  {
    hide ParsePiped, ParseIdentLeaf;
    match t {
      case Lit(l) => assert ([LitTok(l)] + rest)[1..] == rest;
      case Name(x) => NameComplete(x, rest);
      case Prefix(s, e) =>
        Headed(s, Yield(e), rest);
        PrimaryComplete(e, rest);
      case Group(e) =>
        Bracketed(LParen, Yield(e), RParen, rest);
        InnerComplete(e, RParen, rest);
      case Call(f, args) => CallComplete(f, args, rest);
      case Index(x, e) => IndexComplete(x, e, rest);
    }
  }

  lemma NameComplete(x: string, rest: seq<Token>)
    requires FollowOk(Name(x), rest)
    ensures ParsePrimary([Ident(x)] + rest) == Ok(Name(x), rest)
  {
    hide ParsePiped, ParseArgs;
    assert ([Ident(x)] + rest)[1..] == rest;
  }

  /** An expression up to its closing bracket. */
  lemma {:induction false} InnerComplete(e: Tree, close: Token, rest: seq<Token>)
    requires Canonical(e) && close in {RParen, RBracket}
    ensures Expect(ParsePiped(Yield(e) + ([close] + rest)), close) == Ok(e, rest)
    decreases e, 6
  {
    hide ParsePiped, Canonical, FollowOk, Yield;
    FollowClosed(e, [close] + rest);
    PipedComplete(e, [close] + rest);
    assert ([close] + rest)[1..] == rest;
  }

  lemma {:induction false} CallComplete(f: string, args: Arguments, rest: seq<Token>)
    requires CanonicalArgs(args)
    ensures ParsePrimary(Yield(Call(f, args)) + rest) == Ok(Call(f, args), rest)
    decreases args, 3
  {
    hide ParsePiped, ParseArgs, ArgsYield, CanonicalArgs;
    Applied(Ident(f), LParen, ArgsYield(args), RParen, rest);
    ArgsComplete(args, rest);
    ArgsFirst(args);
    var inner := ArgsYield(args) + [RParen] + rest;
    assert inner[0] == (ArgsYield(args) + [RParen])[0];
  }

  lemma {:induction false} IndexComplete(x: string, e: Tree, rest: seq<Token>)
    requires Canonical(e) && rest != [] && rest[0] != Dot
    ensures ParsePrimary(Yield(Index(x, e)) + rest) == Ok(Index(x, e), rest)
    decreases e, 7
  {
    hide ParsePiped, ParseArgs, Canonical, Expect;
    Applied(Ident(x), LBracket, Yield(e), RBracket, rest);
    InnerComplete(e, RBracket, rest);
  }

  lemma {:induction false} FollowClosed(t: Tree, rest: seq<Token>)
    requires rest != [] && rest[0] in {RParen, RBracket, Comma, Pipe}
    ensures FollowOk(t, rest)
    decreases t
  {
    match t {
      case Prefix(_, e) => FollowClosed(e, rest);
      case Bin(_, _, r) => FollowClosed(r, rest);
      case Lit(_) =>
      case Name(_) =>
      case Group(_) =>
      case Call(_, _) =>
      case Index(_, _) =>
      case Chain(_, _) =>
    }
  }

  lemma FollowOp(t: Tree, rest: seq<Token>)
    requires NextOp(rest).Some?
    ensures FollowOk(t, rest)
    decreases t
  {
    match t {
      case Prefix(_, e) => FollowOp(e, rest);
      case Bin(_, _, r) => FollowOp(r, rest);
      case Lit(_) =>
      case Name(_) =>
      case Group(_) =>
      case Call(_, _) =>
      case Index(_, _) =>
      case Chain(_, _) =>
    }
  }

  lemma ArgsFirst(args: Arguments)
    requires CanonicalArgs(args)
    ensures var ts := ArgsYield(args) + [RParen]; ts[0] !in {Comma, TypeWord} && (args != NoArgs ==> ts[0] != RParen)
  {
    if args != NoArgs {
      FirstToken(args.tree);
    }
  }

  lemma {:induction false} ArgsComplete(args: Arguments, rest: seq<Token>)
    requires CanonicalArgs(args)
    ensures ParseArgs(ArgsYield(args) + [RParen] + rest) == Ok(args, rest)
    decreases args, 2
  {
    hide ParsePiped, Yield, Canonical, FollowOk;
    var ts := ArgsYield(args) + [RParen] + rest;
    ArgsFirst(args);
    assert ts[0] == (ArgsYield(args) + [RParen])[0];
    if args.Argument? {
      var Argument(t, comma, more) := args;
      var behind := ArgsYield(more) + [RParen];
      var sep := if comma then [Comma] else [];
      assert ts == Yield(t) + (sep + (behind + rest));
      if comma {
        FollowClosed(t, sep + (behind + rest));
      } else {
        EndsByFirst(t, behind, sep + (behind + rest));
      }
      PipedComplete(t, sep + (behind + rest));
      ArgsFirst(more);
      assert (behind + rest)[0] == behind[0];
      assert comma ==> (sep + (behind + rest))[1..] == behind + rest;
      assert !comma ==> sep + (behind + rest) == behind + rest;
      ArgsComplete(more, rest);
    }
  }

  lemma {:induction false} FirstParsed(t: Tree, rest: seq<Token>)
    requires Canonical(t) && !t.Chain? && FollowOk(t, rest)
    ensures ParsePrimary(Yield(t) + rest) == Ok(First(t), Tail(t) + rest)
    decreases t, 1
  {
    hide ParsePrimary, Precedence, Erase;
    if t.Bin? {
      var behind := [OpToken(t.op)] + Yield(t.rhs) + rest;
      FollowOp(t.lhs, behind);
      FirstParsed(t.lhs, behind);
      Regroup(Yield(t.lhs), [OpToken(t.op)], Yield(t.rhs), rest);
      Regroup(Tail(t.lhs), [OpToken(t.op)], Yield(t.rhs), rest);
    } else {
      PrimaryComplete(t, rest);
      assert Tail(t) + rest == rest;
    }
  }

  /** The loop over operators, started behind the first operand of a tree, arrives behind the tree. */
  lemma {:induction false} ExprReaches(t: Tree, rest: seq<Token>, min: nat)
    requires Ready(t, rest) && Root(t) >= min
    ensures ParseExpr(Tail(t) + rest, First(t), min) == ParseExpr(rest, t, min)
    decreases t, 2
  {
    hide ParsePrimary, ParseRhs, Precedence, Erase, FollowOk;
    if t.Bin? {
      var behind := [OpToken(t.op)] + Yield(t.rhs) + rest;
      FollowOp(t.lhs, behind);
      ExprReaches(t.lhs, behind, min);
      assert Tail(t) + rest == Tail(t.lhs) + behind;
      TakesOperator(t, rest);
    } else {
      assert Tail(t) + rest == rest;
    }
  }

  /** Behind the left operand, the loop takes the operator and exactly the right operand. */
  lemma {:induction false} TakesOperator(t: Tree, rest: seq<Token>)
    requires t.Bin? && Ready(t, rest)
    ensures forall min: nat :: min <= Precedence(t.op) ==>
      ParseExpr([OpToken(t.op)] + Yield(t.rhs) + rest, t.lhs, min) == ParseExpr(rest, t, min)
    decreases t, 1
  {
    var behind := [OpToken(t.op)] + Yield(t.rhs) + rest;
    assert behind[1..] == Yield(t.rhs) + rest;
    FirstParsed(t.rhs, rest);
    RhsReaches(t.rhs, rest, Precedence(t.op));
    assert !Binds(rest, Precedence(t.op) + 1);
  }

  lemma {:induction false} RhsReaches(t: Tree, rest: seq<Token>, main: nat)
    requires Ready(t, rest) || (Canonical(t) && !t.Chain? && FollowOk(t, rest) && !Binds(rest, main + 1))
    requires Root(t) > main
    ensures ParseRhs(Tail(t) + rest, First(t), main) == ParseRhs(rest, t, main)
    decreases t, 2
  {
    hide ParsePrimary, Precedence, Erase, FollowOk;
    if t.Bin? {
      var behind := [OpToken(t.op)] + Yield(t.rhs) + rest;
      FollowOp(t.lhs, behind);
      RhsReaches(t.lhs, behind, main);
      assert Tail(t) + rest == Tail(t.lhs) + behind;
      TakesOperator(t, rest);
      assert ParseExpr(behind, t.lhs, Precedence(t.op)) == ParseExpr(rest, t, Precedence(t.op));
    } else {
      assert Tail(t) + rest == rest;
    }
  }

  lemma {:induction false} ElementComplete(t: Tree, rest: seq<Token>)
    requires Canonical(t) && !t.Chain? && FollowOk(t, rest) && NextOp(rest).None?
    ensures ParseElement(Yield(t) + rest) == Ok(t, rest)
    decreases t, 3
  {
    FirstParsed(t, rest);
    ExprReaches(t, rest, 0);
  }

  lemma {:induction false} StagesComplete(ss: seq<Tree>, rest: seq<Token>)
    requires CanonicalStages(ss) && (rest == [] || rest[0] != Pipe) && (ss != [] ==> NextOp(rest).None?)
    ensures ParseStages(StagesYield(ss) + rest) == Ok(ss, rest)
    decreases ss, 4
  {
    hide ParseElement, FollowOk, Canonical, Yield;
    if ss == [] {
      assert StagesYield(ss) + rest == rest;
    } else {
      var behind := StagesYield(ss[1..]) + rest;
      assert (StagesYield(ss) + rest)[1..] == Yield(ss[0]) + behind;
      CallsEnd(ss[0], behind);
      assert NextOp(behind).None? by {
        assert ss[1..] != [] ==> behind[0] == Pipe;
      }
      ElementComplete(ss[0], behind);
      StagesComplete(ss[1..], rest);
      assert [ss[0]] + ss[1..] == ss;
    }
  }

  lemma {:induction false} PipedComplete(t: Tree, rest: seq<Token>)
    requires Canonical(t) && Ends(t, rest)
    ensures ParsePiped(Yield(t) + rest) == Ok(t, rest)
    decreases t, 5
  {
    hide ParseElement, FollowOk;
    if t.Chain? {
      var behind := StagesYield(t.stages) + rest;
      assert Yield(t) + rest == Yield(t.base) + behind;
      assert behind[0] == Pipe;
      CallsEnd(t.base, behind);
      ElementComplete(t.base, behind);
      StagesComplete(t.stages, rest);
      StagesAreCalls(t.stages);
      assert ([Erase(t.base)] + EraseAll(t.stages))[1..] == EraseAll(t.stages);
    } else {
      ElementComplete(t, rest);
      assert ParseStages(rest) == Ok([], rest);
    }
  }

  lemma {:induction false} StagesAreCalls(ss: seq<Tree>)
    requires CanonicalStages(ss)
    ensures NotACall(EraseAll(ss)).None?
  {
    if ss != [] {
      StagesAreCalls(ss[1..]);
    }
  }

  // ---------------------------------------------------------------- the results

  /** The parser accepts an input exactly when it starts with a canonical tree that ends there, and returns that tree. */
  lemma ParserIsExact(ts: seq<Token>, t: Tree, rest: seq<Token>)
    ensures ParsePiped(ts) == Ok(t, rest) <==> Canonical(t) && Ends(t, rest) && ts == Yield(t) + rest
  {
    PipedSound(ts);
    if Canonical(t) && Ends(t, rest) && ts == Yield(t) + rest {
      PipedComplete(t, rest);
    }
  }

  /** A sequence of tokens is the yield of one canonical tree at most. */
  lemma CanonicalIsUnique(t1: Tree, t2: Tree)
    requires Canonical(t1) && Canonical(t2) && Yield(t1) == Yield(t2)
    ensures t1 == t2
  {
    var rest := [RParen];
    FollowClosed(t1, rest);
    FollowClosed(t2, rest);
    PipedComplete(t1, rest);
    PipedComplete(t2, rest);
  }
}
