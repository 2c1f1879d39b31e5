/** Writing an expression back with parentheses only where precedence asks for them, and the shape climbing gives to a
    flat sequence of operands and operators. */
module ExprPrinting {
  import opened Values
  import opened ExprParser
  import opened PrecedenceClimbing
  import Syntax

  // ---------------------------------------------------------------- round trip

  /** What can come out of the parser: only calls are piped, and a pipe has a stage. */
  predicate Printable(e: Ast) {
    match e
    case LitAst(_) => true
    case NameAst(_) => true
    case UniAst(_, e1) => Printable(e1)
    case BinAst(_, l, r) => Printable(l) && Printable(r)
    case CallAst(_, args) => forall a :: a in args ==> Printable(a)
    case IndexAst(_, e1) => Printable(e1)
    case ChainAst(b, ss) => b.CallAst? && Printable(b) && ss != [] && forall s :: s in ss ==> s.CallAst? && Printable(s)
  }

  function Wrapped(t: Tree, wrap: bool): Tree {
    if wrap then Group(t) else t
  }

  /** The tree of an expression, with a group where an operand would otherwise be taken apart. */
  function Dress(e: Ast): Tree {
    match e
    case LitAst(l) => Lit(l)
    case NameAst(x) => Name(x)
    case UniAst(op, e1) => Prefix(if op.Negate? then Minus else Invert, Wrapped(Dress(e1), !IsPrimary(Dress(e1))))
    case BinAst(op, l, r) =>
      Bin(op, Wrapped(Dress(l), l.ChainAst? || Root(Dress(l)) < Precedence(op)),
          Wrapped(Dress(r), r.ChainAst? || Root(Dress(r)) <= Precedence(op)))
    case CallAst(f, args) => Call(f, DressArgs(args))
    case IndexAst(x, e1) => Index(x, Dress(e1))
    case ChainAst(b, ss) => Chain(Dress(b), DressAll(ss))
  }

  function DressArgs(es: seq<Ast>): Arguments {
    if es == [] then NoArgs else Argument(Dress(es[0]), |es| > 1, DressArgs(es[1..]))
  }

  function DressAll(es: seq<Ast>): seq<Tree> {
    if es == [] then [] else [Dress(es[0])] + DressAll(es[1..])
  }

  lemma {:induction false} DressErases(e: Ast)
    ensures Erase(Dress(e)) == e && (Dress(e).Chain? <==> e.ChainAst?)
    decreases e
  {
    match e {
      case LitAst(_) =>
      case NameAst(_) =>
      case UniAst(_, e1) => DressErases(e1);
      case BinAst(_, l, r) =>
        DressErases(l);
        DressErases(r);
      case CallAst(_, args) => ArgsErase(args);
      case IndexAst(_, e1) => DressErases(e1);
      case ChainAst(b, ss) =>
        DressErases(b);
        AllErase(ss);
    }
  }

  lemma {:induction false} ArgsErase(es: seq<Ast>)
    ensures EraseArgs(DressArgs(es)) == es
    decreases es
  {
    if es != [] {
      DressErases(es[0]);
      ArgsErase(es[1..]);
    }
  }

  lemma {:induction false} AllErase(es: seq<Ast>)
    ensures EraseAll(DressAll(es)) == es && |DressAll(es)| == |es|
    decreases es
  {
    if es != [] {
      DressErases(es[0]);
      AllErase(es[1..]);
    }
  }

  lemma {:induction false} DressCanonical(e: Ast)
    requires Printable(e)
    ensures Canonical(Dress(e))
    decreases e
  {
    hide Precedence;
    DressErases(e);
    match e {
      case LitAst(_) =>
      case NameAst(_) =>
      case UniAst(_, e1) => DressCanonical(e1);
      case BinAst(_, l, r) =>
        DressErases(l);
        DressErases(r);
        DressCanonical(l);
        DressCanonical(r);
        PrecedenceBound(e.op);
      case CallAst(_, args) => ArgsCanonical(args);
      case IndexAst(_, e1) => DressCanonical(e1);
      case ChainAst(b, ss) =>
        DressErases(b);
        DressCanonical(b);
        AllDressed(ss);
    }
  }

  lemma PrecedenceBound(op: BinOp)
    ensures Precedence(op) < TIGHT
  {
  }

  lemma {:induction false} ArgsCanonical(es: seq<Ast>)
    requires forall e :: e in es ==> Printable(e)
    ensures CanonicalArgs(DressArgs(es))
    decreases es
  {
    if es != [] {
      DressCanonical(es[0]);
      ArgsCanonical(es[1..]);
      FollowClosed(Dress(es[0]), [RParen]);
      assert es[1..] == [] ==> ArgsYield(DressArgs(es[1..])) + [RParen] == [RParen];
    }
  }

  lemma {:induction false} AllDressed(ss: seq<Ast>)
    requires forall s :: s in ss ==> s.CallAst? && Printable(s)
    ensures CanonicalStages(DressAll(ss)) && |DressAll(ss)| == |ss|
    decreases ss
  {
    if ss != [] {
      DressErases(ss[0]);
      DressCanonical(ss[0]);
      AllDressed(ss[1..]);
    }
  }

  /** What is written is read back, up to any delimiter. */
  lemma RoundTrip(e: Ast, rest: seq<Token>)
    requires Printable(e) && rest != [] && rest[0] in {RParen, RBracket, Comma, Semi, LBrace}
    ensures var p := ParsePiped(Yield(Dress(e)) + rest); p.Ok? && Erase(p.tree) == e && p.rest == rest
  {
    hide Dress, Erase, Canonical, FollowOk, Yield, Printable, ParsePiped;
    DressErases(e);
    DressCanonical(e);
    FollowDelimiter(Dress(e), rest);
    PipedComplete(Dress(e), rest);
  }

  lemma {:induction false} FollowDelimiter(t: Tree, rest: seq<Token>)
    requires rest != [] && rest[0] in {RParen, RBracket, Comma, Semi, LBrace}
    ensures FollowOk(t, rest)
    decreases t
  {
    if t.Prefix? {
      FollowDelimiter(t.operand, rest);
    } else if t.Bin? {
      FollowDelimiter(t.rhs, rest);
    }
  }

  /** What is parsed can be written. */
  lemma {:induction false} CanonicalPrintable(t: Tree)
    requires Canonical(t)
    ensures Printable(Erase(t))
    decreases t
  {
    match t {
      case Lit(_) =>
      case Name(_) =>
      case Prefix(_, e) => CanonicalPrintable(e);
      case Group(e) => CanonicalPrintable(e);
      case Bin(_, l, r) =>
        CanonicalPrintable(l);
        CanonicalPrintable(r);
      case Call(_, args) => ArgsPrintable(args);
      case Index(_, e) => CanonicalPrintable(e);
      case Chain(b, ss) =>
        CanonicalPrintable(b);
        StagesPrintable(ss);
    }
  }

  lemma {:induction false} ArgsPrintable(args: Arguments)
    requires CanonicalArgs(args)
    ensures forall e :: e in EraseArgs(args) ==> Printable(e)
    decreases args
  {
    if args.Argument? {
      CanonicalPrintable(args.tree);
      ArgsPrintable(args.more);
    }
  }

  lemma {:induction false} StagesPrintable(ss: seq<Tree>)
    requires CanonicalStages(ss)
    ensures |EraseAll(ss)| == |ss| && forall e :: e in EraseAll(ss) ==> e.CallAst? && Printable(e)
    decreases ss
  {
    if ss != [] {
      CanonicalPrintable(ss[0]);
      StagesPrintable(ss[1..]);
    }
  }

  /** Parsing, writing and parsing again changes nothing. */
  lemma Reparse(ts: seq<Token>, rest: seq<Token>)
    requires ParsePiped(ts).Ok? && rest != [] && rest[0] in {RParen, RBracket, Comma, Semi, LBrace}
    ensures var e := Erase(ParsePiped(ts).tree);
      var p := ParsePiped(Yield(Dress(e)) + rest);
      p.Ok? && Erase(p.tree) == e && p.rest == rest
  {
    PipedSound(ts);
    CanonicalPrintable(ParsePiped(ts).tree);
    RoundTrip(Erase(ParsePiped(ts).tree), rest);
  }

  /** The same arguments with a comma between any two. */
  function WithCommas(args: Arguments): Arguments {
    match args
    case NoArgs => NoArgs
    case Argument(t, _, more) => Argument(t, more.Argument?, WithCommas(more))
  }

  lemma {:induction false} WithCommasSame(args: Arguments)
    requires CanonicalArgs(args)
    ensures CanonicalArgs(WithCommas(args)) && EraseArgs(WithCommas(args)) == EraseArgs(args)
    decreases args
  {
    hide Canonical, Erase, Yield, FollowOk;
    if args.Argument? {
      WithCommasSame(args.more);
      FollowClosed(args.tree, [RParen]);
      assert ArgsYield(NoArgs) + [RParen] == [RParen];
    }
  }

  /** The commas between arguments are optional: wherever an argument ends by itself in front of the next one, the call
      reads as with all its commas. */
  lemma CommasAreOptional(f: string, args: Arguments, rest: seq<Token>)
    requires CanonicalArgs(args)
    ensures var p, q := ParsePiped(Yield(Call(f, args)) + rest), ParsePiped(Yield(Call(f, WithCommas(args))) + rest);
      Ends(Call(f, args), rest) ==>
        && p.Ok? && p.rest == rest && Erase(p.tree) == CallAst(f, EraseArgs(args))
        && q.Ok? && q.rest == rest && Erase(q.tree) == Erase(p.tree)
  {
    hide Yield, ParsePiped, EraseArgs, CanonicalArgs;
    WithCommasSame(args);
    if Ends(Call(f, args), rest) {
      PipedComplete(Call(f, args), rest);
      PipedComplete(Call(f, WithCommas(args)), rest);
    }
  }

  /** `f(1 2)`, say. */
  lemma BareArguments(a: Syntax.Literal, b: Syntax.Literal)
    ensures var args := Argument(Lit(a), false, Argument(Lit(b), false, NoArgs));
      CanonicalArgs(args) && ArgsYield(args) == [LitTok(a), LitTok(b)]
  {
    var second := Argument(Lit(b), false, NoArgs);
    BareYield(a, second);
    BareYield(b, NoArgs);
    assert ArgsYield(NoArgs) == [] && [LitTok(b)] + [] == [LitTok(b)] && [LitTok(a)] + [LitTok(b)] == [LitTok(a), LitTok(b)];
    assert ArgsYield(NoArgs) + [RParen] == [RParen];
    assert CanonicalArgs(NoArgs) && Ends(Lit(b), [RParen]);
    assert Ends(Lit(a), ArgsYield(second) + [RParen]);
  }

  lemma BareYield(l: Syntax.Literal, more: Arguments)
    ensures ArgsYield(Argument(Lit(l), false, more)) == [LitTok(l)] + ArgsYield(more)
  {
    var sep: seq<Token> := if false then [Comma] else [];
    assert Yield(Lit(l)) + sep == [LitTok(l)];
  }

  // ---------------------------------------------------------------- flat sequences

  /** The operators of a tree with their right neighbours, in order. */
  function Spread(t: Tree): seq<(BinOp, Tree)> {
    if t.Bin? then Spread(t.lhs) + [(t.op, First(t.rhs))] + Spread(t.rhs) else []
  }

  function FlatYield(ops: seq<(BinOp, Tree)>): seq<Token> {
    if ops == [] then [] else [OpToken(ops[0].0)] + Yield(ops[0].1) + FlatYield(ops[1..])
  }

  predicate Operand(t: Tree) { IsPrimary(t) && Canonical(t) }

  predicate Operands(ops: seq<(BinOp, Tree)>) {
    forall i :: 0 <= i < |ops| ==> Operand(ops[i].1)
  }

  lemma {:induction false} FlatAppend(a: seq<(BinOp, Tree)>, b: seq<(BinOp, Tree)>)
    ensures FlatYield(a + b) == FlatYield(a) + FlatYield(b)
  {
    hide Yield, OpToken;
    if a == [] {
      assert a + b == b;
    } else {
      FlatAppend(a[1..], b);
      assert (a + b)[1..] == a[1..] + b && (a + b)[0] == a[0];
      Regroup([OpToken(a[0].0)], Yield(a[0].1), FlatYield(a[1..]), FlatYield(b));
    }
  }

  lemma {:induction false} YieldIsFlat(t: Tree)
    requires !t.Chain?
    requires Canonical(t)
    ensures Yield(t) == Yield(First(t)) + FlatYield(Spread(t))
    ensures Operand(First(t)) && Operands(Spread(t))
    decreases t
  {
    if t.Bin? {
      YieldIsFlat(t.lhs);
      YieldIsFlat(t.rhs);
      var x := (t.op, First(t.rhs));
      assert FlatYield([x]) == [OpToken(t.op)] + Yield(First(t.rhs)) by {
        assert [x][1..] == [];
      }
      FlatAppend(Spread(t.lhs), [x]);
      FlatAppend(Spread(t.lhs) + [x], Spread(t.rhs));
      FlatJoin(Yield(First(t)), FlatYield(Spread(t.lhs)), OpToken(t.op), Yield(First(t.rhs)), FlatYield(Spread(t.rhs)));
    }
  }

  lemma FlatJoin(a: seq<Token>, b: seq<Token>, c: Token, d: seq<Token>, e: seq<Token>)
    ensures a + b + [c] + (d + e) == a + (b + ([c] + d) + e)
  {
  }

  /** A canonical tree with these operands and operators, in order. */
  predicate Reads(t: Tree, x: Tree, ops: seq<(BinOp, Tree)>) {
    Canonical(t) && !t.Chain? && First(t) == x && Spread(t) == ops
  }

  /** The last operand of a sequence that starts behind `x`. */
  function LastOf(x: Tree, ops: seq<(BinOp, Tree)>): Tree {
    if ops == [] then x else ops[|ops| - 1].1
  }

  lemma FlatNext(x: Tree, ops: seq<(BinOp, Tree)>, rest: seq<Token>)
    requires Ends(LastOf(x, ops), rest)
    ensures FollowOk(x, FlatYield(ops) + rest)
    ensures NextOp(FlatYield(ops) + rest) == if ops == [] then None else Some(ops[0].0)
  {
    hide FollowOk;
    if ops == [] {
      assert FlatYield(ops) + rest == rest;
    } else {
      FollowOp(x, FlatYield(ops) + rest);
    }
  }

  lemma FlatHead(ops: seq<(BinOp, Tree)>, rest: seq<Token>)
    requires ops != []
    ensures FlatYield(ops) + rest != [] && (FlatYield(ops) + rest)[1..] == Yield(ops[0].1) + (FlatYield(ops[1..]) + rest)
  {
    hide Yield, OpToken;
    Headed(OpToken(ops[0].0), Yield(ops[0].1), FlatYield(ops[1..]) + rest);
    Regroup([OpToken(ops[0].0)], Yield(ops[0].1), FlatYield(ops[1..]), rest);
  }

  lemma Cut<T>(s: seq<T>, i: nat, j: nat)
    requires i + j <= |s|
    ensures s[i..][j..] == s[i + j..] && s[..i] + s[i..][..j] == s[..i + j]
  {
  }

  /** What a loop over operators leaves: it has read operands from `from` on, in order. */
  predicate HasRead(p: Parsed<Tree>, from: Tree, ops: seq<(BinOp, Tree)>, k: nat, rest: seq<Token>)
    requires k <= |ops|
  {
    p.Ok? && p.rest == FlatYield(ops[k..]) + rest && First(p.tree) == First(from) && Spread(p.tree) == Spread(from) + ops[..k]
  }

  lemma ReadOn(p: Parsed<Tree>, from: Tree, via: Tree, ops: seq<(BinOp, Tree)>, i: nat, j: nat, rest: seq<Token>)
    requires i + j <= |ops| && First(via) == First(from) && Spread(via) == Spread(from) + ops[..i]
    requires HasRead(p, via, ops[i..], j, rest)
    ensures HasRead(p, from, ops, i + j, rest)
  {
    Cut(ops, i, j);
    assert Spread(from) + ops[..i] + ops[i..][..j] == Spread(from) + (ops[..i] + ops[i..][..j]);
  }

  /** The loops over operators never fail on operands. */
  lemma {:induction false} FlatExpr(ops: seq<(BinOp, Tree)>, rest: seq<Token>, lhs: Tree, x: Tree, min: nat) returns (k: nat)
    requires Operands(ops) && Ends(LastOf(x, ops), rest)
    ensures k <= |ops| && (Binds(FlatYield(ops) + rest, min) ==> k > 0)
    ensures HasRead(ParseExpr(FlatYield(ops) + rest, lhs, min), lhs, ops, k, rest)
    decreases |ops|, 0
  {
    hide ParsePrimary, ParseRhs, Yield, Precedence, Ends, FollowOk, Canonical, Spread, OpToken, First, FlatYield;
    var ts := FlatYield(ops) + rest;
    FlatNext(x, ops, rest);
    if !Binds(ts, min) {
      assert ops[..0] == [] && ops[0..] == ops;
      return 0;
    }
    var op, y, more := ops[0].0, ops[0].1, ops[1..];
    FlatHead(ops, rest);
    FlatNext(y, more, rest);
    PrimaryComplete(y, FlatYield(more) + rest);
    var k1 := FlatRhs(more, rest, y, y, Precedence(op));
    var t := Bin(op, lhs, ParseRhs(FlatYield(more) + rest, y, Precedence(op)).tree);
    NodeRead(ops, lhs, t, k1);
    var k2 := FlatExpr(ops[1 + k1..], rest, t, LastOf(y, more[..k1]), min);
    ReadOn(ParseExpr(ts, lhs, min), lhs, t, ops, 1 + k1, k2, rest);
    k := 1 + k1 + k2;
  }

  lemma Prepend<T>(a: seq<T>, s: seq<T>, k: nat)
    requires k < |s|
    ensures a + [s[0]] + s[1..][..k] == a + s[..1 + k] && s[1..][k..] == s[1 + k..]
  {
  }

  lemma NodeRead(ops: seq<(BinOp, Tree)>, lhs: Tree, t: Tree, k: nat)
    requires k < |ops| && t.Bin? && t.op == ops[0].0 && t.lhs == lhs
    requires IsPrimary(ops[0].1) && First(t.rhs) == First(ops[0].1) && Spread(t.rhs) == Spread(ops[0].1) + ops[1..][..k]
    ensures Spread(t) == Spread(lhs) + ops[..1 + k] && First(t) == First(lhs) && ops[1..][k..] == ops[1 + k..]
  {
    Prepend(Spread(lhs), ops, k);
    BehindPrimary(ops[0].1, ops[1..][..k]);
    assert ops[0] == (t.op, First(t.rhs));
  }

  lemma BehindPrimary(t: Tree, s: seq<(BinOp, Tree)>)
    requires IsPrimary(t)
    ensures Spread(t) + s == s && First(t) == t
  {
  }

  lemma {:induction false} FlatRhs(ops: seq<(BinOp, Tree)>, rest: seq<Token>, rhs: Tree, x: Tree, main: nat) returns (k: nat)
    requires Operands(ops) && Ends(LastOf(x, ops), rest)
    ensures k <= |ops|
    ensures HasRead(ParseRhs(FlatYield(ops) + rest, rhs, main), rhs, ops, k, rest)
    decreases |ops|, 1
  {
    hide ParseExpr, Yield, Precedence, Ends, FollowOk, Canonical, Spread, FlatYield, First;
    var ts := FlatYield(ops) + rest;
    if !Binds(ts, main + 1) {
      assert ops[..0] == [] && ops[0..] == ops;
      return 0;
    }
    var min := Precedence(NextOp(ts).value);
    var k1 := FlatExpr(ops, rest, rhs, x, min);
    var e := ParseExpr(ts, rhs, min);
    var k2 := FlatRhs(ops[k1..], rest, e.tree, LastOf(x, ops[..k1]), main);
    ReadOn(ParseRhs(ts, rhs, main), rhs, e.tree, ops, k1, k2, rest);
    k := k1 + k2;
  }

  /** Every sequence of operands and operators is the in-order reading of exactly one canonical tree, and that tree is
      what climbing makes of it. */
  lemma ClimbingIsCanonical(x: Tree, ops: seq<(BinOp, Tree)>, rest: seq<Token>)
    requires Operand(x) && Operands(ops) && Ends(LastOf(x, ops), rest)
    ensures var p := ParseElement(Yield(x) + FlatYield(ops) + rest);
      p.Ok? && p.rest == rest && Reads(p.tree, x, ops)
    ensures forall t :: Reads(t, x, ops) ==> t == ParseElement(Yield(x) + FlatYield(ops) + rest).tree
  {
    hide ParsePrimary, ParseExpr, Yield, Precedence, Canonical, Ends, FollowOk;
    var ts := Yield(x) + FlatYield(ops) + rest;
    assert ts == Yield(x) + (FlatYield(ops) + rest);
    FlatNext(x, ops, rest);
    PrimaryComplete(x, FlatYield(ops) + rest);
    var k := FlatExpr(ops, rest, x, x, 0);
    ElementSound(ts);
    var p := ParseElement(ts);
    FlatNext(LastOf(x, ops[..k]), ops[k..], rest);
    assert ops[k..] == [] && ops[..k] == ops;
    assert p.rest == rest && Spread(p.tree) == ops;
    forall t | Reads(t, x, ops) ensures t == p.tree {
      YieldIsFlat(t);
      YieldIsFlat(p.tree);
      CanonicalIsUnique(t, p.tree);
    }
  }
}
