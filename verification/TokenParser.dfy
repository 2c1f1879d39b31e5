/** The parser as it is written: loops over a token stream that is consumed as it goes. */
module TokenParser {
  import opened Values
  import opened ExprParser

  datatype Delimiter = RParenEnd | RBracketEnd | CommaEnd | SemiEnd | LBraceEnd | PipeEnd

  predicate IsDelim(t: Token, delims: set<Delimiter>) {
    match t
    case RParen => RParenEnd in delims
    case RBracket => RBracketEnd in delims
    case Comma => CommaEnd in delims
    case Semi => SemiEnd in delims
    case LBrace => LBraceEnd in delims
    case Pipe => PipeEnd in delims
    case _ => false
  }

  /** A delimiter is no operator, so which delimiters a caller lists makes no difference. */
  lemma DelimIsNoOp(t: Token, delims: set<Delimiter>)
    ensures IsDelim(t, delims) ==> GetOp(t).None?
  {
  }

  lemma AllAssociateLeft(op: BinOp)
    ensures IsLeftAssociative(op)
  {
  }

  datatype Outcome<+T> = Done(value: T) | Raised(error: ParseError)

  /** A method has done what the grammar's parser does: the same error, or the same tree and the same tokens left. */
  ghost predicate Agrees(r: Outcome<Ast>, left: seq<Token>, p: Parsed<Tree>) {
    if p.Err? then r == Raised(p.error) else r == Done(Erase(p.tree)) && left == p.rest
  }

  ghost predicate ArgsAgree(r: Outcome<seq<Ast>>, left: seq<Token>, p: Parsed<Arguments>) {
    if p.Err? then r == Raised(p.error) else r == Done(EraseArgs(p.tree)) && left == p.rest
  }

  function Join(a: Arguments, b: Arguments): Arguments {
    match a
    case NoArgs => b
    case Argument(t, comma, more) => Argument(t, comma, Join(more, b))
  }

  function After(a: Arguments, p: Parsed<Arguments>): Parsed<Arguments> {
    if p.Err? then p else Ok(Join(a, p.tree), p.rest)
  }

  lemma {:induction false} JoinLast(a: Arguments, t: Tree, comma: bool, b: Arguments)
    ensures Join(Join(a, Argument(t, comma, NoArgs)), b) == Join(a, Argument(t, comma, b))
  {
    if a.Argument? {
      JoinLast(a.more, t, comma, b);
    }
  }

  lemma {:induction false} EraseJoin(a: Arguments, b: Arguments)
    ensures EraseArgs(Join(a, b)) == EraseArgs(a) + EraseArgs(b)
  {
    if a.Argument? {
      EraseJoin(a.more, b);
    }
  }

  function Behind(a: seq<Tree>, p: Parsed<seq<Tree>>): Parsed<seq<Tree>> {
    if p.Err? then p else Ok(a + p.tree, p.rest)
  }

  lemma {:induction false} EraseSnoc(ts: seq<Tree>, t: Tree)
    ensures EraseAll(ts + [t]) == EraseAll(ts) + [Erase(t)]
  {
    if ts != [] {
      EraseSnoc(ts[1..], t);
      assert (ts + [t])[1..] == ts[1..] + [t];
    }
  }

  lemma ChainErases(b: Tree, ts: seq<Tree>)
    ensures Erase(Chain(b, ts)) == ChainAst(Erase(b), EraseAll(ts))
  {
  }

  lemma BehindNothing(p: Parsed<seq<Tree>>)
    ensures Behind([], p) == p
  {
    if p.Ok? {
      assert [] + p.tree == p.tree;
    }
  }

  lemma BehindMore(a: seq<Tree>, t: Tree, p: Parsed<seq<Tree>>)
    ensures Behind(a, Behind([t], p)) == Behind(a + [t], p)
  {
    if p.Ok? {
      assert a + ([t] + p.tree) == a + [t] + p.tree;
    }
  }

  class BufferedTokenizer {
    const tokens: seq<Token>
    var pos: nat

    constructor (tokens: seq<Token>)
      ensures Valid() && Rest() == tokens
    {
      this.tokens, pos := tokens, 0;
    }

    ghost predicate Valid()
      reads this
    {
      pos <= |tokens|
    }

    /** What is still to be read. */
    ghost function Rest(): seq<Token>
      reads this
      requires Valid()
    {
      tokens[pos..]
    }

    predicate HasNext()
      reads this
      requires Valid()
      ensures HasNext() <==> Rest() != []
    {
      pos < |tokens|
    }

    function Peek(): (t: Token)
      reads this
      requires Valid() && Rest() != []
      ensures t == Rest()[0]
    {
      tokens[pos]
    }

    method Next() returns (t: Token)
      requires Valid() && Rest() != []
      modifies this
      ensures Valid() && t == old(Rest()[0]) && Rest() == old(Rest()[1..])
    {
      t := tokens[pos];
      pos := pos + 1;
    }

    method Consume(t: Token) returns (r: Outcome<()>)
      requires Valid()
      modifies this
      ensures Valid()
      ensures r == if old(Rest()) == [] then Raised(UnexpectedEOI)
                   else if old(Rest()[0]) != t then Raised(UnexpectedToken(old(Rest()[0]))) else Done(())
      ensures r.Done? ==> Rest() == old(Rest()[1..])
      ensures |Rest()| <= old(|Rest()|)
    {
      if !HasNext() {
        return Raised(UnexpectedEOI);
      }
      var next := Next();
      r := if next != t then Raised(UnexpectedToken(next)) else Done(());
    }

    method PipedExpr(delims: set<Delimiter>) returns (r: Outcome<Ast>)
      requires Valid()
      modifies this
      ensures Valid() && |Rest()| <= old(|Rest()|)
      ensures Agrees(r, Rest(), ParsePiped(old(Rest())))
      decreases |Rest()|, 3
    {
      hide ParsePrebasePiped, ParseExpr, ExprParser.ParsePrimary;
      var primary := ParsePrimary();
      if primary.Raised? {
        return primary;
      }
      var base := Expr(primary.value, delims, 0, ExprParser.ParsePrimary(old(Rest())).tree);
      if base.Raised? {
        return base;
      }
      r := PrebasePipedExpr(base.value, delims, ParseElement(old(Rest())).tree);
    }

    method PrebasePipedExpr(base: Ast, delims: set<Delimiter>, ghost b: Tree) returns (r: Outcome<Ast>)
      requires Valid() && base == Erase(b)
      modifies this
      ensures Valid() && |Rest()| <= old(|Rest()|)
      ensures Agrees(r, Rest(), ParsePrebasePiped(b, old(Rest())))
      decreases |Rest()|, 1
    {
      hide ParseExpr, ExprParser.ParsePrimary, GetOp, Precedence, Erase, EraseAll;
      var stages: seq<Ast> := [];
      ghost var ts: seq<Tree> := [];
      BehindNothing(ParseStages(Rest()));
      while HasNext() && Peek() == Pipe
        invariant Valid() && |Rest()| <= old(|Rest()|) && stages == EraseAll(ts)
        invariant ParseStages(old(Rest())) == Behind(ts, ParseStages(Rest()))
        decreases |Rest()|
      {
        var _ := Next();
        ghost var inner := Rest();
        var first := ParsePrimary();
        if first.Raised? {
          return first;
        }
        var stage := Expr(first.value, delims + {PipeEnd}, 0, ExprParser.ParsePrimary(inner).tree);
        if stage.Raised? {
          return stage;
        }
        ghost var e := ParseElement(inner).tree;
        EraseSnoc(ts, e);
        BehindMore(ts, e, ParseStages(Rest()));
        stages, ts := stages + [stage.value], ts + [e];
      }
      assert ts + [] == ts;
      ChainErases(b, ts);
      if stages == [] {
        return Done(base);
      }
      var bad := NotACall([base] + stages);
      r := if bad.Some? then Raised(InvalidPiping(bad.value)) else Done(ChainAst(base, stages));
    }

    method Expr(lhs: Ast, delims: set<Delimiter>, min: nat, ghost tree: Tree) returns (r: Outcome<Ast>)
      requires Valid() && lhs == Erase(tree)
      modifies this
      ensures Valid() && |Rest()| <= old(|Rest()|)
      ensures Agrees(r, Rest(), ParseExpr(old(Rest()), tree, min))
      decreases |Rest()|, 0
    {
      hide ParsePiped, ExprParser.ParsePrimary, Precedence, GetOp, IsDelim, IsLeftAssociative;
      var left := lhs;
      ghost var t := tree;
      while true
        invariant Valid() && |Rest()| <= old(|Rest()|) && left == Erase(t)
        invariant ParseExpr(old(Rest()), tree, min) == ParseExpr(Rest(), t, min)
        decreases |Rest()|
      {
        if !HasNext() {
          return Done(left);
        }
        var tok := Peek();
        DelimIsNoOp(tok, delims);
        if IsDelim(tok, delims) || GetOp(tok).None? || Precedence(GetOp(tok).value) < min {
          break;
        }
        var next := Next();
        var op := GetOp(next).value;
        ghost var behind := Rest();
        var primary := ParsePrimary();
        if primary.Raised? {
          return primary;
        }
        var right := primary.value;
        ghost var q := ExprParser.ParsePrimary(behind);
        ghost var u := q.tree;
        while HasNext()
          invariant Valid() && |Rest()| <= |behind| && right == Erase(u)
          invariant ParseRhs(q.rest, q.tree, Precedence(op)) == ParseRhs(Rest(), u, Precedence(op))
          invariant HasNext() || Rest() == []
          decreases |Rest()|
        {
          var ahead := Peek();
          DelimIsNoOp(ahead, delims);
          if IsDelim(ahead, delims) || GetOp(ahead).None? {
            break;
          }
          var other := GetOp(ahead).value;
          AllAssociateLeft(other);
          if !(Precedence(other) > Precedence(op) || (!IsLeftAssociative(other) && Precedence(other) == Precedence(op))) {
            break;
          }
          ghost var from, u0 := Rest(), u;
          var deeper := Expr(right, delims, Precedence(other), u);
          if deeper.Raised? {
            return deeper;
          }
          right := deeper.value;
          u := ParseExpr(from, u0, Precedence(other)).tree;
        }
        assert ParseRhs(q.rest, q.tree, Precedence(op)) == Ok(u, Rest());
        left, t := BinAst(op, left, right), Bin(op, t, u);
      }
      r := Done(left);
    }

    method ParsePrimary() returns (r: Outcome<Ast>)
      requires Valid()
      modifies this
      ensures Valid() && |Rest()| <= old(|Rest()|)
      ensures Agrees(r, Rest(), ExprParser.ParsePrimary(old(Rest())))
      decreases |Rest()|, 0
    {
      hide ParsePiped, ParseIdentLeaf;
      if !HasNext() {
        return Raised(UnexpectedEOI);
      }
      match Peek() {
        case Plus =>
          var _ := Next();
          r := ParsePrimary();
        case Minus =>
          var _ := Next();
          var e := ParsePrimary();
          r := if e.Raised? then e else Done(UniAst(Negate, e.value));
        case Invert =>
          var _ := Next();
          var e := ParsePrimary();
          r := if e.Raised? then e else Done(UniAst(LogicalInvert, e.value));
        case LitTok(l) =>
          var _ := Next();
          r := Done(LitAst(l));
        case LParen =>
          var _ := Next();
          var inner := PipedExpr({RParenEnd});
          if inner.Raised? {
            return inner;
          }
          var close := Consume(RParen);
          r := if close.Raised? then Raised(close.error) else inner;
        case Ident(_) => r := ParseIdent();
        case InitWord => r := Raised(NotModelled);
        case LBracket => r := Raised(NotModelled);
        case FnWord => r := Raised(NotModelled);
        case _ => r := Raised(Unimplemented);
      }
    }

    method ParseIdent() returns (r: Outcome<Ast>)
      requires Valid() && Rest() != [] && Rest()[0].Ident?
      modifies this
      ensures Valid() && |Rest()| < old(|Rest()|)
      ensures Agrees(r, Rest(), ParseIdentLeaf(old(Rest())[0].name, old(Rest())[1..]))
      decreases |Rest()| - 1, 5
    {
      hide ParsePiped, ParseArgs;
      var base := Next();
      if !HasNext() {
        return Raised(UnexpectedEOI);
      }
      match Peek() {
        case Dot => r := Raised(NotModelled);
        case ColonColon => r := Raised(NotModelled);
        case LParen =>
          var _ := Next();
          if !HasNext() {
            return Raised(UnexpectedEOI);
          }
          if Peek().TypeWord? {
            return Raised(NotModelled);
          }
          var args := FnArgsPostLParen();
          r := if args.Raised? then Raised(args.error) else Done(CallAst(base.name, args.value));
        case LBracket =>
          var _ := Next();
          var indexer := PipedExpr({RBracketEnd});
          if indexer.Raised? {
            return indexer;
          }
          var close := Consume(RBracket);
          if close.Raised? {
            return Raised(close.error);
          }
          if !HasNext() {
            return Raised(UnexpectedEOI);
          }
          r := if Peek() == Dot then Raised(NotModelled) else Done(IndexAst(base.name, indexer.value));
        case _ => r := Done(NameAst(base.name));
      }
    }

    method FnArgsPostLParen() returns (r: Outcome<seq<Ast>>)
      requires Valid()
      modifies this
      ensures Valid() && |Rest()| <= old(|Rest()|)
      ensures ArgsAgree(r, Rest(), ParseArgs(old(Rest())))
      decreases |Rest()|, 4
    {
      hide ParsePiped;
      var args: seq<Ast> := [];
      ghost var a := NoArgs;
      while true
        invariant Valid() && |Rest()| <= old(|Rest()|) && args == EraseArgs(a)
        invariant ParseArgs(old(Rest())) == After(a, ParseArgs(Rest()))
        decreases |Rest()|
      {
        if !HasNext() {
          return Raised(UnexpectedEOI);
        }
        if Peek() == RParen {
          break;
        }
        ghost var from := Rest();
        var arg := PipedExpr({RParenEnd, CommaEnd});
        if arg.Raised? {
          return Raised(arg.error);
        }
        args := args + [arg.value];
        if !HasNext() {
          return Raised(UnexpectedEOI);
        }
        var comma := Peek() == Comma;
        if comma {
          var _ := Next();
        }
        ghost var t, more := ParsePiped(from).tree, ParseArgs(Rest());
        if more.Ok? {
          JoinLast(a, t, comma, more.tree);
        }
        EraseJoin(a, Argument(t, comma, NoArgs));
        a := Join(a, Argument(t, comma, NoArgs));
      }
      var _ := Next();
      EraseJoin(a, NoArgs);
      assert EraseArgs(a) + [] == EraseArgs(a);
      r := Done(args);
    }
  }
}
