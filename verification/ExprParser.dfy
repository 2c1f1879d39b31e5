/** The expression grammar: tokens, concrete trees, and the precedence-climbing parser as a function of its input. */
module ExprParser {
  import opened Values
  import Syntax

  datatype Token =
    | Plus | Minus | Star | Slash | Percent
    | Gte | Gt | Lte | Lt | LAnd | LOr | EqEq | NotEq
    | Invert | LParen | RParen | LBracket | RBracket | LBrace | Comma | Semi | Pipe | Dot | ColonColon
    | TypeWord | InitWord | FnWord
    | LitTok(lit: Syntax.Literal) | Ident(name: string) | OtherTok

  function GetOp(t: Token): Option<BinOp> {
    match t
    case Plus => Some(Arith(Add))
    case Minus => Some(Arith(Sub))
    case Star => Some(Arith(Mul))
    case Slash => Some(Arith(Div))
    case Percent => Some(Arith(Mod))
    case Gte => Some(Compare(GreaterEq))
    case Gt => Some(Compare(Greater))
    case Lte => Some(Compare(LesserEq))
    case Lt => Some(Compare(Lesser))
    case LAnd => Some(LogicalAnd)
    case LOr => Some(LogicalOr)
    case EqEq => Some(BinOp.Eq)
    case NotEq => Some(InEq)
    case _ => None
  }

  function Precedence(op: BinOp): nat {
    match op
    case Arith(Add) => 13
    case Arith(Sub) => 13
    case Arith(_) => 14
    case LogicalAnd => 4
    case LogicalOr => 4
    case Compare(_) => 10
    case Eq => 9
    case InEq => 9
  }

  predicate IsLeftAssociative(op: BinOp) {
    match op
    case Arith(_) => true
    case Compare(_) => true
    case LogicalAnd => true
    case LogicalOr => true
    case Eq => true
    case InEq => true
  }

  /** The token an operator is written with. */
  function OpToken(op: BinOp): (t: Token)
    ensures GetOp(t) == Some(op)
  {
    match op
    case Arith(Add) => Plus
    case Arith(Sub) => Minus
    case Arith(Mul) => Star
    case Arith(Div) => Slash
    case Arith(Mod) => Percent
    case Compare(GreaterEq) => Gte
    case Compare(Greater) => Gt
    case Compare(LesserEq) => Lte
    case Compare(Lesser) => Lt
    case LogicalAnd => LAnd
    case LogicalOr => LOr
    case Eq => EqEq
    case InEq => NotEq
  }

  // ---------------------------------------------------------------- trees

  /** What the parser returns: parentheses, unary plus and the commas between arguments leave no trace. */
  datatype Ast =
    | LitAst(lit: Syntax.Literal)
    | NameAst(name: string)
    | UniAst(uop: UniOp, operand: Ast)
    | BinAst(op: BinOp, lhs: Ast, rhs: Ast)
    | CallAst(f: string, args: seq<Ast>)
    | IndexAst(arr: string, indexer: Ast)
    | ChainAst(base: Ast, chain: seq<Ast>)

  /** Arguments, each with or without a comma behind it. */
  datatype Arguments = NoArgs | Argument(tree: Tree, comma: bool, more: Arguments)

  /** A concrete tree keeps all of it. */
  datatype Tree =
    | Lit(lit: Syntax.Literal)
    | Name(name: string)
    | Prefix(sign: Token, operand: Tree)
    | Group(inner: Tree)
    | Bin(op: BinOp, lhs: Tree, rhs: Tree)
    | Call(f: string, args: Arguments)
    | Index(arr: string, indexer: Tree)
    | Chain(base: Tree, stages: seq<Tree>)

  function Erase(t: Tree): Ast {
    match t
    case Lit(l) => LitAst(l)
    case Name(x) => NameAst(x)
    case Prefix(s, e) => if s.Minus? then UniAst(Negate, Erase(e)) else if s.Invert? then UniAst(LogicalInvert, Erase(e)) else Erase(e)
    case Group(e) => Erase(e)
    case Bin(op, l, r) => BinAst(op, Erase(l), Erase(r))
    case Call(f, args) => CallAst(f, EraseArgs(args))
    case Index(x, e) => IndexAst(x, Erase(e))
    case Chain(b, ss) => ChainAst(Erase(b), EraseAll(ss))
  }

  function EraseArgs(args: Arguments): seq<Ast> {
    match args
    case NoArgs => []
    case Argument(t, _, more) => [Erase(t)] + EraseArgs(more)
  }

  function EraseAll(ts: seq<Tree>): (es: seq<Ast>)
    ensures |es| == |ts|
  {
    if ts == [] then [] else [Erase(ts[0])] + EraseAll(ts[1..])
  }

  /** The tokens of a tree, left to right. */
  function Yield(t: Tree): seq<Token> {
    match t
    case Lit(l) => [LitTok(l)]
    case Name(x) => [Ident(x)]
    case Prefix(s, e) => [s] + Yield(e)
    case Group(e) => [LParen] + Yield(e) + [RParen]
    case Bin(op, l, r) => Yield(l) + [OpToken(op)] + Yield(r)
    case Call(f, args) => [Ident(f), LParen] + ArgsYield(args) + [RParen]
    case Index(x, e) => [Ident(x), LBracket] + Yield(e) + [RBracket]
    case Chain(b, ss) => Yield(b) + StagesYield(ss)
  }

  function ArgsYield(args: Arguments): seq<Token> {
    match args
    case NoArgs => []
    case Argument(t, comma, more) => Yield(t) + (if comma then [Comma] else []) + ArgsYield(more)
  }

  function StagesYield(ss: seq<Tree>): seq<Token> {
    if ss == [] then [] else [Pipe] + Yield(ss[0]) + StagesYield(ss[1..])
  }

  // ---------------------------------------------------------------- the grammar

  predicate IsPrimary(t: Tree) { !t.Bin? && !t.Chain? }

  const TIGHT: nat := 20

  /** How tightly the root of a tree binds. */
  function Root(t: Tree): nat {
    if t.Bin? then Precedence(t.op) else TIGHT
  }

  function NextOp(ts: seq<Token>): Option<BinOp> {
    if ts == [] then None else GetOp(ts[0])
  }

  /** The next token is an operator that binds at least this tightly. */
  predicate Binds(ts: seq<Token>, min: nat) { NextOp(ts).Some? && Precedence(NextOp(ts).value) >= min }

  /** What may follow a tree: an identifier must not be continued as a path, a call or an indexing, and needs a token
      behind it to be looked at; so does an indexing. */
  predicate FollowOk(t: Tree, rest: seq<Token>) {
    match t
    case Name(_) => rest != [] && rest[0] !in {Dot, ColonColon, LParen, LBracket}
    case Index(_, _) => rest != [] && rest[0] != Dot
    case Prefix(_, e) => FollowOk(e, rest)
    case Bin(_, _, r) => FollowOk(r, rest)
    case _ => true
  }

  /** Nothing that would continue a whole expression. */
  predicate Ends(t: Tree, rest: seq<Token>) {
    FollowOk(t, rest) && NextOp(rest).None? && (rest == [] || rest[0] != Pipe)
  }

  /** The trees of the grammar: left operands bind at least as tightly as their operator, right operands more tightly,
      and only calls are piped.  An argument without a comma behind it must end by itself. */
  predicate Canonical(t: Tree) {
    match t
    case Lit(_) => true
    case Name(_) => true
    case Prefix(s, e) => s in {Plus, Minus, Invert} && IsPrimary(e) && Canonical(e)
    case Group(e) => Canonical(e)
    case Bin(op, l, r) =>
      && Canonical(l) && !l.Chain? && Root(l) >= Precedence(op)
      && Canonical(r) && !r.Chain? && Root(r) > Precedence(op)
    case Call(_, args) => CanonicalArgs(args)
    case Index(_, e) => Canonical(e)
    case Chain(b, ss) => Canonical(b) && !b.Chain? && Erase(b).CallAst? && ss != [] && CanonicalStages(ss)
  }

  predicate CanonicalArgs(args: Arguments) {
    match args
    case NoArgs => true
    case Argument(t, comma, more) => Canonical(t) && CanonicalArgs(more) && (comma || Ends(t, ArgsYield(more) + [RParen]))
  }

  predicate CanonicalStages(ss: seq<Tree>) {
    ss == [] || (Canonical(ss[0]) && !ss[0].Chain? && Erase(ss[0]).CallAst? && CanonicalStages(ss[1..]))
  }

  // ---------------------------------------------------------------- the parser

  /** `NotModelled` stands for the paths, initializers, type arguments and anonymous functions parsed elsewhere. */
  datatype ParseError = UnexpectedEOI | UnexpectedToken(t: Token) | InvalidPiping(e: Ast) | Unimplemented | NotModelled

  datatype Parsed<+T> = Ok(tree: T, rest: seq<Token>) | Err(error: ParseError)

  predicate Shorter<T>(p: Parsed<T>, ts: seq<Token>) { p.Ok? ==> |p.rest| < |ts| }

  function Expect<T>(p: Parsed<T>, t: Token): (r: Parsed<T>)
    ensures r.Ok? ==> p.Ok? && p.rest == [t] + r.rest && r.tree == p.tree
  {
    if p.Err? then p
    else if p.rest == [] then Err(UnexpectedEOI)
    else if p.rest[0] != t then Err(UnexpectedToken(p.rest[0]))
    else
      assert p.rest == [t] + p.rest[1..];
      Ok(p.tree, p.rest[1..])
  }

  function ParsePrimary(ts: seq<Token>): (p: Parsed<Tree>)
    ensures Shorter(p, ts)
    decreases |ts|, 0
  {
    if ts == [] then Err(UnexpectedEOI)
    else match ts[0] {
      case Plus => ParsePrefix(ts)
      case Minus => ParsePrefix(ts)
      case Invert => ParsePrefix(ts)
      case LitTok(l) => Ok(Lit(l), ts[1..])
      case LParen =>
        var p := Expect(ParsePiped(ts[1..]), RParen);
        if p.Err? then p else Ok(Group(p.tree), p.rest)
      case Ident(x) => ParseIdentLeaf(x, ts[1..])
      case InitWord => Err(NotModelled)
      case LBracket => Err(NotModelled)
      case FnWord => Err(NotModelled)
      case _ => Err(Unimplemented)
    }
  }

  function ParsePrefix(ts: seq<Token>): (p: Parsed<Tree>)
    requires ts != []
    ensures Shorter(p, ts)
    decreases |ts| - 1, 1
  {
    var p := ParsePrimary(ts[1..]);
    if p.Err? then p else Ok(Prefix(ts[0], p.tree), p.rest)
  }

  function ParseIdentLeaf(x: string, ts: seq<Token>): (p: Parsed<Tree>)
    ensures p.Ok? ==> |p.rest| <= |ts|
    decreases |ts|, 0
  {
    if ts == [] then Err(UnexpectedEOI)
    else match ts[0] {
      case Dot => Err(NotModelled)
      case ColonColon => Err(NotModelled)
      case LParen =>
        if ts[1..] == [] then Err(UnexpectedEOI)
        else if ts[1].TypeWord? then Err(NotModelled)
        else
          var p := ParseArgs(ts[1..]);
          if p.Err? then Err(p.error) else Ok(Call(x, p.tree), p.rest)
      case LBracket =>
        var p := Expect(ParsePiped(ts[1..]), RBracket);
        if p.Err? then p
        else if p.rest == [] then Err(UnexpectedEOI)
        else if p.rest[0] == Dot then Err(NotModelled)
        else Ok(Index(x, p.tree), p.rest)
      case _ => Ok(Name(x), ts)
    }
  }

  /** Arguments up to the closing parenthesis; the comma behind one is optional. */
  function ParseArgs(ts: seq<Token>): (p: Parsed<Arguments>)
    ensures Shorter(p, ts)
    decreases |ts|, 4
  {
    if ts == [] then Err(UnexpectedEOI)
    else if ts[0] == RParen then Ok(NoArgs, ts[1..])
    else
      var a := ParsePiped(ts);
      if a.Err? then Err(a.error)
      else if a.rest == [] then Err(UnexpectedEOI)
      else
        var comma := a.rest[0] == Comma;
        var more := ParseArgs(if comma then a.rest[1..] else a.rest);
        if more.Err? then more else Ok(Argument(a.tree, comma, more.tree), more.rest)
  }

  /** One operand and whatever operators follow: every element of a pipe. */
  function ParseElement(ts: seq<Token>): (p: Parsed<Tree>)
    ensures Shorter(p, ts)
    decreases |ts|, 2
  {
    var p := ParsePrimary(ts);
    if p.Err? then p else ParseExpr(p.rest, p.tree, 0)
  }

  /** The first element of a pipe that is no call. */
  function NotACall(es: seq<Ast>): Option<Ast> {
    if es == [] then None else if !es[0].CallAst? then Some(es[0]) else NotACall(es[1..])
  }

  function ParsePiped(ts: seq<Token>): (p: Parsed<Tree>)
    ensures Shorter(p, ts)
    decreases |ts|, 3
  {
    var b := ParseElement(ts);
    if b.Err? then b else ParsePrebasePiped(b.tree, b.rest)
  }

  function ParsePrebasePiped(base: Tree, ts: seq<Token>): (p: Parsed<Tree>)
    ensures p.Ok? ==> |p.rest| <= |ts|
    decreases |ts|, 1
  {
    var s := ParseStages(ts);
    if s.Err? then Err(s.error)
    else if s.tree == [] then Ok(base, ts)
    else
      var bad := NotACall([Erase(base)] + EraseAll(s.tree));
      if bad.Some? then Err(InvalidPiping(bad.value)) else Ok(Chain(base, s.tree), s.rest)
  }

  function ParseStages(ts: seq<Token>): (p: Parsed<seq<Tree>>)
    ensures p.Ok? ==> |p.rest| <= |ts|
    ensures p.Ok? && p.tree == [] ==> p.rest == ts
    decreases |ts|, 0
  {
    if ts == [] || ts[0] != Pipe then Ok([], ts)
    else
      var e := ParseElement(ts[1..]);
      if e.Err? then Err(e.error)
      else
        var more := ParseStages(e.rest);
        if more.Err? then more else Ok([e.tree] + more.tree, more.rest)
  }

  /** The operators behind `lhs` that bind at least as tightly as `min`. */
  function ParseExpr(ts: seq<Token>, lhs: Tree, min: nat): (p: Parsed<Tree>)
    ensures p.Ok? ==> |p.rest| <= |ts| && (Binds(ts, min) ==> |p.rest| < |ts|)
    decreases |ts|, 0
  {
    if !Binds(ts, min) then Ok(lhs, ts)
    else
      var op := NextOp(ts).value;
      var r := ParsePrimary(ts[1..]);
      if r.Err? then r
      else
        var rhs := ParseRhs(r.rest, r.tree, Precedence(op));
        if rhs.Err? then rhs else ParseExpr(rhs.rest, Bin(op, lhs, rhs.tree), min)
  }

  /** The operators behind a right operand that bind more tightly than the operator in front of it. */
  function ParseRhs(ts: seq<Token>, rhs: Tree, main: nat): (p: Parsed<Tree>)
    ensures p.Ok? ==> |p.rest| <= |ts|
    decreases |ts|, 1
  {
    if !Binds(ts, main + 1) then Ok(rhs, ts)
    else
      var e := ParseExpr(ts, rhs, Precedence(NextOp(ts).value));
      if e.Err? then e else ParseRhs(e.rest, e.tree, main)
  }
}
