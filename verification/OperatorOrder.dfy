/** Which operator takes its operand first, said by classes of operators and without numbers. */
module OperatorOrder {
  import opened Values
  import opened ExprParser
  import opened PrecedenceClimbing
  import opened ExprPrinting

  /** The classes, from the one that binds its operands most tightly to the one that does so least. */
  datatype Class = Multiplicative | Additive | Ordering | Equality | Connective

  const MULTIPLICATIVE: set<(Token, BinOp)> := {(Star, Arith(Mul)), (Slash, Arith(Div)), (Percent, Arith(Mod))}
  const ADDITIVE: set<(Token, BinOp)> := {(Plus, Arith(Add)), (Minus, Arith(Sub))}
  const ORDERING: set<(Token, BinOp)> :=
    {(Gte, Compare(GreaterEq)), (Gt, Compare(Greater)), (Lte, Compare(LesserEq)), (Lt, Compare(Lesser))}
  const EQUALITY: set<(Token, BinOp)> := {(EqEq, BinOp.Eq), (NotEq, InEq)}
  const CONNECTIVE: set<(Token, BinOp)> := {(LAnd, LogicalAnd), (LOr, LogicalOr)}

  /** A token, the operator it stands for, and its class. */
  predicate Writes(t: Token, op: BinOp, c: Class) {
    match c
    case Multiplicative => (t, op) in MULTIPLICATIVE
    case Additive => (t, op) in ADDITIVE
    case Ordering => (t, op) in ORDERING
    case Equality => (t, op) in EQUALITY
    case Connective => (t, op) in CONNECTIVE
  }

  predicate Tighter(c: Class, d: Class) {
    match c
    case Multiplicative => !d.Multiplicative?
    case Additive => d.Ordering? || d.Equality? || d.Connective?
    case Ordering => d.Equality? || d.Connective?
    case Equality => d.Connective?
    case Connective => false
  }

  /** The tree of `x p y q z`: the second operator comes first when it is of a tighter class, otherwise the first does. */
  function Grouped(x: Tree, p: BinOp, c: Class, y: Tree, q: BinOp, d: Class, z: Tree): Tree {
    if Tighter(d, c) then Bin(p, x, Bin(q, y, z)) else Bin(q, Bin(p, x, y), z)
  }

  function ClassOf(op: BinOp): Class {
    match op
    case Arith(a) => if a.Add? || a.Sub? then Additive else Multiplicative
    case Compare(_) => Ordering
    case Eq => Equality
    case InEq => Equality
    case LogicalAnd => Connective
    case LogicalOr => Connective
  }

  /** Every operator is written by a token, and that token and its class are the only ones. */
  lemma EveryOperator(op: BinOp)
    ensures Writes(OpToken(op), op, ClassOf(op))
  {
  }

  lemma OneClass(t: Token, op: BinOp, c: Class)
    requires Writes(t, op, c)
    ensures t == OpToken(op) && c == ClassOf(op)
  {
  }

  lemma ClassesOrder(s: Token, p: BinOp, c: Class, t: Token, q: BinOp, d: Class)
    requires Writes(s, p, c) && Writes(t, q, d)
    ensures s == OpToken(p) && t == OpToken(q) && (Tighter(d, c) <==> Precedence(q) > Precedence(p))
    ensures Precedence(p) < TIGHT && Precedence(q) < TIGHT
  {
    hide Writes;
    OneClass(s, p, c);
    OneClass(t, q, d);
  }

  /** And no other token is one: the parser takes exactly these for operators. */
  lemma EveryToken(t: Token, op: BinOp)
    ensures GetOp(t) == Some(op) <==> exists c :: Writes(t, op, c)
  {
    if GetOp(t) == Some(op) {
      OpOfToken(t);
      EveryOperator(op);
    }
    if c :| Writes(t, op, c) {
      ClassesOrder(t, op, c, t, op, c);
    }
  }

  lemma TwoYield(x: Tree, p: BinOp, y: Tree, q: BinOp, z: Tree, rest: seq<Token>)
    ensures FlatYield([(p, y), (q, z)]) == [OpToken(p)] + Yield(y) + ([OpToken(q)] + Yield(z))
    ensures Yield(x) + FlatYield([(p, y), (q, z)]) + rest == Yield(x) + [OpToken(p)] + Yield(y) + [OpToken(q)] + Yield(z) + rest
  {
    hide Yield, OpToken;
    var ops := [(p, y), (q, z)];
    assert ops[1..] == [(q, z)] && ops[1..][1..] == [];
    assert FlatYield(ops[1..]) == [OpToken(q)] + Yield(z) + FlatYield([]);
    assert [OpToken(q)] + Yield(z) + [] == [OpToken(q)] + Yield(z);
    assert FlatYield(ops) == [OpToken(p)] + Yield(y) + ([OpToken(q)] + Yield(z));
    Spliced(Yield(x), [OpToken(p)], Yield(y), [OpToken(q)], Yield(z), rest);
  }

  lemma Spliced<T>(a: seq<T>, b: seq<T>, c: seq<T>, d: seq<T>, e: seq<T>, f: seq<T>)
    ensures a + (b + c + (d + e)) + f == a + b + c + d + e + f
  {
  }

  lemma NodeSpread(op: BinOp, l: Tree, r: Tree)
    ensures First(Bin(op, l, r)) == First(l) && Spread(Bin(op, l, r)) == Spread(l) + [(op, First(r))] + Spread(r)
  {
  }

  lemma GroupedReads(x: Tree, p: BinOp, c: Class, y: Tree, q: BinOp, d: Class, z: Tree)
    requires Operand(x) && Operand(y) && Operand(z)
    requires (Tighter(d, c) <==> Precedence(q) > Precedence(p)) && Precedence(p) < TIGHT && Precedence(q) < TIGHT
    ensures Reads(Grouped(x, p, c, y, q, d, z), x, [(p, y), (q, z)])
  {
    hide Tighter, Precedence, Spread, First;
    PrimarySpread(x);
    PrimarySpread(y);
    PrimarySpread(z);
    var none: seq<(BinOp, Tree)> := [];
    var t := Grouped(x, p, c, y, q, d, z);
    assert none + [(p, y)] + (none + [(q, z)] + none) == [(p, y), (q, z)];
    assert none + [(p, y)] + none + [(q, z)] + none == [(p, y), (q, z)];
    if Tighter(d, c) {
      NodeSpread(q, y, z);
      NodeSpread(p, x, Bin(q, y, z));
      assert First(t) == x && Spread(t) == [(p, y), (q, z)];
      assert Canonical(Bin(q, y, z)) && Root(Bin(q, y, z)) == Precedence(q);
    } else {
      NodeSpread(p, x, y);
      NodeSpread(q, Bin(p, x, y), z);
      assert First(t) == x && Spread(t) == [(p, y), (q, z)];
      assert Canonical(Bin(p, x, y)) && Root(Bin(p, x, y)) == Precedence(p);
    }
    assert Canonical(t);
  }

  lemma PrimarySpread(t: Tree)
    requires IsPrimary(t)
    ensures First(t) == t && Spread(t) == []
  {
  }

  /** For any three operands and two operators, as tokens: which operator is applied first is decided by their classes, and
      within a class it is the first. */
  lemma TwoOperators(x: Tree, s: Token, p: BinOp, c: Class, y: Tree, t: Token, q: BinOp, d: Class, z: Tree, rest: seq<Token>)
    requires Operand(x) && Operand(y) && Operand(z) && Ends(z, rest)
    requires Writes(s, p, c) && Writes(t, q, d)
    ensures ParseElement(Yield(x) + [s] + Yield(y) + [t] + Yield(z) + rest) == Ok(Grouped(x, p, c, y, q, d, z), rest)
  {
    hide Yield, FollowOk, ParseElement, Writes, Tighter, Precedence;
    ClassesOrder(s, p, c, t, q, d);
    var ops := [(p, y), (q, z)];
    TwoYield(x, p, y, q, z, rest);
    ClimbingIsCanonical(x, ops, rest);
    GroupedReads(x, p, c, y, q, d, z);
  }

  // ---------------------------------------------------------------- as few parentheses as possible

  /** The groups in a tree: every one is a pair of parentheses that is not part of a call. */
  function Groups(t: Tree): nat {
    match t
    case Lit(_) => 0
    case Name(_) => 0
    case Prefix(_, e) => Groups(e)
    case Group(e) => 1 + Groups(e)
    case Bin(_, l, r) => Groups(l) + Groups(r)
    case Call(_, args) => ArgGroups(args)
    case Index(_, e) => Groups(e)
    case Chain(b, ss) => Groups(b) + AllGroups(ss)
  }

  function ArgGroups(args: Arguments): nat {
    match args
    case NoArgs => 0
    case Argument(t, _, more) => Groups(t) + ArgGroups(more)
  }

  function AllGroups(ts: seq<Tree>): nat {
    if ts == [] then 0 else Groups(ts[0]) + AllGroups(ts[1..])
  }

  /** An operator or a pipe inside an operand that has to be primary costs a group of its own. */
  lemma {:induction false} PrimaryCosts(t: Tree)
    requires Canonical(t) && IsPrimary(t) && (Erase(t).BinAst? || Erase(t).ChainAst?)
    ensures Groups(t) > Groups(Dress(Erase(t)))
    decreases t, 0
  {
    if t.Prefix? {
      PrimaryCosts(t.operand);
    } else {
      FewestGroups(t.inner);
    }
  }

  /** No other way to write an expression needs fewer parentheses than the one that puts them by precedence. */
  lemma {:induction false} FewestGroups(t: Tree)
    requires Canonical(t)
    ensures Groups(Dress(Erase(t))) <= Groups(t)
    decreases t, 2
  {
    hide Precedence;
    match t {
      case Lit(_) =>
      case Name(_) =>
      case Prefix(s, e) =>
        FewestGroups(e);
        if !s.Plus? {
          OperandGroups(e, !IsPrimary(Dress(Erase(e))));
        }
      case Group(e) => FewestGroups(e);
      case Bin(op, l, r) =>
        FewestGroups(l);
        FewestGroups(r);
        var e, f := Erase(l), Erase(r);
        OperandShape(l);
        OperandShape(r);
        OperandGroups(l, e.ChainAst? || Root(Dress(e)) < Precedence(op));
        OperandGroups(r, f.ChainAst? || Root(Dress(f)) <= Precedence(op));
      case Call(_, args) => FewestArgs(args);
      case Index(_, e) => FewestGroups(e);
      case Chain(b, ss) =>
        FewestGroups(b);
        FewestStages(ss);
    }
  }

  /** Where an operand is wrapped, its tree is a primary that hides an operator or a pipe. */
  lemma {:induction false} OperandGroups(t: Tree, wrap: bool)
    requires Canonical(t) && Groups(Dress(Erase(t))) <= Groups(t)
    requires wrap ==> IsPrimary(t) && (Erase(t).BinAst? || Erase(t).ChainAst?)
    ensures Groups(Wrapped(Dress(Erase(t)), wrap)) <= Groups(t)
    decreases t, 1
  {
    if wrap {
      PrimaryCosts(t);
    }
  }

  /** A tree of operators is dressed as one with the same operator at its root. */
  lemma OperandShape(t: Tree)
    requires Canonical(t)
    ensures Dress(Erase(t)).Bin? <==> Erase(t).BinAst?
    ensures Erase(t).BinAst? ==> Dress(Erase(t)).op == Erase(t).op
    ensures t.Bin? ==> Root(Dress(Erase(t))) == Root(t)
    ensures !Erase(t).BinAst? && !Erase(t).ChainAst? ==> Root(Dress(Erase(t))) == TIGHT && IsPrimary(Dress(Erase(t)))
    ensures !Dress(Erase(t)).Bin? ==> Root(Dress(Erase(t))) == TIGHT
  {
    hide Precedence;
  }

  lemma {:induction false} FewestArgs(args: Arguments)
    requires CanonicalArgs(args)
    ensures ArgGroups(DressArgs(EraseArgs(args))) <= ArgGroups(args)
    decreases args
  {
    if args.Argument? {
      FewestGroups(args.tree);
      FewestArgs(args.more);
      assert ([Erase(args.tree)] + EraseArgs(args.more))[1..] == EraseArgs(args.more);
    }
  }

  lemma {:induction false} FewestStages(ss: seq<Tree>)
    requires CanonicalStages(ss)
    ensures AllGroups(DressAll(EraseAll(ss))) <= AllGroups(ss)
    decreases ss
  {
    if ss != [] {
      FewestGroups(ss[0]);
      FewestStages(ss[1..]);
      assert ([Erase(ss[0])] + EraseAll(ss[1..]))[1..] == EraseAll(ss[1..]);
      assert DressAll(EraseAll(ss))[1..] == DressAll(EraseAll(ss[1..]));
    }
  }
}
