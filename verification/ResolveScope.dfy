/** Static lexical scoping: which declaration every name means.  A resolved body comes in two readings: by name, as the
    code generator spells its variables, and by identifier, every variable spelled after the declaration it is bound to. */
module ResolveScope {
  import opened Values
  import opened Syntax

  type VarId = nat
  type Scope = map<string, VarId>
  type FnMap = map<string, FnId>

  /** `LeftUnbound`: the resolver does not look into the root index of a field access, so a name in there is never
      bound, and the type checker panics on it. */
  datatype Resolved<+T> = Fine(value: T) | UnknownBinding(name: string) | LeftUnbound {
    predicate IsFailure() { !Fine? }
    function PropagateFailure<U>(): Resolved<U>
      requires !Fine?
    {
      match this
      case UnknownBinding(x) => Resolved<U>.UnknownBinding(x)
      case LeftUnbound => Resolved<U>.LeftUnbound
    }
    function Extract(): T
      requires Fine?
    {
      value
    }
  }

  /** The two readings. */
  datatype Pair<+T> = Pair(named: T, keyed: T)

  /** A spelling for an identifier, different for each. */
  function Slot(id: VarId): (s: string)
    ensures |s| == id
  {
    seq(id, _ => '#')
  }

  predicate MentionsNames(e: Expr) {
    match e
    case Lit(_) => false
    case Var(_) => true
    case FnRef(_) => true
    case Bin(_, _, l, r) => MentionsNames(l) || MentionsNames(r)
    case Uni(_, e1) => MentionsNames(e1)
    case Call(_) => true
    case Chain(_, _) => true
    case StructInit(_, inits) => exists e1 :: e1 in inits && MentionsNames(e1)
    case ArrayList(es) => exists e1 :: e1 in es && MentionsNames(e1)
    case ArrayFill(e1, _) => MentionsNames(e1)
    case Indexing(a, i) => MentionsNames(a) || MentionsNames(i)
    case Access(_, _, _) => true
  }

  /** A variable before a function of the same name. */
  function BindingInfo(scope: Scope, fns: FnMap, x: string): Resolved<Pair<Expr>> {
    if x in scope then Fine(Pair(Var(x), Var(Slot(scope[x]))))
    else if x in fns then Fine(Pair(FnRef(fns[x]), FnRef(fns[x])))
    else UnknownBinding(x)
  }

  function BindCallee(scope: Scope, fns: FnMap, c: Callee): Resolved<Pair<Callee>> {
    match c
    case CalleeFn(_) => Fine(Pair(c, c))
    case CalleeVar(x) =>
      if x in scope then Fine(Pair(c, CalleeVar(Slot(scope[x]))))
      else if x in fns then Fine(Pair(CalleeFn(fns[x]), CalleeFn(fns[x])))
      else UnknownBinding(x)
  }

  function BindExpr(scope: Scope, fns: FnMap, e: Expr): Resolved<Pair<Expr>>
    decreases e
  {
    match e
    case Lit(_) => Fine(Pair(e, e))
    case Var(x) => BindingInfo(scope, fns, x)
    case FnRef(_) => Fine(Pair(e, e))
    case Bin(op, num, l, r) =>
      var a :- BindExpr(scope, fns, l);
      var b :- BindExpr(scope, fns, r);
      Fine(Pair(Bin(op, num, a.named, b.named), Bin(op, num, a.keyed, b.keyed)))
    case Uni(op, e1) =>
      var a :- BindExpr(scope, fns, e1);
      Fine(Pair(Uni(op, a.named), Uni(op, a.keyed)))
    case Call(c) =>
      var a :- BindCall(scope, fns, c);
      Fine(Pair(Call(a.named), Call(a.keyed)))
    case Chain(base, chain) =>
      var a :- BindCall(scope, fns, base);
      var b :- BindCalls(scope, fns, chain);
      Fine(Pair(Chain(a.named, b.named), Chain(a.keyed, b.keyed)))
    case StructInit(names, inits) =>
      var a :- BindList(scope, fns, inits);
      Fine(Pair(StructInit(names, a.named), StructInit(names, a.keyed)))
    case ArrayList(es) =>
      var a :- BindList(scope, fns, es);
      Fine(Pair(ArrayList(a.named), ArrayList(a.keyed)))
    case ArrayFill(e1, size) =>
      var a :- BindExpr(scope, fns, e1);
      Fine(Pair(ArrayFill(a.named, size), ArrayFill(a.keyed, size)))
    case Indexing(a, i) =>
      var x :- BindExpr(scope, fns, a);
      var y :- BindExpr(scope, fns, i);
      Fine(Pair(Indexing(x.named, y.named), Indexing(x.keyed, y.keyed)))
    case Access(root, rootIndex, path) =>
      var p :- BindPath(scope, fns, path);
      if root !in scope then UnknownBinding(root)
      else if rootIndex.Some? && MentionsNames(rootIndex.value) then LeftUnbound
      else Fine(Pair(Access(root, rootIndex, p.named), Access(Slot(scope[root]), rootIndex, p.keyed)))
  }

  function BindCall(scope: Scope, fns: FnMap, c: CallExpr): Resolved<Pair<CallExpr>>
    decreases c
  {
    var f :- BindCallee(scope, fns, c.callee);
    var a :- BindList(scope, fns, c.args);
    Fine(Pair(CallExpr(f.named, a.named), CallExpr(f.keyed, a.keyed)))
  }

  function BindCalls(scope: Scope, fns: FnMap, cs: seq<CallExpr>): Resolved<Pair<seq<CallExpr>>>
    decreases cs
  {
    if cs == [] then Fine(Pair([], []))
    else
      var a :- BindCall(scope, fns, cs[0]);
      var b :- BindCalls(scope, fns, cs[1..]);
      Fine(Pair([a.named] + b.named, [a.keyed] + b.keyed))
  }

  function BindList(scope: Scope, fns: FnMap, es: seq<Expr>): Resolved<Pair<seq<Expr>>>
    decreases es
  {
    if es == [] then Fine(Pair([], []))
    else
      var a :- BindExpr(scope, fns, es[0]);
      var b :- BindList(scope, fns, es[1..]);
      Fine(Pair([a.named] + b.named, [a.keyed] + b.keyed))
  }

  function BindPath(scope: Scope, fns: FnMap, path: seq<Seg>): Resolved<Pair<seq<Seg>>>
    decreases path
  {
    if path == [] then Fine(Pair([], []))
    else match path[0] {
      case SegField(_) =>
        var b :- BindPath(scope, fns, path[1..]);
        Fine(Pair([path[0]] + b.named, [path[0]] + b.keyed))
      case SegIndex(f, e) =>
        var a :- BindExpr(scope, fns, e);
        var b :- BindPath(scope, fns, path[1..]);
        Fine(Pair([SegIndex(f, a.named)] + b.named, [SegIndex(f, a.keyed)] + b.keyed))
    }
  }

  function BindIndex(scope: Scope, fns: FnMap, index: Option<Expr>): Resolved<Pair<Option<Expr>>>
    decreases index
  {
    match index
    case None => Fine(Pair(None, None))
    case Some(e) =>
      var a :- BindExpr(scope, fns, e);
      Fine(Pair(Some(a.named), Some(a.keyed)))
  }

  /** What a statement leaves behind: its readings, the scope for the statements after it, the next free identifier. */
  datatype Bound<+T> = Bound(code: Pair<T>, scope: Scope, next: VarId)

  function BindStmt(scope: Scope, fns: FnMap, s: Stmt, next: VarId): (r: Resolved<Bound<Stmt>>)
    ensures r.Fine? ==> r.value.next >= next
    decreases s
  {
    match s
    case ExprStmt(e) =>
      var a :- BindExpr(scope, fns, e);
      Fine(Bound(Pair(ExprStmt(a.named), ExprStmt(a.keyed)), scope, next))
    case Local(x, e) =>
      var a :- BindExpr(scope, fns, e);
      Fine(Bound(Pair(Local(x, a.named), Local(Slot(next), a.keyed)), scope[x := next], next + 1))
    case Assign(root, rootIndex, path, value) =>
      if root !in scope then UnknownBinding(root)
      else
        var i :- BindIndex(scope, fns, rootIndex);
        var p :- BindPath(scope, fns, path);
        var a :- BindExpr(scope, fns, value);
        var code := Pair(Assign(root, i.named, p.named, a.named), Assign(Slot(scope[root]), i.keyed, p.keyed, a.keyed));
        Fine(Bound(code, scope, next))
    case Return(None) => Fine(Bound(Pair(s, s), scope, next))
    case Return(Some(e)) =>
      var a :- BindExpr(scope, fns, e);
      Fine(Bound(Pair(Return(Some(a.named)), Return(Some(a.keyed))), scope, next))
    case Break => Fine(Bound(Pair(s, s), scope, next))
    case Continue => Fine(Bound(Pair(s, s), scope, next))
    case While(cond, body) =>
      var a :- BindExpr(scope, fns, cond);
      var b :- BindBlock(scope, fns, body, next);
      Fine(Bound(Pair(While(a.named, b.code.named), While(a.keyed, b.code.keyed)), scope, b.next))
    case If(cond, body, rest) =>
      var a :- BindExpr(scope, fns, cond);
      var b :- BindBlock(scope, fns, body, next);
      var c :- BindArms(scope, fns, rest, b.next);
      var code := Pair(If(a.named, b.code.named, c.code.named), If(a.keyed, b.code.keyed, c.code.keyed));
      Fine(Bound(code, scope, c.next))
  }

  function BindBlock(scope: Scope, fns: FnMap, stmts: seq<Stmt>, next: VarId): (r: Resolved<Bound<seq<Stmt>>>)
    ensures r.Fine? ==> r.value.next >= next
    decreases stmts
  {
    if stmts == [] then Fine(Bound(Pair([], []), scope, next))
    else
      var a :- BindStmt(scope, fns, stmts[0], next);
      var b :- BindBlock(a.scope, fns, stmts[1..], a.next);
      Fine(Bound(Pair([a.code.named] + b.code.named, [a.code.keyed] + b.code.keyed), b.scope, b.next))
  }

  lemma BindCons(scope: Scope, fns: FnMap, s: Stmt, rest: seq<Stmt>, next: VarId)
    ensures var a := BindStmt(scope, fns, s, next);
      if !a.Fine? then !BindBlock(scope, fns, [s] + rest, next).Fine?
      else
        var b := BindBlock(a.value.scope, fns, rest, a.value.next);
        if !b.Fine? then !BindBlock(scope, fns, [s] + rest, next).Fine?
        else
          var code := Pair([a.value.code.named] + b.value.code.named, [a.value.code.keyed] + b.value.code.keyed);
          BindBlock(scope, fns, [s] + rest, next) == Fine(Bound(code, b.value.scope, b.value.next))
  {
    hide BindStmt;
    assert ([s] + rest)[1..] == rest;
  }

  function BindArms(scope: Scope, fns: FnMap, arms: Arms, next: VarId): (r: Resolved<Bound<Arms>>)
    ensures r.Fine? ==> r.value.next >= next
    decreases arms
  {
    match arms
    case NoMore => Fine(Bound(Pair(NoMore, NoMore), scope, next))
    case Default(body) =>
      var b :- BindBlock(scope, fns, body, next);
      Fine(Bound(Pair(Default(b.code.named), Default(b.code.keyed)), scope, b.next))
    case Elif(cond, body, rest) =>
      var a :- BindExpr(scope, fns, cond);
      var b :- BindBlock(scope, fns, body, next);
      var c :- BindArms(scope, fns, rest, b.next);
      var code := Pair(Elif(a.named, b.code.named, c.code.named), Elif(a.keyed, b.code.keyed, c.code.keyed));
      Fine(Bound(code, scope, c.next))
  }

  /** Parameters are bound from left to right; a repeated name means its last parameter. */
  function ParamScope(scope: Scope, params: seq<string>, next: VarId): Scope
    decreases params
  {
    if params == [] then scope else ParamScope(scope[params[0] := next], params[1..], next + 1)
  }

  function Slots(n: nat, next: VarId): (ss: seq<string>)
    ensures |ss| == n
    decreases n
  {
    if n == 0 then [] else [Slot(next)] + Slots(n - 1, next + 1)
  }

  function BindFn(fns: FnMap, d: FnDef): Resolved<Pair<FnDef>> {
    var b :- BindBlock(ParamScope(map[], d.params, 0), fns, d.body, |d.params|);
    Fine(Pair(d.(body := b.code.named), d.(params := Slots(|d.params|, 0), body := b.code.keyed)))
  }

  // ---------------------------------------------------------------- the resolver as it is written

  /** A stack of scopes, forked at the start of a block and popped at its end. */
  class ScopeResolver {
    var scopes: seq<Scope>
    var nextVar: VarId
    const fns: FnMap

    constructor (fns: FnMap, scope: Scope, next: VarId)
      ensures Valid() && scopes == [scope] && nextVar == next && this.fns == fns
    {
      this.fns, scopes, nextVar := fns, [scope], next;
    }

    ghost predicate Valid()
      reads this
    {
      scopes != []
    }

    function Current(): Scope
      reads this
      requires Valid()
    {
      scopes[|scopes| - 1]
    }

    method ForkCurrent()
      requires Valid()
      modifies `scopes
      ensures Valid() && scopes == old(scopes) + [old(Current())]
    {
      scopes := scopes + [Current()];
    }

    method PopCurrent()
      requires |scopes| > 1
      modifies `scopes
      ensures Valid() && scopes == old(scopes[..|scopes| - 1])
    {
      scopes := scopes[..|scopes| - 1];
    }

    /** The scopes below the current one stay as they are, and the current one becomes `scope`. */
    twostate predicate Moved(scope: Scope, next: VarId)
      requires old(Valid())
      reads this
    {
      scopes == old(scopes[..|scopes| - 1]) + [scope] && nextVar == next
    }

    method LocalVarDecl(x: string, init: Expr) returns (r: Resolved<Pair<Stmt>>)
      requires Valid()
      modifies this
      ensures var b := BindStmt(old(Current()), fns, Local(x, init), old(nextVar));
        if b.Fine? then r == Fine(b.value.code) && Moved(b.value.scope, b.value.next) else Failed(r, b)
    {
      var e := BindExpr(Current(), fns, init);
      if e.IsFailure() {
        return e.PropagateFailure();
      }
      r := Fine(Pair(Local(x, e.value.named), Local(Slot(nextVar), e.value.keyed)));
      scopes := scopes[..|scopes| - 1] + [Current()[x := nextVar]];
      nextVar := nextVar + 1;
    }

    method ScopedBlock(stmts: seq<Stmt>) returns (r: Resolved<Pair<seq<Stmt>>>)
      requires Valid()
      modifies this
      ensures var b := BindBlock(old(Current()), fns, stmts, old(nextVar));
        if b.Fine? then r == Fine(b.value.code) && Moved(old(Current()), b.value.next) else Failed(r, b)
      decreases stmts, 1
    {
      hide BindBlock;
      ForkCurrent();
      r := Statements(stmts);
      if r.Fine? {
        PopCurrent();
      }
    }

    method Statements(stmts: seq<Stmt>) returns (r: Resolved<Pair<seq<Stmt>>>)
      requires Valid()
      modifies this
      ensures var b := BindBlock(old(Current()), fns, stmts, old(nextVar));
        if b.Fine? then r == Fine(b.value.code) && Moved(b.value.scope, b.value.next) else Failed(r, b)
      decreases stmts, 0
    {
      hide BindStmt;
      if stmts == [] {
        return Fine(Pair([], []));
      }
      var a := Statement(stmts[0]);
      if a.IsFailure() {
        return a.PropagateFailure();
      }
      var b := Statements(stmts[1..]);
      if b.IsFailure() {
        return b;
      }
      r := Fine(Pair([a.value.named] + b.value.named, [a.value.keyed] + b.value.keyed));
    }

    method Statement(s: Stmt) returns (r: Resolved<Pair<Stmt>>)
      requires Valid()
      modifies this
      ensures var b := BindStmt(old(Current()), fns, s, old(nextVar));
        if b.Fine? then r == Fine(b.value.code) && Moved(b.value.scope, b.value.next) else Failed(r, b)
      decreases s, 0
    {
      hide BindBlock, BindArms, BindExpr, BindPath;
      match s {
        case Local(x, e) => r := LocalVarDecl(x, e);
        case While(cond, body) =>
          var c := BindExpr(Current(), fns, cond);
          if c.IsFailure() {
            return c.PropagateFailure();
          }
          var b := ScopedBlock(body);
          if b.IsFailure() {
            return b.PropagateFailure();
          }
          r := Fine(Pair(While(c.value.named, b.value.named), While(c.value.keyed, b.value.keyed)));
        case If(cond, body, rest) =>
          var c := BindExpr(Current(), fns, cond);
          if c.IsFailure() {
            return c.PropagateFailure();
          }
          var b := ScopedBlock(body);
          if b.IsFailure() {
            return b.PropagateFailure();
          }
          var a := FalsePath(rest);
          if a.IsFailure() {
            return a.PropagateFailure();
          }
          r := Fine(Pair(If(c.value.named, b.value.named, a.value.named), If(c.value.keyed, b.value.keyed, a.value.keyed)));
        case Break => r := Fine(Pair(s, s));
        case Continue => r := Fine(Pair(s, s));
        case ExprStmt(_) => r := SimpleStatement(s);
        case Assign(_, _, _, _) => r := SimpleStatement(s);
        case Return(_) => r := SimpleStatement(s);
      }
    }

    /** A statement that opens no block and declares nothing: its expressions are bound in place. */
    method SimpleStatement(s: Stmt) returns (r: Resolved<Pair<Stmt>>)
      requires Valid() && (s.ExprStmt? || s.Assign? || s.Return?)
      ensures var b := BindStmt(Current(), fns, s, nextVar);
        if b.Fine? then r == Fine(b.value.code) && b.value.scope == Current() && b.value.next == nextVar else Failed(r, b)
    {
      var b := BindStmt(Current(), fns, s, nextVar);
      r := if b.IsFailure() then b.PropagateFailure() else Fine(b.value.code);
    }

    method FalsePath(arms: Arms) returns (r: Resolved<Pair<Arms>>)
      requires Valid()
      modifies this
      ensures var b := BindArms(old(Current()), fns, arms, old(nextVar));
        if b.Fine? then r == Fine(b.value.code) && Moved(old(Current()), b.value.next) else Failed(r, b)
      decreases arms, 0
    {
      hide BindBlock, BindStmt, BindExpr;
      match arms {
        case NoMore => r := Fine(Pair(NoMore, NoMore));
        case Default(body) =>
          var b := ScopedBlock(body);
          r := if b.IsFailure() then b.PropagateFailure() else Fine(Pair(Default(b.value.named), Default(b.value.keyed)));
        case Elif(cond, body, rest) =>
          var c := BindExpr(Current(), fns, cond);
          if c.IsFailure() {
            return c.PropagateFailure();
          }
          var b := ScopedBlock(body);
          if b.IsFailure() {
            return b.PropagateFailure();
          }
          var a := FalsePath(rest);
          if a.IsFailure() {
            return a.PropagateFailure();
          }
          r := Fine(Pair(Elif(c.value.named, b.value.named, a.value.named), Elif(c.value.keyed, b.value.keyed, a.value.keyed)));
      }
    }
  }

  /** Two failures are the same one. */
  predicate Failed<S, T>(r: Resolved<S>, b: Resolved<T>) {
    match b
    case Fine(_) => false
    case UnknownBinding(x) => r.UnknownBinding? && r.name == x
    case LeftUnbound => r.LeftUnbound?
  }

  method ResolveFn(fns: FnMap, d: FnDef) returns (r: Resolved<Pair<FnDef>>)
    ensures r == BindFn(fns, d)
  {
    hide BindBlock, ParamScope;
    var resolver := new ScopeResolver(fns, ParamScope(map[], d.params, 0), |d.params|);
    var b := resolver.Statements(d.body);
    r := if b.IsFailure() then b.PropagateFailure()
         else Fine(Pair(d.(body := b.value.named), d.(params := Slots(|d.params|, 0), body := b.value.keyed)));
  }
}
