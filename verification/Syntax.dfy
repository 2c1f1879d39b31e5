/** Scope-resolved abstract syntax of SMPL function bodies. */
module Syntax {
  import opened Values

  datatype Literal = LString(s: string) | LInt(i: i64) | LFloat(f: FloatBits) | LBool(b: bool)

  /** What a call names: a variable holding a function, or a function known statically. */
  datatype Callee = CalleeVar(name: string) | CalleeFn(id: FnId)

  datatype CallExpr = CallExpr(callee: Callee, args: seq<Expr>)

  datatype Seg = SegField(name: string) | SegIndex(name: string, index: Expr)

  datatype Expr =
    | Lit(lit: Literal)
    | Var(name: string)
    | FnRef(id: FnId)                                  // function binding, module access, closure or instance
    | Bin(op: BinOp, num: NumType, lhs: Expr, rhs: Expr)
    | Uni(uop: UniOp, operand: Expr)
    | Call(call: CallExpr)
    | Chain(base: CallExpr, chain: seq<CallExpr>)      // base |> c0 |> c1 ...
    | StructInit(names: seq<string>, inits: seq<Expr>) // named and anonymous structs emit the same code
    | ArrayList(elems: seq<Expr>)
    | ArrayFill(elem: Expr, size: nat)
    | Indexing(arr: Expr, indexer: Expr)
    | Access(root: string, rootIndex: Option<Expr>, path: seq<Seg>)

  /** `if` / `elif` / `else`: the source keeps a non-empty list of conditional branches and an optional default. */
  datatype Arms = NoMore | Default(dflt: seq<Stmt>) | Elif(cond: Expr, body: seq<Stmt>, rest: Arms)

  datatype Stmt =
    | ExprStmt(e: Expr)
    | Local(name: string, init: Expr)
    | Assign(root: string, rootIndex: Option<Expr>, path: seq<Seg>, value: Expr)
    | Return(ret: Option<Expr>)
    | Break
    | Continue
    | While(cond: Expr, body: seq<Stmt>)
    | If(cond: Expr, body: seq<Stmt>, rest: Arms)

  /** A function: parameter names, body, whether it returns the unit type, and the first identifier
      its local-data counter hands out while the graph is built. */
  datatype FnDef = FnDef(params: seq<string>, body: seq<Stmt>, returnsUnit: bool, firstId: nat)

  /** Every `break` and `continue` sits inside a loop. */
  predicate JumpsInLoops(stmts: seq<Stmt>, inLoop: bool) {
    stmts == [] || (StmtJumpsInLoops(stmts[0], inLoop) && JumpsInLoops(stmts[1..], inLoop))
  }

  predicate StmtJumpsInLoops(s: Stmt, inLoop: bool) {
    match s
    case Break => inLoop
    case Continue => inLoop
    case While(_, body) => JumpsInLoops(body, true)
    case If(_, body, rest) => JumpsInLoops(body, inLoop) && ArmsJumpsInLoops(rest, inLoop)
    case _ => true
  }

  predicate ArmsJumpsInLoops(a: Arms, inLoop: bool) {
    match a
    case NoMore => true
    case Default(b) => JumpsInLoops(b, inLoop)
    case Elif(_, b, rest) => JumpsInLoops(b, inLoop) && ArmsJumpsInLoops(rest, inLoop)
  }

  datatype JumpError = BadBreak | BadContinue

  /** The first jump in source order that no loop encloses. */
  function FirstStray(stmts: seq<Stmt>, inLoop: bool): Option<JumpError> {
    if stmts == [] then None
    else
      var first := StmtStray(stmts[0], inLoop);
      if first.Some? then first else FirstStray(stmts[1..], inLoop)
  }

  function StmtStray(s: Stmt, inLoop: bool): Option<JumpError> {
    match s
    case Break => if inLoop then None else Some(BadBreak)
    case Continue => if inLoop then None else Some(BadContinue)
    case While(_, body) => FirstStray(body, true)
    case If(_, body, rest) =>
      var first := FirstStray(body, inLoop);
      if first.Some? then first else ArmsStray(rest, inLoop)
    case _ => None
  }

  function ArmsStray(a: Arms, inLoop: bool): Option<JumpError> {
    match a
    case NoMore => None
    case Default(b) => FirstStray(b, inLoop)
    case Elif(_, b, rest) =>
      var first := FirstStray(b, inLoop);
      if first.Some? then first else ArmsStray(rest, inLoop)
  }
}
