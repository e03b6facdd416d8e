/** The GLSL subset of the control-flow torture generator: expressions, statements, functions.
    An `if` without an `else` and an `if` with an empty `else` are different trees, so they are
    different constructors here. */
module TortureAst {

  datatype BinOp = Or | And | Eq | Ne | Lt | Le | Gt | Ge | Add | Sub | Mul

  datatype Expr =
    | Var(name: string)
    | Lit(value: int)
    | Bin(op: BinOp, lhs: Expr, rhs: Expr)
    | Tern(cond: Expr, thn: Expr, els: Expr)
    | Call(name: string, args: seq<Expr>)

  datatype Stmt =
    | Decl(name: string, expr: Expr)
    | Asn(name: string, expr: Expr)
    | If(cond: Expr, thn: seq<Stmt>)
    | IfElse(cond: Expr, thn: seq<Stmt>, els: seq<Stmt>)
    | For(name: string, start: int, cond: Expr, body: seq<Stmt>)
    | While(cond: Expr, body: seq<Stmt>)
    | DoWhile(body: seq<Stmt>, cond: Expr)
    | Break
    | Continue
    | Return(expr: Expr)

  datatype Param = Param(ty: string, name: string)

  datatype FuncDef = FuncDef(retType: string, name: string, params: seq<Param>, body: seq<Stmt>)
}
