/** The syntax tree that cilly_parser (work2.py:194-443) builds out of Python lists. */
module Ast {
  import opened Wrappers
  import opened Tokens

  datatype Expr =
    | Atom(v: Value)                          // an identifier's name, a number or a string: the bare payload
    | Keyword(tok: Token)                     // true or false, kept as the whole token
    | Binary(op: Token, left: Expr, right: Expr)
    | Unary(op: Token, operand: Expr)         // prefix '-' or '!', headed by the matched token
    | BangLiteral(v: Value)                   // a number literal directly followed by '!'
    | Call(callee: Value, args: seq<Expr>)    // function_call

  /** One name of a var statement with its optional initializer. */
  datatype VarEntry = VarEntry(name: Value, init: Option<Expr>)

  datatype Stmt =
    | Return(result: Option<Expr>)
    | FunDef(name: Value, params: seq<Value>, body: Stmt)
    | If(cond: Expr, thenBranch: Stmt, marker: string, elseBranch: Option<Stmt>)
    | While(cond: Expr, body: Stmt)
    | Print(args: seq<Expr>)
    | Var(entries: seq<VarEntry>)
    | Assign(target: Value, value: Expr)
    | FuncUse(expr: Expr)
    | Block(stmts: seq<Stmt>)

  datatype Program = Program(stmts: seq<Stmt>)
}
