/** The syntax tree of FFling programs (ast.py). Every node class of the source is a constructor
    here; a node holds exactly the arguments it was built from. */
module Ast {
  import opened Results
  import opened Tokens
  import opened Dicts

  /** The value of a `Literal` node (ast.py:67-69): an integer, a string or a boolean. */
  datatype Lit = LInt(i: int) | LStr(s: string) | LBool(b: bool)

  /** Expression nodes (ast.py:58-79). A `BinOp` stores the kind of its operator token
      (ast.py:71-75); a `Table` stores its key-to-expression dictionary (ast.py:77-79). */
  datatype Expr =
    | Literal(value: Lit)
    | Variable(name: string)
    | BinOp(left: Expr, op: Kind, right: Expr)
    | Call(callee: string, args: seq<Expr>)
    | Table(pairs: seq<Entry<Expr>>)

  /** An `elif` clause (ast.py:26-29). */
  datatype Elif = Elif(condition: Expr, block: seq<Stmt>)

  /** The optional else block of an `If`: None (the default, ast.py:24) or a block. */
  datatype ElseBlock = NoElse | Else(block: seq<Stmt>)

  /** Statement nodes (ast.py:10-56, 81-83). `If.elifs` is a list, never None, and its else
      block is optional (ast.py:20-24); `Return` has an optional value (ast.py:54-56); `Break`
      and `Continue` carry nothing (ast.py:42-46). The parser also places a bare expression in
      statement position; `ExprStmt` marks it. */
  datatype Stmt =
    | Printline(args: seq<Expr>)
    | Assignment(name: string, value: Expr)
    | If(condition: Expr, thenBlock: seq<Stmt>, elifs: seq<Elif>, elseBlock: ElseBlock)
    | For(variable: string, rangeExpr: Expr, block: seq<Stmt>)
    | While(condition: Expr, block: seq<Stmt>)
    | Break
    | Continue
    | Func(name: string, params: seq<string>, block: seq<Stmt>)
    | Return(result: Option<Expr>)
    | Import(path: string)
    | ExprStmt(expr: Expr)

  /** A whole program: its statements in order (ast.py:6-8). */
  datatype Program = Program(statements: seq<Stmt>)
}
