/**
 * The syntax tree (src/main/java/Expr.java). The four node classes become
 * the four constructors of `Expr`, and `accept` becomes `match`. `Stmt`
 * holds the three statements the interpreter visits.
 */
module Syntax {
  import opened Wrappers
  import opened Values
  import opened Tokens

  datatype Expr =
    | Binary(left: Expr, operator: Token, right: Expr)
    | Grouping(expression: Expr)
    | Literal(value: Value)
    | Unary(operator: Token, right: Expr)

  /** `Stmt.Expression`, `Stmt.Print` and `Stmt.Var`; a missing initializer is `None`. */
  datatype Stmt =
    | ExpressionStmt(expression: Expr)
    | PrintStmt(expression: Expr)
    | VarStmt(name: Token, initializer: Option<Expr>)

  /** The number of nodes that are not literals: the nodes the printer parenthesizes. */
  function Interior(e: Expr): nat {
    match e
    case Binary(left, _, right) => 1 + Interior(left) + Interior(right)
    case Grouping(inner) => 1 + Interior(inner)
    case Literal(_) => 0
    case Unary(_, right) => 1 + Interior(right)
  }

  /** The operator tokens of `e`. */
  function OperatorTokens(e: Expr): set<Token> {
    match e
    case Binary(left, op, right) => {op} + OperatorTokens(left) + OperatorTokens(right)
    case Grouping(inner) => OperatorTokens(inner)
    case Literal(_) => {}
    case Unary(op, right) => {op} + OperatorTokens(right)
  }
}
