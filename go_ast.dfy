/**
  The slice of Go's syntax tree (`go/ast`) the unused-result check looks at:
  expression statements, calls, selectors, identifiers and parentheses. Every
  other kind of expression is one opaque case: the check never looks inside it.
 */
module GoAst {

  /** `token.Pos`: an offset into the file set. */
  type Pos = nat

  /** `*ast.Ident`. */
  datatype Ident = Ident(namePos: Pos, name: string)

  /** `ast.Expr`. Positions keep two textually equal nodes apart, as node identity does in Go. */
  datatype Expr =
    | ParenExpr(lparen: Pos, x: Expr, rparen: Pos)
    | CallExpr(fun: Expr, lparen: Pos, args: seq<Expr>, rparen: Pos)
    | SelectorExpr(x: Expr, sel: Ident)
    | IdentExpr(ident: Ident)
    | OtherExpr(pos: Pos)

  /** `*ast.ExprStmt`: an expression used as a whole statement, its value discarded. */
  datatype ExprStmt = ExprStmt(x: Expr)

  /** `unparen`: strip every enclosing pair of parentheses. */
  function Unparen(e: Expr): (r: Expr)
    ensures !r.ParenExpr?
    ensures !e.ParenExpr? ==> r == e
  {
    if e.ParenExpr? then Unparen(e.x) else e
  }

  /** `e` inside `n` pairs of parentheses, each opened at `lparen` and closed at `rparen`. */
  function Parenthesize(e: Expr, n: nat, lparen: Pos, rparen: Pos): (r: Expr)
    ensures n > 0 ==> r.ParenExpr?
  {
    if n == 0 then e else ParenExpr(lparen, Parenthesize(e, n - 1, lparen, rparen), rparen)
  }

  /** However many parentheses surround an expression, unwrapping finds the same expression. */
  lemma {:induction false} UnparenParenthesize(e: Expr, n: nat, lparen: Pos, rparen: Pos)
    ensures Unparen(Parenthesize(e, n, lparen, rparen)) == Unparen(e)
  {
    if n > 0 {
      UnparenParenthesize(e, n - 1, lparen, rparen);
    }
  }

  /** Unwrapping is idempotent. */
  lemma UnparenIdempotent(e: Expr)
    ensures Unparen(Unparen(e)) == Unparen(e)
  {
  }
}
