/**
 * The fragment of Go's syntax tree (package go/ast) that the assigncheck
 * analyzer inspects: assignment statements, increment/decrement statements,
 * and every other node, each with the nodes nested below it.
 */
module GoAst {

  /** The compound assignment operators of Go, from `+=` to `&^=`. */
  datatype CompoundOp =
    | AddAssign | SubAssign | MulAssign | QuoAssign | RemAssign
    | AndAssign | OrAssign | XorAssign | ShlAssign | ShrAssign | AndNotAssign

  /** The token of an assignment statement: `:=`, `=` or a compound operator. */
  datatype AssignTok = Define | Assign | Compound(op: CompoundOp)

  /** The token of an increment/decrement statement: `++` or `--`. */
  datatype IncDecTok = Inc | Dec

  /**
   * Expressions, as far as the analyzer distinguishes them. `TypeAssert` is
   * `x.(T)`; `Paren` is `(x)`; `OtherExpr` is any other expression (a call,
   * a literal, a function literal, an index or selector expression), carried
   * as the text the printer renders for it.
   */
  datatype Expr =
    | Ident(name: string)
    | TypeAssert(x: Expr, typ: string)
    | Paren(inner: Expr)
    | OtherExpr(text: string)

  /**
   * A right-hand side as the parser builds it: never empty, so the analyzer's
   * look at its first expression always has something to look at.
   */
  type NonEmptyExprs = s: seq<Expr> | |s| >= 1 witness [OtherExpr("")]

  /**
   * A syntax-tree node. `pos` plays the role of token.Pos. `children` are the
   * nodes below this one, in source order: the statements of a block, the
   * clauses of a `for` header, the statements inside a function literal on
   * either side of an assignment, and so on.
   */
  datatype Node =
    | AssignStmt(tok: AssignTok, lhs: seq<Expr>, rhs: NonEmptyExprs, pos: int, children: seq<Node>)
    | IncDecStmt(x: Expr, incDec: IncDecTok, pos: int, children: seq<Node>)
    | OtherNode(pos: int, children: seq<Node>)

  /** The nodes of a tree in the order ast.Inspect visits them: a node, then its children left to right. */
  function PreOrder(t: Node): (ns: seq<Node>)
    ensures |ns| >= 1 && ns[0] == t
  {
    [t] + PreOrderForest(t.children)
  }

  function PreOrderForest(ts: seq<Node>): (ns: seq<Node>)
    ensures |ts| == 0 <==> |ns| == 0
  {
    if |ts| == 0 then [] else PreOrder(ts[0]) + PreOrderForest(ts[1..])
  }
}
