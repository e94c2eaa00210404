/**
  The argument expressions the rules look at, abstracted to what their
  decisions read. Parsing, constant folding and the search for a variable's
  assignments happen before the rules run; their results appear here as
  fields: whether a concatenation folds to a constant, the initializer and
  the reassignments of the variable an identifier names, the text of a string
  literal with its quotes already removed.
*/
module JavaExpressions {
  import opened Wrappers
  import opened Criteria
  import opened Matchers

  const STRING_TYPE := "java.lang.String"

  datatype Expr =
    /** A string literal; `text` is the literal with its surrounding quotes removed. */
    | StringLiteral(text: string)
    | NullLiteral
    /**
      An identifier naming a variable: the expression the variable was
      declared with, if any, and the assignment expressions that later
      reassign it. Each reassignment is the whole assignment, not its
      right-hand side: `q += e` is a `PlusAssignment`, and `q = e` or any
      other compound assignment is an `OtherExpr`.
    */
    | Identifier(name: string, initializer: Option<Expr>, reassignments: seq<Expr>)
    /** `a + b`; `constant` says whether it folds to a compile-time constant. */
    | Plus(constant: bool)
    /** `x += e`; `rhsConstant` says whether `e` folds to a compile-time constant. */
    | PlusAssignment(rhsConstant: bool)
    /** `q.name`, with the static type of the qualifier `q`. */
    | MemberSelect(qualifierType: JType, identifier: string)
    | OtherExpr

  /** An argument of a call: its static type and its expression. */
  datatype Arg = Arg(ty: JType, expr: Expr)

  /** A visited tree with the arguments it carries (none for a tree that is not a call). */
  datatype Call = Call(node: Node, args: seq<Arg>)

  /** The arguments of a method invocation or a `new` expression; any other tree offers none. */
  function Arguments(c: Call): seq<Arg>
  {
    if c.node.Invocation? || c.node.NewClass? then c.args else []
  }
}
