/**
 * The expression tree of the formula generator: a leaf is a variable name,
 * an inner node is a unary or a binary operator, and every node renders
 * itself as infix text.
 */
module Expression {
  import opened Wrappers

  /** A node of the formula. A leaf is the bare variable-name string the
    * generator uses as a child; the two operator kinds are a closed choice,
    * so there is no way to build a node of any other kind. */
  datatype Expr =
    | Leaf(name: string)
    | Unary(symbol: string, child: Expr, whenPrint: string, parentheses: bool)
    | Binary(symbol: string, left: Expr, right: Expr)

  /** The keyword arguments a unary node may be given; an omitted one is `None`. */
  datatype UnaryArgs = UnaryArgs(whenPrint: Option<string>, parentheses: Option<bool>)

  /** No keyword arguments at all. */
  const NoArgs := UnaryArgs(None, None)

  /** The only way constructing a node can fail. */
  datatype ArityError = InvalidArity(found: nat)

  /** The two placements that make a unary symbol visible. */
  predicate Printed(whenPrint: string) {
    whenPrint == "before" || whenPrint == "after"
  }

  /** Builds a unary node; omitted keyword arguments take their defaults,
    * placement "before" and no parentheses. */
  function NewUnary(symbol: string, child: Expr, args: UnaryArgs): (r: Expr)
    ensures r.Unary? && r.symbol == symbol && r.child == child
    ensures r.whenPrint == (if args.whenPrint.Some? then args.whenPrint.value else "before")
    ensures r.parentheses == (args.parentheses.Some? && args.parentheses.value)
  {
    Unary(symbol, child, args.whenPrint.GetOr("before"), args.parentheses.GetOr(false))
  }

  /** Builds a binary node from a list of children, which must hold exactly two. */
  function NewBinary(symbol: string, children: seq<Expr>): (r: Result<Expr, ArityError>)
    ensures r.Ok? <==> |children| == 2
    ensures r.Ok? ==> r.value == Binary(symbol, children[0], children[1])
    ensures r.Err? ==> r.error == InvalidArity(|children|)
  {
    if |children| == 2 then Ok(Binary(symbol, children[0], children[1]))
    else Err(InvalidArity(|children|))
  }

  /** The text of a unary node without its symbol: the child's rendering,
    * wrapped in parentheses when the node asks for them. */
  function Body(child: Expr, parentheses: bool): string
    decreases child, 1
  {
    if parentheses then "(" + Render(child) + ")" else Render(child)
  }

  /** The infix rendering of a node. */
  function Render(e: Expr): string
    decreases e, 0
  {
    match e
    case Leaf(name) => name
    case Unary(symbol, child, whenPrint, parentheses) =>
      (if whenPrint == "before" then symbol else "")
      + Body(child, parentheses)
      + (if whenPrint == "after" then symbol else "")
    case Binary(symbol, left, right) =>
      "(" + Render(left) + " " + symbol + " " + Render(right) + ")"
  }

  /** The leaf names from left to right. */
  function Leaves(e: Expr): seq<string> {
    match e
    case Leaf(name) => [name]
    case Unary(_, child, _, _) => Leaves(child)
    case Binary(_, left, right) => Leaves(left) + Leaves(right)
  }

  /** Where a unary symbol goes: before the body, after it, or nowhere. */
  lemma UnaryPlacement(symbol: string, child: Expr, whenPrint: string, parentheses: bool)
    ensures whenPrint == "before" ==> Render(Unary(symbol, child, whenPrint, parentheses)) == symbol + Body(child, parentheses)
    ensures whenPrint == "after" ==> Render(Unary(symbol, child, whenPrint, parentheses)) == Body(child, parentheses) + symbol
    ensures !Printed(whenPrint) ==> Render(Unary(symbol, child, whenPrint, parentheses)) == Body(child, parentheses)
    ensures Body(child, true) == "(" + Render(child) + ")" && Body(child, false) == Render(child)
  {
  }

  /** The symbol of a unary node shows in its rendering exactly when the
    * placement is "before" or "after": two nodes that differ only in their
    * symbols render alike if and only if the placement hides the symbol. */
  lemma SymbolVisibleIffPlaced(s1: string, s2: string, child: Expr, whenPrint: string, parentheses: bool)
    requires s1 != s2
    ensures Render(Unary(s1, child, whenPrint, parentheses)) == Render(Unary(s2, child, whenPrint, parentheses))
            <==> !Printed(whenPrint)
  {
    var b := Body(child, parentheses);
    if whenPrint == "before" {
      var r1, r2 := s1 + b, s2 + b;
      assert Render(Unary(s1, child, whenPrint, parentheses)) == r1;
      assert Render(Unary(s2, child, whenPrint, parentheses)) == r2;
      assert r1[..|s1|] == s1 && r2[..|s2|] == s2;
    } else if whenPrint == "after" {
      var r1, r2 := b + s1, b + s2;
      assert Render(Unary(s1, child, whenPrint, parentheses)) == r1;
      assert Render(Unary(s2, child, whenPrint, parentheses)) == r2;
      assert r1[|b|..] == s1 && r2[|b|..] == s2;
    }
  }
}
