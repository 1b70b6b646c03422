/** The operator catalogs the generator draws from. */
module Catalog {
  import opened Wrappers
  import opened Expression
  import opened Parens

  /** The binary symbols, in catalog order. */
  const BinaryOperators: seq<string> := ["+", "-", "*", "/"]

  /** The unary symbols with the keyword arguments each is built with, in
    * catalog order; only the two powers override the placement, and no
    * entry asks for parentheses. */
  const UnaryOperators: seq<(string, UnaryArgs)> := [
    ("^2", UnaryArgs(Some("after"), None)),
    ("^3", UnaryArgs(Some("after"), None)),
    ("log", NoArgs),
    ("exp", NoArgs),
    ("cos", NoArgs),
    ("sin", NoArgs),
    ("tan", NoArgs),
    ("arctan", NoArgs),
    ("1/", NoArgs),
    ("√", NoArgs),
    ("ReLU", NoArgs),
    ("LeakyReLU", NoArgs)
  ]

  /** The unary node catalog entry `i` builds over `child`. */
  function UnaryFromEntry(i: nat, child: Expr): Expr
    requires i < |UnaryOperators|
  {
    NewUnary(UnaryOperators[i].0, child, UnaryOperators[i].1)
  }

  /** Each entry keeps its own symbol, never sets parentheses, and is placed
    * after its body exactly for the two powers and before it otherwise. */
  lemma UnaryEntryConfig(i: nat, child: Expr)
    requires i < |UnaryOperators|
    ensures var n := UnaryFromEntry(i, child);
      && n == Unary(UnaryOperators[i].0, child, n.whenPrint, false)
      && (n.whenPrint == "after" <==> n.symbol in {"^2", "^3"})
      && (n.whenPrint != "after" ==> n.whenPrint == "before")
  {
    assert UnaryOperators[i].0 in {"^2", "^3"} <==> i < 2;
  }

  lemma UnarySymbolsParenFree(i: nat)
    requires i < |UnaryOperators|
    ensures ParenFree(UnaryOperators[i].0)
  {
  }

  lemma BinarySymbolsParenFree(i: nat)
    requires i < |BinaryOperators|
    ensures ParenFree(BinaryOperators[i])
  {
  }

  /** No symbol is listed twice in either catalog, so a drawn index is
    * recoverable from the symbol it picked. */
  lemma SymbolsDistinct()
    ensures forall i, j :: 0 <= i < j < |BinaryOperators| ==> BinaryOperators[i] != BinaryOperators[j]
    ensures forall i, j :: 0 <= i < j < |UnaryOperators| ==> UnaryOperators[i].0 != UnaryOperators[j].0
  {
  }
}
