/** Properties of renderings: balanced parentheses when no leaf name and no
  * visible symbol holds a parenthesis, the exact text of every binary node,
  * and the leaves in left-to-right order. */
module Wellformed {
  import opened Expression
  import opened Parens

  /** No leaf name and no visible symbol contains a parenthesis, so that
    * every parenthesis in the rendering was put there by a node. */
  predicate ParenFreeTree(e: Expr) {
    match e
    case Leaf(name) => ParenFree(name)
    case Unary(symbol, child, whenPrint, _) =>
      (Printed(whenPrint) ==> ParenFree(symbol)) && ParenFreeTree(child)
    case Binary(symbol, left, right) =>
      ParenFree(symbol) && ParenFreeTree(left) && ParenFreeTree(right)
  }

  /** The text between the parentheses of a binary node. */
  function Inner(symbol: string, left: Expr, right: Expr): string {
    Render(left) + " " + symbol + " " + Render(right)
  }

  lemma BinaryIsWrappedInner(symbol: string, left: Expr, right: Expr)
    ensures Render(Binary(symbol, left, right)) == "(" + Inner(symbol, left, right) + ")"
  {
  }

  /** Every node opens exactly as many parentheses as it closes, and never
    * closes one it has not opened. */
  lemma {:induction false} RenderBalanced(e: Expr)
    requires ParenFreeTree(e)
    ensures Balanced(Render(e))
  {
    match e
    case Leaf(name) =>
      ParenFreeBalanced(name);
    case Unary(symbol, child, whenPrint, parentheses) =>
      RenderBalanced(child);
      if parentheses {
        Wrapped(Render(child));
      }
      var pre := if whenPrint == "before" then symbol else "";
      var post := if whenPrint == "after" then symbol else "";
      ParenFreeBalanced(pre);
      ParenFreeBalanced(post);
      BalancedConcat(pre, Body(child, parentheses));
      BalancedConcat(pre + Body(child, parentheses), post);
    case Binary(symbol, left, right) =>
      RenderBalanced(left);
      RenderBalanced(right);
      InnerBalanced(symbol, left, right);
      Wrapped(Inner(symbol, left, right));
      BinaryIsWrappedInner(symbol, left, right);
  }

  /** The text between a binary node's parentheses is balanced when both
    * children's renderings are. */
  lemma InnerBalanced(symbol: string, left: Expr, right: Expr)
    requires ParenFree(symbol) && Balanced(Render(left)) && Balanced(Render(right))
    ensures Balanced(Inner(symbol, left, right))
  {
    ParenFreeBalanced(" " + symbol + " ");
    BalancedConcat(Render(left), " " + symbol + " ");
    assert Render(left) + " " + symbol + " " == Render(left) + (" " + symbol + " ");
    BalancedConcat(Render(left) + " " + symbol + " ", Render(right));
  }

  /** Every binary node, whatever its symbol and children, renders as its
    * children with the symbol between them, one space on each side, inside
    * one pair of parentheses. */
  lemma BinaryRendering(symbol: string, left: Expr, right: Expr)
    ensures var t := Render(Binary(symbol, left, right));
      t == "(" + Render(left) + " " + symbol + " " + Render(right) + ")"
      && |t| >= 4 && t[0] == '(' && t[|t| - 1] == ')'
  {
    BinaryIsWrappedInner(symbol, left, right);
  }

  /** For a symbol without parentheses over balanced children, the opening
    * parenthesis of a binary node closes only at its last character: the
    * rendering is balanced and every non-empty proper prefix is still
    * inside the outer pair. */
  lemma BinaryFullyParenthesised(symbol: string, left: Expr, right: Expr)
    requires ParenFree(symbol) && Balanced(Render(left)) && Balanced(Render(right))
    ensures var t := Render(Binary(symbol, left, right));
      Balanced(t) && forall k :: 1 <= k < |t| ==> Excess(t[..k]) >= 1
  {
    BinaryIsWrappedInner(symbol, left, right);
    InnerBalanced(symbol, left, right);
    Wrapped(Inner(symbol, left, right));
  }

  /** `names` interleaved with `seps`: seps[0] + names[0] + seps[1] + ... + seps[|names|]. */
  function Weave(names: seq<string>, seps: seq<string>): string
    requires |seps| == |names| + 1
  {
    if names == [] then seps[0] else seps[0] + names[0] + Weave(names[1..], seps[1..])
  }

  /** Joins two separator lists, fusing the last separator of the first with
    * the first separator of the second. */
  function Glue(s1: seq<string>, s2: seq<string>): (r: seq<string>)
    requires |s1| >= 1 && |s2| >= 1
    ensures |r| == |s1| + |s2| - 1
  {
    s1[..|s1| - 1] + [s1[|s1| - 1] + s2[0]] + s2[1..]
  }

  lemma {:induction false} WeaveGlue(n1: seq<string>, s1: seq<string>, n2: seq<string>, s2: seq<string>)
    requires |s1| == |n1| + 1 && |s2| == |n2| + 1
    ensures Weave(n1 + n2, Glue(s1, s2)) == Weave(n1, s1) + Weave(n2, s2)
    decreases |n1|
  {
    var g := Glue(s1, s2);
    if n1 == [] {
      assert n1 + n2 == n2;
      assert g == [s1[0] + s2[0]] + s2[1..];
      if n2 != [] {
        assert g[1..] == s2[1..];
      }
    } else {
      assert g == [s1[0]] + Glue(s1[1..], s2);
      assert (n1 + n2)[1..] == n1[1..] + n2;
      WeaveGlue(n1[1..], s1[1..], n2, s2);
    }
  }

  /** The text a unary node puts before its child's rendering. */
  function Pre(symbol: string, whenPrint: string, parentheses: bool): string {
    (if whenPrint == "before" then symbol else "") + (if parentheses then "(" else "")
  }

  /** The text a unary node puts after its child's rendering. */
  function Post(symbol: string, whenPrint: string, parentheses: bool): string {
    (if parentheses then ")" else "") + (if whenPrint == "after" then symbol else "")
  }

  /** The operator text of a rendering: what comes before the first leaf,
    * between consecutive leaves, and after the last one. */
  function Seps(e: Expr): (r: seq<string>)
    ensures |r| == |Leaves(e)| + 1
  {
    match e
    case Leaf(_) => ["", ""]
    case Unary(symbol, child, whenPrint, parentheses) =>
      Glue(Glue([Pre(symbol, whenPrint, parentheses)], Seps(child)), [Post(symbol, whenPrint, parentheses)])
    case Binary(symbol, left, right) =>
      Glue(Glue(Glue(Glue(["("], Seps(left)), [" " + symbol + " "]), Seps(right)), [")"])
  }

  /** Every rendering is the tree's leaf names, left to right, each emitted
    * once, with the nodes' own text (`Seps`: symbols, spaces and
    * parentheses) between them. */
  lemma {:induction false} RenderWeave(e: Expr)
    ensures Render(e) == Weave(Leaves(e), Seps(e))
  {
    match e
    case Leaf(name) =>
      assert Weave([name], ["", ""]) == "" + name + Weave([], [""]);
    case Unary(symbol, child, whenPrint, parentheses) =>
      RenderWeave(child);
      UnaryWeave(symbol, child, whenPrint, parentheses);
    case Binary(symbol, left, right) =>
      RenderWeave(left);
      RenderWeave(right);
      BinaryWeave(symbol, left, right);
  }

  lemma Regroup(a: string, o: string, r: string, c: string, z: string)
    ensures a + (o + r + c) + z == (a + o) + r + (c + z)
  {
    assert o + r + c == o + (r + c);
    assert a + (o + (r + c)) == (a + o) + (r + c);
    assert (a + o) + (r + c) + z == (a + o) + (r + (c + z));
    assert (a + o) + r + (c + z) == (a + o) + (r + (c + z));
  }

  lemma UnaryPrePost(symbol: string, child: Expr, whenPrint: string, parentheses: bool)
    ensures Render(Unary(symbol, child, whenPrint, parentheses))
            == Pre(symbol, whenPrint, parentheses) + Render(child) + Post(symbol, whenPrint, parentheses)
  {
    var a := if whenPrint == "before" then symbol else "";
    var z := if whenPrint == "after" then symbol else "";
    var open, close := if parentheses then "(" else "", if parentheses then ")" else "";
    assert Body(child, parentheses) == open + Render(child) + close;
    Regroup(a, open, Render(child), close, z);
  }

  lemma UnaryWeave(symbol: string, child: Expr, whenPrint: string, parentheses: bool)
    requires Render(child) == Weave(Leaves(child), Seps(child))
    ensures var e := Unary(symbol, child, whenPrint, parentheses);
      Render(e) == Weave(Leaves(e), Seps(e))
  {
    var lc, sc := Leaves(child), Seps(child);
    var pre, post := Pre(symbol, whenPrint, parentheses), Post(symbol, whenPrint, parentheses);
    var g1 := Glue([pre], sc);
    WeaveGlue([], [pre], lc, sc);
    assert [] + lc == lc;
    assert Weave(lc, g1) == pre + Render(child);
    WeaveGlue(lc, g1, [], [post]);
    assert lc + [] == lc;
    assert Weave(lc, Glue(g1, [post])) == pre + Render(child) + post;
    UnaryPrePost(symbol, child, whenPrint, parentheses);
  }

  lemma WeaveCons(a: string, n: seq<string>, s: seq<string>)
    requires |s| == |n| + 1
    ensures Weave(n, Glue([a], s)) == a + Weave(n, s)
  {
    WeaveGlue([], [a], n, s);
    assert [] + n == n;
  }

  lemma WeaveSnoc(n: seq<string>, s: seq<string>, b: string)
    requires |s| == |n| + 1
    ensures Weave(n, Glue(s, [b])) == Weave(n, s) + b
  {
    WeaveGlue(n, s, [], [b]);
    assert n + [] == n;
  }

  lemma BinaryText(symbol: string, l: string, r: string)
    ensures "(" + l + " " + symbol + " " + r + ")" == ("(" + l) + (" " + symbol + " ") + r + ")"
  {
  }

  lemma BinaryWeave(symbol: string, left: Expr, right: Expr)
    requires Render(left) == Weave(Leaves(left), Seps(left))
    requires Render(right) == Weave(Leaves(right), Seps(right))
    ensures var e := Binary(symbol, left, right);
      Render(e) == Weave(Leaves(e), Seps(e))
  {
    var ll, sl := Leaves(left), Seps(left);
    var lr, sr := Leaves(right), Seps(right);
    var op := " " + symbol + " ";
    var g1 := Glue(["("], sl);
    var g2 := Glue(g1, [op]);
    var g3 := Glue(g2, sr);
    WeaveCons("(", ll, sl);
    WeaveSnoc(ll, g1, op);
    WeaveGlue(ll, g2, lr, sr);
    WeaveSnoc(ll + lr, g3, ")");
    BinaryText(symbol, Render(left), Render(right));
  }
}
