/**
 * The main pass of the generator: sample the five variables, then build the
 * fixed-shape formula from seven operator draws.
 */
module Assembly {
  import opened Expression
  import opened Parens
  import opened Wellformed
  import opened Catalog
  import opened Sampling

  /** The variables, in declaration order. */
  const RootNames: seq<string> := ["x1", "x2", "x3", "x4", "x5"]

  /** A mapping from names to values that remembers insertion order. */
  type Valuation = seq<(string, int)>

  /** The names of a valuation, in insertion order. */
  function Keys(m: Valuation): (r: seq<string>)
    ensures |r| == |m| && forall i :: 0 <= i < |m| ==> r[i] == m[i].0
  {
    if m == [] then [] else [m[0].0] + Keys(m[1..])
  }

  /** The valuation ten draws produce: variable i takes draws 2i (sign) and
    * 2i + 1 (magnitude). Every value is non-zero and at most 5 in size. */
  function SampledValues(d: seq<nat>): (r: Valuation)
    requires |d| == 10
    ensures |r| == 5
    ensures forall i :: 0 <= i < 5 ==> r[i].0 == RootNames[i]
    ensures forall i :: 0 <= i < 5 ==> r[i].1 != 0 && -5 <= r[i].1 <= 5
  {
    [("x1", SampleValue(d[0], d[1])), ("x2", SampleValue(d[2], d[3])),
     ("x3", SampleValue(d[4], d[5])), ("x4", SampleValue(d[6], d[7])),
     ("x5", SampleValue(d[8], d[9]))]
  }

  /** The binary symbol a draw picks. */
  function BinaryAt(k: nat): string {
    BinaryOperators[k % |BinaryOperators|]
  }

  /** The unary node a draw builds over `child`. */
  function UnaryAt(k: nat, child: Expr): Expr {
    UnaryFromEntry(k % |UnaryOperators|, child)
  }

  /** The formula seven operator draws build, drawn in the order b1, b2, u1,
    * u2, b3, b4, u3: u3(b4(b3(u1(b1(x1, x2)), u2(b2(x3, x4))), x5)). */
  function BuildTree(d: seq<nat>): Expr
    requires |d| == 7
  {
    var bin1 := Binary(BinaryAt(d[0]), Leaf("x1"), Leaf("x2"));
    var bin2 := Binary(BinaryAt(d[1]), Leaf("x3"), Leaf("x4"));
    var una1 := UnaryAt(d[2], bin1);
    var una2 := UnaryAt(d[3], bin2);
    var bin3 := Binary(BinaryAt(d[4]), una1, una2);
    var bin4 := Binary(BinaryAt(d[5]), bin3, Leaf("x5"));
    UnaryAt(d[6], bin4)
  }

  /** Leaves for a list of names. */
  function LeavesOf(names: seq<string>): (r: seq<Expr>)
    ensures |r| == |names| && forall i :: 0 <= i < |names| ==> r[i] == Leaf(names[i])
  {
    if names == [] then [] else [Leaf(names[0])] + LeavesOf(names[1..])
  }

  /** Samples the five variables, in declaration order, two draws each. */
  method SampleRoots(g: DrawSource) returns (rootsDict: Valuation)
    requires g.pos + 10 <= |g.draws|
    modifies g
    ensures g.pos == old(g.pos) + 10
    ensures rootsDict == SampledValues(g.draws[old(g.pos)..old(g.pos) + 10])
  {
    var v1 := SampleNonzero(g);
    var v2 := SampleNonzero(g);
    var v3 := SampleNonzero(g);
    var v4 := SampleNonzero(g);
    var v5 := SampleNonzero(g);
    rootsDict := [("x1", v1), ("x2", v2), ("x3", v3), ("x4", v4), ("x5", v5)];
  }

  /** Builds the formula over `roots`, drawing seven operators; every binary
    * node goes through the arity-checked constructor, which never fails
    * here because each is given exactly two children. */
  method AssembleTree(g: DrawSource, roots: seq<string>) returns (formula: Expr)
    requires roots == RootNames
    requires g.pos + 7 <= |g.draws|
    modifies g
    ensures g.pos == old(g.pos) + 7
    ensures formula == BuildTree(g.draws[old(g.pos)..old(g.pos) + 7])
  {
    ghost var d := g.draws[g.pos..g.pos + 7];
    var s1 := g.Choice(BinaryOperators);
    var r1 := NewBinary(s1, LeavesOf(roots[..2]));
    assert r1.Ok?;
    var bin1 := r1.value;
    assert bin1 == Binary(BinaryAt(d[0]), Leaf("x1"), Leaf("x2"));
    var s2 := g.Choice(BinaryOperators);
    var r2 := NewBinary(s2, LeavesOf(roots[2..4]));
    assert r2.Ok?;
    var bin2 := r2.value;
    assert bin2 == Binary(BinaryAt(d[1]), Leaf("x3"), Leaf("x4"));

    var una1Entry := g.Choice(UnaryOperators);
    var una1 := NewUnary(una1Entry.0, bin1, una1Entry.1);
    assert una1 == UnaryAt(d[2], bin1);
    var una2Entry := g.Choice(UnaryOperators);
    var una2 := NewUnary(una2Entry.0, bin2, una2Entry.1);
    assert una2 == UnaryAt(d[3], bin2);

    var s3 := g.Choice(BinaryOperators);
    var r3 := NewBinary(s3, [una1, una2]);
    assert r3.Ok?;
    var bin3 := r3.value;
    var s4 := g.Choice(BinaryOperators);
    var r4 := NewBinary(s4, [bin3, Leaf(roots[|roots| - 1])]);
    assert r4.Ok?;
    var bin4 := r4.value;

    var una3Entry := g.Choice(UnaryOperators);
    formula := NewUnary(una3Entry.0, bin4, una3Entry.1);
  }

  /** The main pass: ten sampling draws, then seven operator draws over the
    * names of the sampled valuation. */
  method Generate(g: DrawSource) returns (rootsDict: Valuation, formula: Expr)
    requires g.pos + 17 <= |g.draws|
    modifies g
    ensures g.pos == old(g.pos) + 17
    ensures rootsDict == SampledValues(g.draws[old(g.pos)..old(g.pos) + 10])
    ensures formula == BuildTree(g.draws[old(g.pos) + 10..old(g.pos) + 17])
  {
    rootsDict := SampleRoots(g);
    var roots := Keys(rootsDict);
    assert roots == RootNames;
    formula := AssembleTree(g, roots);
  }

  /** A tree with its symbols and configuration erased. */
  datatype Shape = LeafShape(name: string) | UnaryShape(child: Shape) | BinaryShape(left: Shape, right: Shape)

  function Skeleton(e: Expr): Shape {
    match e
    case Leaf(name) => LeafShape(name)
    case Unary(_, child, _, _) => UnaryShape(Skeleton(child))
    case Binary(_, left, right) => BinaryShape(Skeleton(left), Skeleton(right))
  }

  /** U3(B4(B3(U1(B1(x1, x2)), U2(B2(x3, x4))), x5)). */
  const FixedShape: Shape :=
    UnaryShape(BinaryShape(
      BinaryShape(
        UnaryShape(BinaryShape(LeafShape("x1"), LeafShape("x2"))),
        UnaryShape(BinaryShape(LeafShape("x3"), LeafShape("x4")))),
      LeafShape("x5")))

  /** Whatever the draws, the formula has the same shape. */
  lemma AssembledShape(d: seq<nat>)
    requires |d| == 7
    ensures Skeleton(BuildTree(d)) == FixedShape
  {
  }

  /** The leaves of the formula are x1, ..., x5, in this order. */
  lemma AssembledLeaves(d: seq<nat>)
    requires |d| == 7
    ensures Leaves(BuildTree(d)) == RootNames
  {
  }

  /** A tree whose leaves are x1, ..., x5 renders as those names, left to
    * right, each emitted once, with the nodes' own text between them. */
  lemma RootsInOrder(t: Expr)
    requires Leaves(t) == RootNames
    ensures |Seps(t)| == 6 && Render(t) == Weave(RootNames, Seps(t))
  {
    RenderWeave(t);
  }

  /** The rendered formula is x1, x2, x3, x4, x5, left to right, each
    * emitted once, with the nodes' own text between them. */
  lemma AssembledLeafOrder(d: seq<nat>)
    requires |d| == 7
    ensures var t := BuildTree(d); |Seps(t)| == 6 && Render(t) == Weave(RootNames, Seps(t))
  {
    var t := BuildTree(d);
    AssembledLeaves(d);
    RootsInOrder(t);
  }

  /** The operator symbols of a formula of the fixed shape, in the order
    * the seven draws pick them: b1, b2, u1, u2, b3, b4, u3. */
  function DrawnSymbols(t: Expr): seq<string> {
    match t
    case Unary(u3, Binary(b4, Binary(b3, Unary(u1, Binary(b1, _, _), _, _), Unary(u2, Binary(b2, _, _), _, _)), _), _, _) =>
      [b1, b2, u1, u2, b3, b4, u3]
    case _ => []
  }

  /** Draw i picks the symbol at position i: binary symbols from the binary
    * catalog for draws 0, 1, 4 and 5, unary ones from the unary catalog for
    * draws 2, 3 and 6. */
  lemma AssembledSymbols(d: seq<nat>)
    requires |d| == 7
    ensures DrawnSymbols(BuildTree(d)) ==
      [BinaryOperators[d[0] % 4], BinaryOperators[d[1] % 4],
       UnaryOperators[d[2] % 12].0, UnaryOperators[d[3] % 12].0,
       BinaryOperators[d[4] % 4], BinaryOperators[d[5] % 4],
       UnaryOperators[d[6] % 12].0]
  {
  }

  lemma UnaryAtParenFree(k: nat, child: Expr)
    requires ParenFreeTree(child)
    ensures ParenFreeTree(UnaryAt(k, child))
  {
    UnarySymbolsParenFree(k % |UnaryOperators|);
  }

  lemma BinaryAtParenFree(k: nat, left: Expr, right: Expr)
    requires ParenFreeTree(left) && ParenFreeTree(right)
    ensures ParenFreeTree(Binary(BinaryAt(k), left, right))
  {
    BinarySymbolsParenFree(k % |BinaryOperators|);
  }

  /** No catalog symbol and no variable name holds a parenthesis. */
  lemma AssembledParenFree(d: seq<nat>)
    requires |d| == 7
    ensures ParenFreeTree(BuildTree(d))
  {
    var bin1 := Binary(BinaryAt(d[0]), Leaf("x1"), Leaf("x2"));
    var bin2 := Binary(BinaryAt(d[1]), Leaf("x3"), Leaf("x4"));
    BinaryAtParenFree(d[0], Leaf("x1"), Leaf("x2"));
    BinaryAtParenFree(d[1], Leaf("x3"), Leaf("x4"));
    var una1, una2 := UnaryAt(d[2], bin1), UnaryAt(d[3], bin2);
    UnaryAtParenFree(d[2], bin1);
    UnaryAtParenFree(d[3], bin2);
    var bin3 := Binary(BinaryAt(d[4]), una1, una2);
    BinaryAtParenFree(d[4], una1, una2);
    var bin4 := Binary(BinaryAt(d[5]), bin3, Leaf("x5"));
    BinaryAtParenFree(d[5], bin3, Leaf("x5"));
    UnaryAtParenFree(d[6], bin4);
    assert BuildTree(d) == UnaryAt(d[6], bin4);
  }

  /** The printed formula has balanced parentheses, whatever the draws. */
  lemma AssembledBalanced(d: seq<nat>)
    requires |d| == 7
    ensures Balanced(Render(BuildTree(d)))
  {
    AssembledParenFree(d);
    RenderBalanced(BuildTree(d));
  }

  /** The unary node a draw builds never parenthesises its child, shows its
    * symbol after the body for the two powers and before it otherwise. */
  lemma UnaryAtConfig(k: nat, child: Expr)
    ensures var n := UnaryAt(k, child);
      && n.Unary? && n.child == child && !n.parentheses
      && (n.whenPrint == "after" <==> n.symbol in {"^2", "^3"})
      && (n.whenPrint != "after" ==> n.whenPrint == "before")
  {
    UnaryEntryConfig(k % |UnaryOperators|, child);
  }

  lemma AssembledUnaryNodes(d: seq<nat>)
    requires |d| == 7
    ensures var t := BuildTree(d);
      && t.Unary? && !t.parentheses
      && t.child.Binary? && t.child.left.Binary?
      && t.child.left.left.Unary? && !t.child.left.left.parentheses
      && t.child.left.right.Unary? && !t.child.left.right.parentheses
  {
    var bin1 := Binary(BinaryAt(d[0]), Leaf("x1"), Leaf("x2"));
    var bin2 := Binary(BinaryAt(d[1]), Leaf("x3"), Leaf("x4"));
    UnaryAtConfig(d[2], bin1);
    UnaryAtConfig(d[3], bin2);
    var bin4 := Binary(BinaryAt(d[5]), Binary(BinaryAt(d[4]), UnaryAt(d[2], bin1), UnaryAt(d[3], bin2)), Leaf("x5"));
    UnaryAtConfig(d[6], bin4);
  }

  /** `body` with the unary symbol a draw picks put in its place. */
  function Place(k: nat, body: string): string {
    var i := k % |UnaryOperators|;
    if i < 2 then body + UnaryOperators[i].0 else UnaryOperators[i].0 + body
  }

  lemma RenderUnaryAt(k: nat, child: Expr)
    ensures Render(UnaryAt(k, child)) == Place(k, Render(child))
  {
    UnaryEntryConfig(k % |UnaryOperators|, child);
  }

  /** The exact text of the formula in terms of the seven draws, written
    * piece by piece as the nodes emit it. */
  lemma AssembledText(d: seq<nat>)
    requires |d| == 7
    ensures var left := Place(d[2], "(" + "x1" + " " + BinaryAt(d[0]) + " " + "x2" + ")");
      var right := Place(d[3], "(" + "x3" + " " + BinaryAt(d[1]) + " " + "x4" + ")");
      Render(BuildTree(d)) ==
        Place(d[6], "(" + ("(" + left + " " + BinaryAt(d[4]) + " " + right + ")") + " " + BinaryAt(d[5]) + " " + "x5" + ")")
  {
    var bin1 := Binary(BinaryAt(d[0]), Leaf("x1"), Leaf("x2"));
    var bin2 := Binary(BinaryAt(d[1]), Leaf("x3"), Leaf("x4"));
    var una1, una2 := UnaryAt(d[2], bin1), UnaryAt(d[3], bin2);
    var bin3 := Binary(BinaryAt(d[4]), una1, una2);
    var bin4 := Binary(BinaryAt(d[5]), bin3, Leaf("x5"));
    assert BuildTree(d) == UnaryAt(d[6], bin4);
    RenderUnaryAt(d[2], bin1);
    RenderUnaryAt(d[3], bin2);
    RenderUnaryAt(d[6], bin4);
  }

  /** The reduced indices of the seven operator draws. */
  function Choices(d: seq<nat>): seq<nat>
    requires |d| == 7
  {
    [d[0] % 4, d[1] % 4, d[2] % 12, d[3] % 12, d[4] % 4, d[5] % 4, d[6] % 12]
  }

  lemma BinaryAtInjective(k1: nat, k2: nat)
    ensures BinaryAt(k1) == BinaryAt(k2) <==> k1 % 4 == k2 % 4
  {
    SymbolsDistinct();
    var i, j := k1 % 4, k2 % 4;
    if i != j {
      if i < j { assert BinaryOperators[i] != BinaryOperators[j]; }
      else { assert BinaryOperators[j] != BinaryOperators[i]; }
    }
  }

  lemma UnaryAtInjective(k1: nat, k2: nat, c1: Expr, c2: Expr)
    ensures UnaryAt(k1, c1) == UnaryAt(k2, c2) <==> k1 % 12 == k2 % 12 && c1 == c2
  {
    SymbolsDistinct();
    var i, j := k1 % 12, k2 % 12;
    UnaryEntryConfig(i, c1);
    UnaryEntryConfig(j, c2);
    if i != j {
      if i < j { assert UnaryOperators[i].0 != UnaryOperators[j].0; }
      else { assert UnaryOperators[j].0 != UnaryOperators[i].0; }
    }
  }

  /** Two runs build the same formula exactly when their seven operator
    * draws make the same catalog choices: the formula is determined by the
    * choices, and different choices give different formulas. */
  lemma AssemblyInjective(d1: seq<nat>, d2: seq<nat>)
    requires |d1| == 7 && |d2| == 7
    ensures BuildTree(d1) == BuildTree(d2) <==> Choices(d1) == Choices(d2)
  {
    forall k | 0 <= k < 7 && k in {0, 1, 4, 5} {
      BinaryAtInjective(d1[k], d2[k]);
    }
    var b1 := Binary(BinaryAt(d1[0]), Leaf("x1"), Leaf("x2"));
    var b2 := Binary(BinaryAt(d2[0]), Leaf("x1"), Leaf("x2"));
    var c1 := Binary(BinaryAt(d1[1]), Leaf("x3"), Leaf("x4"));
    var c2 := Binary(BinaryAt(d2[1]), Leaf("x3"), Leaf("x4"));
    UnaryAtInjective(d1[2], d2[2], b1, b2);
    UnaryAtInjective(d1[3], d2[3], c1, c2);
    var e1 := Binary(BinaryAt(d1[5]), Binary(BinaryAt(d1[4]), UnaryAt(d1[2], b1), UnaryAt(d1[3], c1)), Leaf("x5"));
    var e2 := Binary(BinaryAt(d2[5]), Binary(BinaryAt(d2[4]), UnaryAt(d2[2], b2), UnaryAt(d2[3], c2)), Leaf("x5"));
    UnaryAtInjective(d1[6], d2[6], e1, e2);
  }
}
