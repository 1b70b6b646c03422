# Randomized backpropagation formula generator — Dafny model

The generator builds a small random formula over five variables `x1`..`x5`
for a student to differentiate by hand. It samples a non-zero value in
[-5, -1] ∪ [1, 5] for each variable, builds a tree of fixed shape
`U3(B4(B3(U1(B1(x1, x2)), U2(B2(x3, x4))), x5))` whose binary symbols come
from `+ - * /` and whose unary symbols come from a 12-entry catalog, and
renders the tree as infix text.

The model has seven modules:

- `Wrappers` (`wrappers.dfy`): `Option` and `Result`.
- `Expression` (`expression.dfy`): the node datatype (`Leaf`, `Unary`,
  `Binary`), the two node constructors, and the renderer `Render`.
- `Parens` (`parens.dfy`): the depth of a text (`Excess`) and what it means
  to be `Balanced`.
- `Wellformed` (`wellformed.dfy`): properties of renderings. These are
  balanced parentheses when no leaf name and no visible symbol holds a
  parenthesis (as in every generated formula, `AssembledBalanced`), the exact
  text of every binary node, and the leaf names in left-to-right order
  (`Weave` of the leaves with operator text).
- `Catalog` (`catalog.dfy`): the binary and unary catalogs, with the keyword
  arguments each unary entry is built with.
- `Sampling` (`sampling.dfy`): the random source is a `DrawSource` class, a
  cursor over a sequence of raw draws. Each `choice`/`randint` takes one draw,
  reduced into the range asked for. The module also holds the value sampler.
- `Assembly` (`assembly.dfy`): the main pass as methods (`SampleRoots`,
  `AssembleTree`, `Generate`), proved against the pure functions
  `SampledValues` and `BuildTree`, and the lemmas about the formula they
  produce.

Two choices follow the code rather than a simpler reading:

- The placement of a unary symbol is any string, not a two-valued flag. Only
  `"before"` and `"after"` print the symbol; any other value drops it.
- A leaf is the bare variable-name string that the code passes as a child.

## Model

| member | source | states |
|---|---|---|
| `Expression.NewUnary` | utils/randomized_backprop_formula.py:14-18 | an omitted placement defaults to "before" and an omitted parentheses flag to false; given keyword arguments are kept, with symbol and child |
| `Expression.NewBinary` | utils/randomized_backprop_formula.py:40-43 | succeeds if and only if exactly two children are given, keeping them in order; any other count fails with `InvalidArity` carrying that count |
| `Expression.Render` | utils/randomized_backprop_formula.py:23-49 | the text of a node; no contract of its own: `UnaryPlacement`, `BinaryRendering`, `BinaryFullyParenthesised`, `RenderWeave` and `RenderBalanced` state it |
| `Expression.UnaryPlacement` | utils/randomized_backprop_formula.py:23-37 | "before" gives symbol then body, "after" gives body then symbol, any other placement gives the body alone; the body is the child's rendering, wrapped in parentheses exactly when the flag is set |
| `Expression.SymbolVisibleIffPlaced` | utils/randomized_backprop_formula.py:24-36 | two unary nodes differing only in their symbol render alike if and only if the placement is neither "before" nor "after" |
| `Wellformed.BinaryRendering` | utils/randomized_backprop_formula.py:45-49 | every binary node, whatever its symbol and children, renders as `(left symbol right)` with one space each side of the symbol, opening with `(` and closing with `)` |
| `Wellformed.BinaryFullyParenthesised` | utils/randomized_backprop_formula.py:45-49 | for a symbol without parentheses over balanced children, the rendering is balanced and its first parenthesis closes only at the last character |
| `Wellformed.RenderBalanced` | utils/randomized_backprop_formula.py:23-49 | over leaf names and visible symbols without parentheses, every rendering has balanced parentheses |
| `Wellformed.RenderWeave` | utils/randomized_backprop_formula.py:23-49 | every rendering is the tree's leaves, left to right, each emitted once, with the nodes' own text (`Seps`: symbols, spaces and parentheses) between them |
| `Catalog.UnaryFromEntry` | utils/randomized_backprop_formula.py:83-84 | builds a unary node from a catalog entry's symbol and keyword arguments; no contract of its own: `UnaryEntryConfig` states it |
| `Catalog.UnaryEntryConfig` | utils/randomized_backprop_formula.py:59-72 | every unary catalog entry builds a node that never parenthesises its child and places its symbol after the body exactly for `^2` and `^3`, before it otherwise |
| `Catalog.SymbolsDistinct` | utils/randomized_backprop_formula.py:58-72 | no symbol appears twice in either catalog |
| `Catalog.UnarySymbolsParenFree` | utils/randomized_backprop_formula.py:59-72 | no unary catalog symbol holds a parenthesis |
| `Sampling.DrawSource.Below` | utils/randomized_backprop_formula.py:75 | one draw, reduced below the bound, advancing the cursor by one |
| `Sampling.DrawSource.Choice` | utils/randomized_backprop_formula.py:75 | one draw picks an element of the list, advancing the cursor by one |
| `Sampling.DrawSource.RandInt` | utils/randomized_backprop_formula.py:75 | one draw picks an integer of the closed range, advancing the cursor by one |
| `Sampling.SampleValue` | utils/randomized_backprop_formula.py:74-75 | the sampled value is never 0 and lies in [-5, 5]; its sign is set by the sign draw alone and its size, 1..5, by the magnitude draw alone |
| `Sampling.SampleValueDomain` | utils/randomized_backprop_formula.py:74-75 | a value can be sampled if and only if it is non-zero and in [-5, 5] |
| `Sampling.SampleNonzero` | utils/randomized_backprop_formula.py:74-75 | draws the sign, then the magnitude, and returns the value `SampleValue` gives for those two draws |
| `Assembly.SampledValues` | utils/randomized_backprop_formula.py:77 | ten draws give five entries named x1..x5 in declaration order, each non-zero and in [-5, 5] |
| `Assembly.Keys` | utils/randomized_backprop_formula.py:78 | the names of a valuation in insertion order |
| `Assembly.SampleRoots` | utils/randomized_backprop_formula.py:77 | consumes ten draws; the valuation is `SampledValues` of them |
| `Assembly.BuildTree` | utils/randomized_backprop_formula.py:80-92 | the formula as a function of the seven operator draws; no contract of its own: `AssembledShape`, `AssembledSymbols` and `AssembledText` state it |
| `Assembly.AssembleTree` | utils/randomized_backprop_formula.py:80-92 | consumes seven draws; the formula is `BuildTree` of them (its body also proves that every arity check it passes through succeeds) |
| `Assembly.Generate` | utils/randomized_backprop_formula.py:77-92 | sampling takes the first ten draws and assembly the next seven, seventeen in all |
| `Assembly.AssembledShape` | utils/randomized_backprop_formula.py:80-92 | whatever the draws, the formula has the shape U3(B4(B3(U1(B1(x1, x2)), U2(B2(x3, x4))), x5)) |
| `Assembly.AssembledLeaves` | utils/randomized_backprop_formula.py:80-92 | the formula's leaves are x1, x2, x3, x4, x5 in this order |
| `Assembly.AssembledLeafOrder` | utils/randomized_backprop_formula.py:80-92 | the rendered formula is x1, x2, x3, x4, x5, left to right, each emitted once, woven with the nodes' own text `Seps` of the formula; it does not state that that text contains no variable name |
| `Assembly.AssembledSymbols` | utils/randomized_backprop_formula.py:80-91 | the symbols b1, b2, u1, u2, b3, b4, u3 are picked, in that order, by draws 0 to 6, from the binary catalog for b and the unary catalog for u |
| `Assembly.UnaryAtConfig` | utils/randomized_backprop_formula.py:83-92 | a unary node built from a catalog draw never parenthesises its child; its symbol goes after the body exactly for the two powers, before it otherwise |
| `Assembly.AssembledUnaryNodes` | utils/randomized_backprop_formula.py:83-92 | none of the formula's three unary nodes parenthesises its child |
| `Assembly.AssembledParenFree` | utils/randomized_backprop_formula.py:58-92 | no symbol and no variable name in the formula holds a parenthesis |
| `Assembly.AssembledBalanced` | utils/randomized_backprop_formula.py:80-92 | the rendered formula has balanced parentheses, whatever the draws |
| `Assembly.RenderUnaryAt` | utils/randomized_backprop_formula.py:23-37 | a unary catalog node renders as its symbol after the child's text for the two powers and before it otherwise |
| `Assembly.AssembledText` | utils/randomized_backprop_formula.py:80-92 | the exact text of the formula, given the seven draws |
| `Assembly.AssemblyInjective` | utils/randomized_backprop_formula.py:80-91 | two runs build the same formula if and only if their seven operator draws make the same catalog choices |

## Left out

- Seed derivation: the MD5 hash of the name and `random.seed`. These are foreign library algorithms. The draws are a sequence that the caller supplies. Determinism holds because every model member is a function of that sequence.
- The generator's algorithm. `random.choice` and `random.randint` are both modelled as a single draw reduced modulo the size of the range. The model does not capture Python's rejection sampling or how uniform the draws are.
- Running out of draws: `SampleNonzero`, `SampleRoots`, `AssembleTree` and `Generate` require that enough draws remain. Python's generator never runs out.
- Terminal input and output: reading the name, the `print` calls, `pprint` of the values, and the fixed instructional text.
- The abstract `Operator` class and its `NotImplementedError`. Neither node class inherits from it, and the closed datatype has no third kind of node to build.
- `UnaryOperator.print`, which does nothing and returns `None`.
- The text of the arity assertion's message. `InvalidArity` carries the count the message would report.
- The arity check is a Python `assert`, which `python -O` removes; `NewBinary` rejects a wrong count always. Every call site passes exactly two children, so no run of the program behaves differently.
- Any numeric meaning of the symbols. The program never evaluates the formula.
- The parentheses flag is a `bool`, while the code tests it for Python truthiness. Nothing in the program ever passes the flag, so no behaviour is lost.
- Assembly.AssembledLeafOrder: does not state that the text between the variable names contains no variable name; it ties that text to the nodes' own text (`Seps`) instead.
