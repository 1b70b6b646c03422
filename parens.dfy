/** Parenthesis balance of a piece of text. */
module Parens {

  /** How one character changes the nesting depth. */
  function Delta(c: char): int {
    if c == '(' then 1 else if c == ')' then -1 else 0
  }

  /** Opening minus closing parentheses in `s`. */
  function Excess(s: string): int {
    if s == [] then 0 else Excess(s[..|s| - 1]) + Delta(s[|s| - 1])
  }

  /** `s` holds no parenthesis at all. */
  predicate ParenFree(s: string) {
    forall i :: 0 <= i < |s| ==> s[i] != '(' && s[i] != ')'
  }

  /** No prefix of `s` closes more parentheses than it opens, and `s` as a
    * whole closes every one it opens. */
  predicate Balanced(s: string) {
    Excess(s) == 0 && forall k :: 0 <= k <= |s| ==> Excess(s[..k]) >= 0
  }

  /** The depth of a concatenation is the sum of the depths. */
  lemma {:induction false} ExcessConcat(a: string, b: string)
    ensures Excess(a + b) == Excess(a) + Excess(b)
    decreases |b|
  {
    if b != [] {
      var b' := b[..|b| - 1];
      assert (a + b)[..|a + b| - 1] == a + b';
      ExcessConcat(a, b');
    } else {
      assert a + b == a;
    }
  }

  /** Text without parentheses has depth zero. */
  lemma {:induction false} ParenFreeExcess(s: string)
    requires ParenFree(s)
    ensures Excess(s) == 0
    decreases |s|
  {
    if s != [] {
      ParenFreeExcess(s[..|s| - 1]);
    }
  }

  /** Text without parentheses is balanced. */
  lemma ParenFreeBalanced(s: string)
    requires ParenFree(s)
    ensures Balanced(s)
  {
    ParenFreeExcess(s);
    forall k | 0 <= k <= |s| ensures Excess(s[..k]) >= 0 {
      ParenFreeExcess(s[..k]);
    }
  }

  /** Balanced pieces concatenate to a balanced text. */
  lemma BalancedConcat(a: string, b: string)
    requires Balanced(a) && Balanced(b)
    ensures Balanced(a + b)
  {
    ExcessConcat(a, b);
    forall k | 0 <= k <= |a + b| ensures Excess((a + b)[..k]) >= 0 {
      if k <= |a| {
        assert (a + b)[..k] == a[..k];
      } else {
        assert (a + b)[..k] == a + b[..k - |a|];
        ExcessConcat(a, b[..k - |a|]);
      }
    }
  }

  /** Wrapping a balanced text in a pair of parentheses keeps it balanced,
    * and the opening parenthesis is the one the final character closes:
    * every non-empty proper prefix is still open. */
  lemma Wrapped(a: string)
    requires Balanced(a)
    ensures Balanced("(" + a + ")")
    ensures forall k :: 1 <= k < |a| + 2 ==> Excess(("(" + a + ")")[..k]) >= 1
  {
    var w := "(" + a + ")";
    assert w == "(" + (a + ")");
    ExcessConcat("(", a + ")");
    ExcessConcat(a, ")");
    assert Excess("(") == 1 by { assert "("[..0] == []; }
    assert Excess(")") == -1 by { assert ")"[..0] == []; }
    forall k | 1 <= k < |a| + 2 ensures Excess(w[..k]) >= 1 {
      assert w[..k] == "(" + a[..k - 1];
      ExcessConcat("(", a[..k - 1]);
    }
    assert w[..0] == [];
    assert w[..|w|] == w;
  }
}
