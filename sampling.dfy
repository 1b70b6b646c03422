/**
 * The shared random source and the sampling of variable values. The
 * generator's algorithm is not modelled: its output is a sequence of raw
 * draws, each choice or bounded integer consumes one of them, reduced into
 * the range asked for.
 */
module Sampling {

  /** A cursor over the generator's raw draws. */
  class DrawSource {
    const draws: seq<nat>
    var pos: nat

    constructor (draws: seq<nat>)
      ensures this.draws == draws && pos == 0
    {
      this.draws := draws;
      pos := 0;
    }

    /** One draw reduced below `n`. */
    method Below(n: nat) returns (k: nat)
      requires 0 < n && pos < |draws|
      modifies this
      ensures pos == old(pos) + 1
      ensures k == draws[old(pos)] % n && k < n
    {
      k := draws[pos] % n;
      pos := pos + 1;
    }

    /** An element of `xs` picked by one draw. */
    method Choice<T>(xs: seq<T>) returns (x: T)
      requires 0 < |xs| && pos < |draws|
      modifies this
      ensures pos == old(pos) + 1
      ensures x == xs[draws[old(pos)] % |xs|] && x in xs
    {
      var k := Below(|xs|);
      x := xs[k];
    }

    /** An integer of `lo..hi`, inclusive, using one draw. */
    method RandInt(lo: int, hi: int) returns (v: int)
      requires lo <= hi && pos < |draws|
      modifies this
      ensures pos == old(pos) + 1
      ensures v == lo + draws[old(pos)] % (hi - lo + 1) && lo <= v <= hi
    {
      var k := Below(hi - lo + 1);
      v := lo + k;
    }
  }

  /** The two signs, in the order they are chosen from. */
  const Signs: seq<int> := [-1, 1]

  /** The value a sign draw followed by a magnitude draw sample: the sign
    * draw alone decides the sign, the magnitude draw alone the size, which
    * is in 1..5, so the value is never zero. */
  function SampleValue(signDraw: nat, magDraw: nat): (v: int)
    ensures v != 0 && -5 <= v <= 5
    ensures v > 0 <==> signDraw % 2 == 1
    ensures (if v < 0 then -v else v) == 1 + magDraw % 5
  {
    Signs[signDraw % 2] * (1 + magDraw % 5)
  }

  /** Every value of [-5, -1] and [1, 5], and only those, can be sampled. */
  lemma SampleValueDomain(v: int)
    ensures (exists s: nat, m: nat :: SampleValue(s, m) == v) <==> v != 0 && -5 <= v <= 5
  {
    if v != 0 && -5 <= v <= 5 {
      var s: nat := if v < 0 then 0 else 1;
      var m: nat := (if v < 0 then -v else v) - 1;
      assert SampleValue(s, m) == v;
    }
  }

  /** Draws a sign, then a magnitude, and returns their product. */
  method SampleNonzero(g: DrawSource) returns (v: int)
    requires g.pos + 2 <= |g.draws|
    modifies g
    ensures g.pos == old(g.pos) + 2
    ensures v == SampleValue(g.draws[old(g.pos)], g.draws[old(g.pos) + 1])
  {
    var sign := g.Choice(Signs);
    var magnitude := g.RandInt(1, 5);
    v := sign * magnitude;
  }
}
