/** Small facts about products and quotients of reals, stated once. */
module RealArithmetic {

  /** A named product, so that equal factors give equal products without arithmetic search. */
  function Compound(a: real, b: real): real { a * b }

  lemma CompoundUnits(x: real)
    ensures Compound(0.0, x) == 0.0 && Compound(1.0, x) == x && Compound(x, 1.0) == x
  {
  }

  lemma CompoundNonnegative(a: real, b: real)
    requires a >= 0.0 && b >= 0.0
    ensures Compound(a, b) >= 0.0
  {
  }

  lemma ProductPositive(a: real, b: real)
    requires a > 0.0 && b > 0.0
    ensures a * b > 0.0
  {
  }

  lemma QuotientPositive(a: real, b: real)
    requires a > 0.0 && b > 0.0
    ensures a / b > 0.0
  {
    assert (a / b) * b == a;
  }

  lemma ProductMonotone(a: real, b: real, c: real)
    requires a <= b && c >= 0.0
    ensures a * c <= b * c
  {
  }

  lemma Cancel(a: real, b: real, c: real)
    requires a * c <= b * c && c > 0.0
    ensures a <= b
  {
  }

  /** A limit charged `n` times. */
  function Lots(limit: real, n: nat): real { limit * (n as real) }

  lemma OneLotMore(limit: real, n: nat)
    ensures Lots(limit, n + 1) == Lots(limit, n) + limit && Lots(limit, 0) == 0.0
  {
    assert (n + 1) as real == n as real + 1.0;
  }
}
