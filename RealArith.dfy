/**
 * Rounding as JavaScript's `Math.ceil` does it, and facts about
 * multiplication of reals that the solver does not find unaided.
 */
module RealArith {

  /** `Math.ceil`: the least integer not below `x`. */
  function Ceil(x: real): (n: int)
    ensures x <= n as real < x + 1.0
  {
    -((-x).Floor)
  }

  /** Every integer not below `x` is at least `Ceil(x)`. */
  lemma CeilIsLeast(x: real, k: int)
    requires x <= k as real
    ensures Ceil(x) <= k
  {
  }

  lemma MulPositive(x: real, y: real)
    requires x > 0.0 && y > 0.0
    ensures x * y > 0.0
  {
  }

  lemma MulMonotone(a: real, b: real, c: real)
    requires a <= b && c > 0.0
    ensures a * c <= b * c
  {
    assert b * c - a * c == (b - a) * c;
    if a < b {
      MulPositive(b - a, c);
    }
  }

  lemma MulStrict(a: real, b: real, c: real)
    requires a < b && c > 0.0
    ensures a * c < b * c
  {
    assert b * c - a * c == (b - a) * c;
    MulPositive(b - a, c);
  }

  /** Dividing by a positive number and multiplying back by it preserves order. */
  lemma DivMulOrder(x: real, y: real, c: real)
    requires c > 0.0
    ensures x <= y / c <==> x * c <= y
    ensures x < y / c <==> x * c < y
  {
    var q := y / c;
    assert q * c == y;
    if x <= q { MulMonotone(x, q, c); } else { MulStrict(q, x, c); }
    if x < q { MulStrict(x, q, c); } else { MulMonotone(q, x, c); }
  }

  /**
   * For a positive divisor `d`, `n` copies of `d` reach `x` exactly when `n`
   * is at least `Ceil(x / d)`.
   */
  lemma CeilDivIsLeast(x: real, d: real, n: int)
    requires d > 0.0
    ensures n as real * d >= x <==> n >= Ceil(x / d)
  {
    DivMulOrder(n as real, x, d);
    if n as real >= x / d {
      CeilIsLeast(x / d, n);
    }
  }
}
