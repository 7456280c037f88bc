/** Counting a truth, and the few facts about products and quotients that the other modules need. */
module Arith {

  function One(b: bool): nat {
    if b then 1 else 0
  }

  lemma DoubledProduct(x: nat, y: nat)
    ensures 2 * x * y == 2 * (x * y)
  {
  }

  lemma {:induction false} MulOrder(u: nat, a: int, b: int)
    requires a <= b
    ensures a * u <= b * u
    decreases b - a
  {
    if a < b {
      MulOrder(u, a, b - 1);
      assert b * u == (b - 1) * u + u;
    }
  }

  lemma Wrap(x: nat, n: nat)
    requires 0 < n && x <= n
    ensures x % n == if x == n then 0 else x
  {
  }

  /** The quotient is the only multiple at or below `a` that is less than `u` away. */
  lemma DivRange(a: int, u: nat, k: int)
    requires u > 0
    ensures k == a / u <==> k * u <= a < k * u + u
  {
    var q := a / u;
    assert a == u * q + a % u;
    assert u * q == q * u;
    if k < q {
      MulOrder(u, k + 1, q);
    } else if q < k {
      MulOrder(u, q + 1, k);
    }
    assert (k + 1) * u == k * u + u && (q + 1) * u == q * u + u;
  }
}
