/** Facts about Euclidean division and remainder used by the cycle and
    cursor arithmetic of the engine. */
module Arith {

  lemma MulAtLeast(d: int, p: int)
    requires d >= 1 && p > 0
    ensures d * p >= p
  {
    if d > 1 {
      MulAtLeast(d - 1, p);
      assert d * p == (d - 1) * p + p;
    }
  }

  /** Euclidean division is unique: `q * p + r` with `0 <= r < p` has remainder `r`. */
  lemma ModUnique(a: int, p: int, q: int, r: int)
    requires p > 0 && 0 <= r < p && a == q * p + r
    ensures a % p == r && a / p == q
  {
    var q0, r0 := a / p, a % p;
    assert a == q0 * p + r0 && 0 <= r0 < p;
    var d := q0 - q;
    assert d * p == r - r0 by { assert d * p == q0 * p - q * p; }
    if d > 0 { MulAtLeast(d, p); }
    if d < 0 { MulAtLeast(-d, p); }
  }

  lemma ModAddPeriod(x: nat, p: nat)
    requires p > 0
    ensures (x + p) % p == x % p
  {
    assert x == (x / p) * p + x % p;
    assert x + p == (x / p + 1) * p + x % p;
    ModUnique(x + p, p, x / p + 1, x % p);
  }

  lemma ModSucc(a: nat, p: nat)
    requires p > 0
    ensures (a % p + 1) % p == (a + 1) % p
  {
    var q, r := a / p, a % p;
    assert a == q * p + r;
    if r + 1 < p {
      ModUnique(a + 1, p, q, r + 1);
      ModUnique(r + 1, p, 0, r + 1);
    } else {
      assert a + 1 == (q + 1) * p + 0;
      ModUnique(a + 1, p, q + 1, 0);
      ModUnique(r + 1, p, 1, 0);
    }
  }

  /** Adding `b` after reducing `a` gives the same remainder as adding it before. */
  lemma {:induction false} ModShift(a: nat, b: nat, p: nat)
    requires p > 0
    ensures (a % p + b) % p == (a + b) % p
    decreases b
  {
    if b == 0 {
      ModUnique(a % p, p, 0, a % p);
    } else {
      ModShift(a, b - 1, p);
      ModSucc(a % p + b - 1, p);
      ModSucc(a + b - 1, p);
    }
  }

  lemma MulMonotone(d: nat, r: nat, m: nat)
    requires r <= m
    ensures d * r <= d * m
  {
    assert d * m - d * r == d * (m - r);
  }

  /** A quotient is at most `b` when the dividend is at most `b` times the divisor. */
  lemma DivAtMost(a: nat, b: nat, c: nat)
    requires c > 0 && a <= b * c
    ensures a / c <= b
  {

  }

  /** The quotient brackets the dividend between two multiples of the divisor. */
  lemma DivBracket(a: nat, d: nat)
    requires d > 0
    ensures (a / d) * d <= a < (a / d + 1) * d
  {
    assert a == (a / d) * d + a % d;
    assert (a / d + 1) * d == (a / d) * d + d;
  }
}
