/** Division and multiples, by factors that are not constants. */
module Arithmetic {
  lemma NotMultiple(d: int, p: int)
    requires 0 < d < p
    ensures (-d) % p != 0
  {
    assert -d == -1 * p + (p - d);
  }

  lemma ModAdd(b: int, k: int, p: int)
    requires 0 < p
    ensures (b + k * p) % p == b % p
  {
    var q := b / p;
    var r := b % p;
    assert b + k * p == (q + k) * p + r;
    ModIs(b + k * p, q + k, r, p);
  }

  lemma ModIs(a: int, q: int, r: int, p: int)
    requires 0 < p && 0 <= r < p && a == q * p + r
    ensures a % p == r && a / p == q
  {
    NoMultipleBetween(q - a / p, p, a % p - r);
  }

  lemma NoMultipleBetween(k: int, p: int, d: int)
    requires 0 < p && k * p == d && -p < d < p
    ensures k == 0
  {
    if k >= 1 { MulAtLeast(k, p); }
    if k <= -1 { MulAtLeast(-k, p); }
  }

  lemma MulAtLeast(k: int, p: int)
    requires k >= 1 && p >= 0
    ensures k * p >= p
  {
  }

  lemma MultipleOf(a: int, k: int, p: int)
    requires 0 < p && a == k * p
    ensures a % p == 0
  {
    ModIs(a, k, 0, p);
  }

  /** With b a multiple of p, being one is the same as differing from b by one. */
  lemma SameClass(a: int, b: int, p: int)
    requires 0 < p && b % p == 0
    ensures a % p == 0 <==> (a - b) % p == 0
  {
    var k := b / p;
    assert b == k * p;
    ModAdd(a - b, k, p);
  }

  lemma NoMultipleInside(x: int, k: int, m: int)
    requires m > 0 && k * m < x < k * m + m
    ensures x % m != 0
  {
    ModIs(x, k, x - k * m, m);
  }
}
