/** Quotient and remainder by a symbolic modulus. */
module Modular {

  lemma QuotientUnique(x: nat, m: nat, q: nat, r: nat)
    requires r < m && x == q * m + r
    ensures x / m == q && x % m == r
  {
    var k := x / m;
    assert x == k * m + x % m;
    if q > k {
      MulStep(q, k, m);
    } else if q < k {
      MulStep(k, q, m);
    }
  }

  lemma MulStep(a: nat, b: nat, m: nat)
    requires a > b
    ensures a * m >= b * m + m
  {
    assert a * m == (a - b - 1) * m + b * m + m;
  }

  lemma DistinctSlots(a: nat, b: nat, m: nat)
    requires m > 0 && a < b < a + m
    ensures a % m != b % m
  {
    var q, r := a / m, a % m + (b - a);
    assert a == q * m + a % m;
    if r < m {
      QuotientUnique(b, m, q, r);
    } else {
      assert (q + 1) * m == q * m + m;
      QuotientUnique(b, m, q + 1, r - m);
    }
  }

  lemma SameSlot(a: nat, m: nat)
    requires 0 < m <= a
    ensures a % m == (a - m) % m
  {
    var q := (a - m) / m;
    assert a - m == q * m + (a - m) % m;
    assert (q + 1) * m == q * m + m;
    QuotientUnique(a, m, q + 1, (a - m) % m);
  }
}
