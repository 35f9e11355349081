/** Facts about multiplication and division by a variable. */
module Arithmetic {
  lemma Monotone(a: int, b: int, k: int)
    requires a <= b && k >= 0
    ensures a * k <= b * k && (a + 1) * k == a * k + k
  { }

  lemma QuotientIs(n: int, d: int, q: int)
    requires d > 0 && q * d <= n < q * d + d
    ensures n / d == q
  {
    var found := n / d;
    assert n == found * d + n % d;
    if found > q { Monotone(q + 1, found, d); }
    if found < q { Monotone(found + 1, q, d); }
  }

  lemma DivideBounds(n: nat, d: nat)
    requires d > 0
    ensures n / d * d <= n < (n / d + 1) * d
  { }
}
