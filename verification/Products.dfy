/** Products and quotients of natural numbers. */
module Products {
  lemma Grow(a: nat, b: nat, d: nat)
    requires a <= b
    ensures a * d <= b * d
  {
    assert (b - a) * d >= 0;
  }

  lemma Strict(a: nat, b: nat, d: nat)
    requires a < b && d > 0
    ensures a * d < b * d
  {
    Grow(a + 1, b, d);
  }

  lemma Quotients(n: nat, d: nat)
    requires d > 0
    ensures n / d * d <= n < (n / d + 1) * d
  {
    assert n == n / d * d + n % d;
    assert (n / d + 1) * d == n / d * d + d;
  }

  lemma AtMost(q: nat, k: nat, n: nat, d: nat)
    requires q * d <= n && n <= k * d && d > 0
    ensures q <= k
  {
    if k < q {
      Strict(k, q, d);
    }
  }
}
