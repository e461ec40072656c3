/** A few facts of real arithmetic. A product is named `p`, so that what is said of it is plain linear
    arithmetic for whoever uses it. */
module Reals {
  lemma NonNegative(x: real, y: real, p: real)
    requires x >= 0.0 && y >= 0.0 && p == x * y
    ensures p >= 0.0
  {
  }

  lemma Positive(x: real, y: real, p: real)
    requires x > 0.0 && y > 0.0 && p == x * y
    ensures p > 0.0
  {
  }

  /** Comparing with a quotient is comparing the product. */
  lemma QuotientBound(n: real, q: real, x: real)
    requires q > 0.0
    ensures x >= n / q <==> x * q >= n
    ensures x <= n / q <==> x * q <= n
  {
    var y, p := n / q, x * q;
    assert y * q == n;
    if x > y { Positive(x - y, q, p - n); }
    if x < y { Positive(y - x, q, n - p); }
  }

  lemma BoundedProduct(x: real, y: real, m: real, n: real, p: real)
    requires -m <= x <= m && -n <= y <= n && p == x * y
    ensures -(m * n) <= p <= m * n
  {
    var q, a, b := m * n, m * y, x * n;
    NonNegative(m - x, n + y, q + a - b - p);
    NonNegative(m + x, n - y, q - a + b - p);
    NonNegative(m - x, n - y, q - a - b + p);
    NonNegative(m + x, n + y, q + a + b + p);
  }
}
