/** Small facts about products and quotients that the solver needs spelled out. */
module Arithmetic {

  lemma MulMono(a: int, b: int, c: int)
    requires a <= b && c >= 0
    ensures a * c <= b * c
  {
    assert (b - a) * c >= 0;
  }

  lemma MulCancel(a: int, b: int, c: int)
    requires c > 0 && a * c < b * c
    ensures a < b
  {
    if b <= a {
      MulMono(b, a, c);
    }
  }

  lemma QuotientUnique(q: int, n: int, r: int)
    requires 0 <= r < n
    ensures (q * n + r) / n == q && (q * n + r) % n == r
  {
    var k := (q * n + r) / n;
    assert (q + 1) * n == q * n + n;
    assert (k + 1) * n == k * n + n;
    MulCancel(k, q + 1, n);
    MulCancel(q, k + 1, n);
  }

  lemma MulBelow(a: int, m: int, b: int, n: int)
    requires 0 <= a < m && 0 <= b < n
    ensures 0 <= a * n + b < m * n
  {
    MulMono(a, m - 1, n);
    assert (m - 1) * n == m * n - n;
    MulMono(0, a, n);
  }

  lemma QuotientBelow(r: int, m: int, n: int)
    requires n > 0 && 0 <= r < m * n
    ensures 0 <= r / n < m
    ensures r == (r / n) * n + r % n && 0 <= r % n < n
  {
    MulCancel(r / n, m, n);
    MulCancel(-1, r / n, n);
  }

  lemma RealMulMono(a: real, b: real, c: real)
    requires a <= b && c >= 0.0
    ensures a * c <= b * c
  {
    assert (b - a) * c >= 0.0;
  }

  lemma RealMulStrict(a: real, b: real, c: real)
    requires a < b && c > 0.0
    ensures a * c < b * c
  {
    assert (b - a) * c > 0.0;
  }

  lemma RealMulCancel(a: real, b: real, c: real)
    requires c > 0.0 && a * c < b * c
    ensures a < b
  {
    if b <= a {
      RealMulMono(b, a, c);
    }
  }

  lemma RealDistribute(a: real, b: real, c: real)
    ensures (a + b) * c == a * c + b * c
  {
  }

  lemma PositiveQuotient(x: real, y: real)
    requires x > 0.0 && y > 0.0
    ensures x / y > 0.0 && y * (x / y) == x && (x / y) * y == x
  {
    if x / y <= 0.0 {
      RealMulMono(x / y, 0.0, y);
    }
  }

  lemma QuotientTimes(x: real, y: real)
    requires y > 0.0
    ensures (x / y) * y == x
  {
  }
}
