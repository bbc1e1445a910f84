/** The few facts about products and quotients the other modules lean on. */
module Arithmetic {

  lemma MulNonNegative(a: int, b: int)
    requires a >= 0 && b >= 0
    ensures a * b >= 0
  {
  }

  lemma Assoc(a: int, b: int, c: int)
    ensures a * (b * c) == (a * b) * c
  {
  }

  lemma Swap(a: int, b: int)
    ensures a * b == b * a
  {
  }

  lemma MulMono(a: int, b: int, c: int)
    requires a <= b && c >= 0
    ensures a * c <= b * c
  {
    MulNonNegative(b - a, c);
    assert (b - a) * c == b * c - a * c;
  }

  lemma MulStrict(a: int, b: int, c: int)
    requires a < b && c > 0
    ensures a * c < b * c
    ensures a * c + c <= b * c
  {
    MulMono(a + 1, b, c);
    assert (a + 1) * c == a * c + c;
  }

  lemma DivMod(n: int, d: int)
    requires d > 0
    ensures n == n / d * d + n % d && 0 <= n % d < d
  {
  }

  lemma DivUnique(n: int, d: int, q: int, r: int)
    requires d > 0 && n == q * d + r && 0 <= r < d
    ensures n / d == q && n % d == r
  {
    DivMod(n, d);
    if n / d < q {
      MulStrict(n / d, q, d);
    } else if n / d > q {
      MulStrict(q, n / d, d);
    }
  }

  lemma QuotientAtMost(n: int, d: int)
    requires n >= 0 && d > 0
    ensures 0 <= n / d <= n
  {
    var q := n / d;
    DivMod(n, d);
    if q < 0 {
      MulStrict(q, 0, d);
    } else {
      MulMono(1, d, q);
    }
  }
}
