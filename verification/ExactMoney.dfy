/**
  The exact-money domain and the working precision of its arithmetic.

  An accepted value has at most `PRECISION` significant digits, integer digits and decimal
  places. Such a value is a whole number of grid units of 10^-PRECISION, so the module works on
  integers. Arithmetic is done by an engine that rounds every result half away from zero to a
  number of significant digits; the theorems say how many digits it needs.
 */
module ExactMoney {
  import opened Types
  import opened Arithmetic

  const PRECISION: nat := 80
  const WORKING_PRECISION: nat := PRECISION * 2 + 1

  function Pow10(k: nat): (r: int)
    ensures r >= 1
  {
    if k == 0 then 1 else 10 * Pow10(k - 1)
  }

  /** The number of decimal digits of a natural number; zero has none. */
  function Digits(n: nat): nat {
    if n == 0 then 0 else Digits(n / 10) + 1
  }

  /** `n` without its trailing zeros. */
  function Strip(n: nat): (s: nat)
    ensures s <= n
  {
    if n > 0 && n % 10 == 0 then Strip(n / 10) else n
  }

  function SignificantDigits(n: int): nat {
    Digits(Strip(Abs(n)))
  }

  /** The domain check on `n` grid units of 10^-p: at most p significant, integer and decimal digits. */
  predicate InDomain(n: int, p: nat) {
    Digits(Abs(n)) <= 2 * p && SignificantDigits(n) <= p
  }

  predicate Exact(n: Money) {
    InDomain(n, PRECISION)
  }

  function Checked(n: Money): Result<Money> {
    if Exact(n) then Ok(n) else Err(INVARIANT_VIOLATION)
  }

  /** One result of the arithmetic engine: rounded half away from zero to `p` significant digits. */
  function RoundSignificant(x: int, p: nat): int {
    var drop := Digits(Abs(x)) - p;
    if drop <= 0 then x else
      var unit := Pow10(drop);
      var magnitude := (Abs(x) + unit / 2) / unit * unit;
      if x < 0 then -magnitude else magnitude
  }

  // ---- Powers of ten and digit counts ----

  lemma {:induction false} Pow10Add(a: nat, b: nat)
    ensures Pow10(a + b) == Pow10(a) * Pow10(b)
  {
    if a > 0 {
      Pow10Add(a - 1, b);
      assert Pow10(a + b) == 10 * (Pow10(a - 1) * Pow10(b)) == (10 * Pow10(a - 1)) * Pow10(b);
    }
  }

  lemma {:induction false} Pow10Mono(a: nat, b: nat)
    requires a <= b
    ensures Pow10(a) <= Pow10(b)
  {
    if a < b {
      Pow10Mono(a, b - 1);
    }
  }

  lemma {:induction false} DigitsBelow(n: nat, p: nat)
    ensures Digits(n) <= p <==> n < Pow10(p)
  {
    if n > 0 && p > 0 {
      DigitsBelow(n / 10, p - 1);
    }
  }

  lemma {:induction false} StripScale(n: nat) returns (k: nat)
    ensures n == Strip(n) * Pow10(k)
  {
    if n > 0 && n % 10 == 0 {
      var j := StripScale(n / 10);
      k := j + 1;
      TenTimes(n, Strip(n / 10), Pow10(j), Pow10(k));
    } else {
      k := 0;
    }
  }

  lemma TenTimes(n: int, m: int, a: int, b: int)
    requires n % 10 == 0 && n / 10 == m * a && b == 10 * a
    ensures n == m * b
  {
    assert m * (10 * a) == 10 * (m * a);
  }

  lemma StripTen(n: nat)
    requires n > 0
    ensures Strip(10 * n) == Strip(n)
  {
  }

  lemma {:induction false} StripTimes(m: nat, k: nat)
    ensures m * Pow10(k) >= 0
    ensures Strip(m * Pow10(k)) == Strip(m)
  {
    MulNonNegative(m, Pow10(k));
    if m > 0 && k > 0 {
      StripTimes(m, k - 1);
      MulStrict(0, m, Pow10(k - 1));
      StripTen(m * Pow10(k - 1));
      TimesTen(m, Pow10(k - 1), Pow10(k));
    }
  }

  lemma TimesTen(m: int, a: int, b: int)
    requires b == 10 * a
    ensures m * b == 10 * (m * a)
  {
  }

  lemma AbsProduct(a: int, b: int)
    ensures Abs(a * b) == Abs(a) * Abs(b)
  {
    MulNonNegative(Abs(a), Abs(b));
    assert (-a) * b == -(a * b) && a * (-b) == -(a * b) && (-a) * (-b) == a * b;
  }

  /** A value with p significant digits is an integer below 10^p followed by zeros, and conversely. */
  lemma Scaled(n: int, p: nat) returns (m: int, k: nat)
    requires SignificantDigits(n) <= p
    ensures n == m * Pow10(k) && Abs(m) < Pow10(p)
  {
    k := StripScale(Abs(n));
    DigitsBelow(Strip(Abs(n)), p);
    m := Strip(Abs(n));
    if n < 0 {
      m := -m;
      assert (-m) * Pow10(k) == -(m * Pow10(k));
    }
  }

  lemma ScaledFits(n: int, m: int, k: nat, p: nat)
    requires n == m * Pow10(k) && Abs(m) < Pow10(p)
    ensures SignificantDigits(n) <= p
  {
    AbsProduct(m, Pow10(k));
    StripTimes(Abs(m), k);
    DigitsBelow(Strip(Abs(m)), p);
  }

  // ---- The engine leaves short values alone ----

  lemma RoundedMultiple(a: nat, unit: int)
    requires unit > 0
    ensures (a * unit + unit / 2) / unit * unit == a * unit
  {
    DivUnique(a * unit + unit / 2, unit, a, unit / 2);
  }

  /** A value with few significant digits is a multiple of everything its digit count would drop. */
  lemma DroppedUnitDivides(x: int, p: nat) returns (a: nat)
    requires SignificantDigits(x) <= p < Digits(Abs(x))
    ensures Abs(x) == a * Pow10(Digits(Abs(x)) - p)
  {
    var drop := Digits(Abs(x)) - p;
    var m, k := Scaled(x, p);
    AbsProduct(m, Pow10(k));
    assert drop <= k by {
      MulStrict(Abs(m), Pow10(p), Pow10(k));
      Pow10Add(p, k);
      DigitsBelow(Abs(x), p + k);
    }
    Pow10Add(k - drop, drop);
    MulNonNegative(Abs(m), Pow10(k - drop));
    a := Abs(m) * Pow10(k - drop);
    Assoc(Abs(m), Pow10(k - drop), Pow10(drop));
  }

  lemma RoundingKeeps(x: int, p: nat)
    requires SignificantDigits(x) <= p
    ensures RoundSignificant(x, p) == x
  {
    if Digits(Abs(x)) > p {
      var a := DroppedUnitDivides(x, p);
      RoundedMultiple(a, Pow10(Digits(Abs(x)) - p));
    }
  }

  /** An engine of p digits leaves a value alone exactly when it has at most p significant digits. */
  lemma RoundingKeepsExactly(x: int, p: nat)
    ensures RoundSignificant(x, p) == x <==> SignificantDigits(x) <= p
  {
    if SignificantDigits(x) <= p {
      RoundingKeeps(x, p);
    } else if RoundSignificant(x, p) == x {
      var drop := Digits(Abs(x)) - p;
      assert drop > 0 by { FewerStripped(Abs(x)); }
      var unit := Pow10(drop);
      var m := (Abs(x) + unit / 2) / unit;
      assert Abs(x) == m * unit;
      DigitsBelow(Abs(x), p + drop);
      Pow10Add(p, drop);
      if m < 0 { MulStrict(m, 0, unit); }
      if m >= Pow10(p) { MulMono(Pow10(p), m, unit); }
      ScaledFits(Abs(x), m, drop, p);
      assert false;
    }
  }

  /** What it rounds to has at most that many. */
  lemma RoundedFits(x: int, p: nat)
    requires p > 0
    ensures SignificantDigits(RoundSignificant(x, p)) <= p
  {
    var drop := Digits(Abs(x)) - p;
    if drop > 0 {
      var unit := Pow10(drop);
      var m := (Abs(x) + unit / 2) / unit;
      RoundedAtMost(Abs(x), unit, Pow10(p)) by {
        DigitsBelow(Abs(x), p + drop);
        Pow10Add(p, drop);
      }
      if m == Pow10(p) {
        Pow10Add(p, drop);
        ScaledFits(m * unit, 1, p + drop, p);
      } else {
        ScaledFits(m * unit, m, drop, p);
      }
    } else {
      FewerStripped(Abs(x));
    }
  }

  lemma RoundedAtMost(n: nat, unit: int, top: int)
    requires unit > 0 && n < top * unit
    ensures 0 <= (n + unit / 2) / unit <= top
    ensures (n + unit / 2) / unit * unit >= 0
  {
    var m := (n + unit / 2) / unit;
    DivMod(n + unit / 2, unit);
    if m < 0 { MulStrict(m, 0, unit); }
    if m > top { MulStrict(top, m, unit); }
    MulNonNegative(m, unit);
  }

  lemma {:induction false} FewerStripped(n: nat)
    ensures Digits(Strip(n)) <= Digits(n)
  {
    if n > 0 && n % 10 == 0 {
      FewerStripped(n / 10);
    }
  }

  /** The bound on integer digits, as a power of ten. */
  lemma DomainBound(n: int, p: nat)
    ensures InDomain(n, p) <==> Abs(n) < Pow10(2 * p) && SignificantDigits(n) <= p
  {
    DigitsBelow(Abs(n), 2 * p);
  }

  /** Whole numbers of at most p digits are in the domain. */
  lemma SmallFits(n: int, p: nat)
    requires Abs(n) < Pow10(p)
    ensures InDomain(n, p) && SignificantDigits(n) <= p
  {
    Pow10Mono(p, 2 * p);
    ScaledFits(n, n, 0, p);
    DomainBound(n, p);
  }

  // ---- How many digits an operation on two accepted values needs ----

  /** An accepted value scaled by 10^k stays a margin of 10^min(k, p) below the top of the domain. */
  lemma DomainMargin(n: int, m: int, p: nat, k: nat)
    requires n == m * Pow10(k) && Abs(m) < Pow10(p) && Abs(n) < Pow10(2 * p)
    ensures Abs(n) <= Pow10(2 * p) - Pow10(if k <= p then k else p)
  {
    AbsProduct(m, Pow10(k));
    if k <= p {
      Pow10Add(p, k);
      MulStrict(Abs(m), Pow10(p), Pow10(k));
      Pow10Mono(p + k, 2 * p);
    } else if k <= 2 * p {
      Pow10Add(2 * p - k, k);
      if Abs(m) >= Pow10(2 * p - k) {
        MulMono(Pow10(2 * p - k), Abs(m), Pow10(k));
      }
      MulStrict(Abs(m), Pow10(2 * p - k), Pow10(k));
      Pow10Mono(p, k);
    } else {
      Pow10Mono(2 * p, k);
      if Abs(m) >= 1 {
        MulMono(1, Abs(m), Pow10(k));
      }
      Pow10Mono(p, 2 * p);
    }
  }

  /** One term reaches down to the grid unit: then it has few digits and the other leaves a margin. */
  lemma SumFitsAtGrid(a: int, b: int, p: nat, mb: int, k: nat)
    requires p > 0 && Abs(a) < Pow10(p)
    requires b == mb * Pow10(k) && Abs(mb) < Pow10(p) && Abs(b) < Pow10(2 * p)
    ensures SignificantDigits(a + b) <= 2 * p
  {
    DomainMargin(b, mb, p, k);
    if k < p {
      AbsProduct(mb, Pow10(k));
      Pow10Add(p, k);
      MulStrict(Abs(mb), Pow10(p), Pow10(k));
      Pow10Mono(p + k, 2 * p - 1);
      Pow10Mono(p, 2 * p - 1);
    }
    ScaledFits(a + b, a + b, 0, 2 * p);
  }

  /** Neither does: then both are ten times smaller in the coarser unit. */
  lemma SumFitsAbove(a: int, b: int, p: nat, ma: int, j: nat, mb: int, k: nat)
    requires 0 < j <= k
    requires a == ma * Pow10(j) && Abs(a) < Pow10(2 * p)
    requires b == mb * Pow10(k) && Abs(b) < Pow10(2 * p)
    ensures SignificantDigits(a + b) <= 2 * p
  {
    Pow10Add(k - j, j);
    var shifted := mb * Pow10(k - j);
    Assoc(mb, Pow10(k - j), Pow10(j));
    Distribute(ma, shifted, Pow10(j));
    Pow10Mono(1, j);
    AbsProduct(ma, Pow10(j));
    AbsProduct(shifted, Pow10(j));
    Tenfold(Abs(ma), Pow10(j));
    Tenfold(Abs(shifted), Pow10(j));
    ScaledFits(a + b, ma + shifted, j, 2 * p);
  }

  lemma Distribute(a: int, b: int, c: int)
    ensures a * c + b * c == (a + b) * c
  {
  }

  lemma Tenfold(m: nat, unit: int)
    requires unit >= 10
    ensures m * unit >= 10 * m
  {
    MulMono(10, unit, m);
  }

  /** The sum of two accepted values needs at most 2p significant digits. */
  lemma SumFits(a: int, b: int, p: nat)
    requires InDomain(a, p) && InDomain(b, p)
    ensures SignificantDigits(a + b) <= 2 * p
  {
    hide InDomain, SignificantDigits;
    DomainBound(a, p);
    DomainBound(b, p);
    if p == 0 {
      ScaledFits(0, 0, 0, 0);
    } else {
      var ma, j := Scaled(a, p);
      var mb, k := Scaled(b, p);
      if j == 0 {
        SumFitsAtGrid(a, b, p, mb, k);
      } else if k == 0 {
        SumFitsAtGrid(b, a, p, ma, j);
      } else if j <= k {
        SumFitsAbove(a, b, p, ma, j, mb, k);
      } else {
        SumFitsAbove(b, a, p, mb, k, ma, j);
      }
    }
  }

  /** So does the product, which lives on the finer grid of 10^-2p. */
  lemma ProductFits(a: int, b: int, p: nat)
    requires InDomain(a, p) && InDomain(b, p)
    ensures SignificantDigits(a * b) <= 2 * p
  {
    var ma, j := Scaled(a, p);
    var mb, k := Scaled(b, p);
    Pow10Add(j, k);
    Regroup(ma, Pow10(j), mb, Pow10(k));
    AbsProduct(ma, mb);
    Pow10Add(p, p);
    MulMono(Abs(mb), Pow10(p), Abs(ma));
    assert Abs(ma) * Abs(mb) == Abs(mb) * Abs(ma);
    MulStrict(Abs(ma), Pow10(p), Pow10(p));
    assert Pow10(p) * Abs(ma) == Abs(ma) * Pow10(p);
    ScaledFits(a * b, ma * mb, j + k, 2 * p);
  }

  lemma Regroup(a: int, b: int, c: int, d: int)
    ensures (a * b) * (c * d) == (a * c) * (b * d)
  {
    assert (a * b) * (c * d) == a * (b * (c * d)) == a * (c * (b * d)) == (a * c) * (b * d);
  }

  /**
    With a working precision of 2p digits or more, the engine computes the sum, the difference
    and the product of two accepted values exactly, so a domain check of the result judges the
    true result.
   */
  lemma WorkingPrecisionSuffices(a: int, b: int, p: nat, w: nat)
    requires InDomain(a, p) && InDomain(b, p) && w >= 2 * p
    ensures RoundSignificant(a + b, w) == a + b
    ensures RoundSignificant(a - b, w) == a - b
    ensures RoundSignificant(a * b, w) == a * b
  {
    SumFits(a, b, p);
    SumFits(a, -b, p);
    ProductFits(a, b, p);
    RoundingKeeps(a + b, w);
    RoundingKeeps(a - b, w);
    RoundingKeeps(a * b, w);
  }

  /** The configured 161 digits are enough for every pair of accepted values. */
  lemma ConfiguredPrecisionSuffices(a: Money, b: Money)
    requires Exact(a) && Exact(b)
    ensures RoundSignificant(a + b, WORKING_PRECISION) == a + b
    ensures RoundSignificant(a - b, WORKING_PRECISION) == a - b
    ensures RoundSignificant(a * b, WORKING_PRECISION) == a * b
  {
    WorkingPrecisionSuffices(a, b, PRECISION, WORKING_PRECISION);
  }

  /** Fewer than 2p digits are not: the largest integer plus the largest fraction needs all of them. */
  lemma FewerDigitsLose(p: nat, w: nat) returns (a: int, b: int)
    requires p > 0 && w < 2 * p
    ensures InDomain(a, p) && InDomain(b, p)
    ensures RoundSignificant(a + b, w) != a + b
  {
    hide InDomain, SignificantDigits, RoundSignificant;
    var top := Pow10(2 * p);
    Pow10Add(p, p);
    a, b := (Pow10(p) - 1) * Pow10(p), Pow10(p) - 1;
    assert a == top - Pow10(p);
    ScaledFits(a, Pow10(p) - 1, p, p);
    DomainBound(a, p);
    SmallFits(b, p);
    Pow10Mono(1, p);
    Pow10Mono(p, 2 * p);
    AllNines(a + b, 2 * p, w);
  }

  lemma AllNines(x: nat, n: nat, w: nat)
    requires w < n && x == Pow10(n) - 1
    ensures RoundSignificant(x, w) != x
  {
    DigitsBelow(x, n - 1);
    var drop := Digits(x) - w;
    if RoundSignificant(x, w) == x {
      hide Digits;
      EndsInZero(x, (x + Pow10(drop) / 2) / Pow10(drop), Pow10(drop - 1));
      assert false;
    }
  }

  lemma EndsInZero(x: int, q: int, a: int)
    requires x == q * (10 * a)
    ensures x % 10 == 0
  {
    assert x == 10 * (q * a);
  }
}
