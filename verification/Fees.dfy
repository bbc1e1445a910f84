/** The fee model: a rate on the notional, rounded once to the schedule's decimal places. */
module Fees {
  import opened Types
  import opened Arithmetic
  import opened ExactMoney

  datatype RoundingMode = HALF_UP | HALF_EVEN | UP | DOWN

  datatype FeeSchedule = FeeSchedule(
    market: Market,
    commissionRate: Money,
    sellTaxRate: Money,
    roundingDecimals: nat,
    roundingMode: RoundingMode
  ) {
    /** What creating a model from the schedule demands. */
    predicate Valid() {
      commissionRate >= 0 && sellTaxRate >= 0 && roundingDecimals <= 20
    }

    function Rate(side: Side): Money {
      commissionRate + if side == SELL then sellTaxRate else 0
    }

    /** The rounding unit, in grid units. */
    function Unit(): (u: int)
      requires Valid()
      ensures u >= 1
    {
      Pow10(PRECISION - roundingDecimals)
    }
  }

  /** A schedule a fee model was created from. */
  type PublishedSchedule = s: FeeSchedule | s.Valid() witness FeeSchedule(KR, 0, 0, 0, DOWN)

  /** One whole unit of money, in grid units. */
  const GRID: int := Pow10(PRECISION)

  /** `n / d` rounded to a whole number. */
  function RoundDiv(n: nat, d: int, mode: RoundingMode): (r: nat)
    requires d > 0
  {
    var quotient, remainder := n / d, n % d;
    var up := match mode
      case HALF_UP => 2 * remainder >= d
      case HALF_EVEN => 2 * remainder > d || (2 * remainder == d && quotient % 2 == 1)
      case UP => remainder > 0
      case DOWN => false;
    MulNonNegative(quotient, d);
    if up then quotient + 1 else quotient
  }

  /** The product of two money values, refused when it leaves the exact domain. */
  function CheckedProduct(a: Money, b: Money): Result<Money> {
    if a * b % GRID == 0 then Checked(a * b / GRID) else Err(INVARIANT_VIOLATION)
  }

  /** The fee model's `calculate`, every domain check included. */
  function Calculate(schedule: FeeSchedule, side: Side, price: Money, quantity: int): Result<Money>
    requires schedule.Valid()
  {
    var _ :- Check(quantity > 0, INVALID_QUANTITY);
    var _ :- Check(price > 0, INVALID_PRICE);
    var notional :- Checked(price * quantity);
    var commission :- CheckedProduct(notional, schedule.commissionRate);
    var sellTax :- if side == SELL then CheckedProduct(notional, schedule.sellTaxRate) else Ok(0);
    var raw :- Checked(commission + sellTax);
    var _ :- Check(raw >= 0, INVARIANT_VIOLATION);
    Checked(schedule.Unit() * RoundDiv(raw, schedule.Unit(), schedule.roundingMode))
  }

  /** The fee a notional costs: the exact rate applied and rounded, with no domain in the way. */
  function FeeOn(schedule: FeeSchedule, side: Side, notional: nat): (fee: nat)
    requires schedule.Valid()
  {
    MulNonNegative(notional, schedule.Rate(side));
    MulNonNegative(GRID - 1, schedule.Unit());
    var steps := RoundDiv(notional * schedule.Rate(side), GRID * schedule.Unit(), schedule.roundingMode);
    MulNonNegative(schedule.Unit(), steps);
    schedule.Unit() * steps
  }

  // ---- Rounding ----

  /** Rounding moves the value by at most half a step (HALF modes), or by less than one, in one direction. */
  lemma RoundDivBounds(n: nat, d: int, mode: RoundingMode)
    requires d > 0
    ensures mode in {HALF_UP, HALF_EVEN} ==> 2 * Abs(RoundDiv(n, d, mode) * d - n) <= d
    ensures mode == UP ==> 0 <= RoundDiv(n, d, mode) * d - n < d
    ensures mode == DOWN ==> 0 <= n - RoundDiv(n, d, mode) * d < d
  {
    DivMod(n, d);
    assert (n / d + 1) * d == n / d * d + d;
  }

  lemma RoundDivMonotone(n: nat, m: nat, d: int, mode: RoundingMode)
    requires d > 0 && n <= m
    ensures RoundDiv(n, d, mode) <= RoundDiv(m, d, mode)
  {
    DivMod(n, d);
    DivMod(m, d);
    if n / d > m / d {
      MulStrict(m / d, n / d, d);
    }
  }

  /**
    What rounding `n / d` to a whole number means: to the nearest, a tie up; to the nearest, a tie to
    the even number; to the next number; to the one before.
   */
  predicate RoundsTo(n: nat, d: int, mode: RoundingMode, r: nat) {
    match mode
    case HALF_UP => 2 * (r * d) - d <= 2 * n < 2 * (r * d) + d
    case HALF_EVEN => 2 * Abs(r * d - n) <= d && (2 * Abs(r * d - n) == d ==> r % 2 == 0)
    case UP => 0 <= r * d - n < d
    case DOWN => 0 <= n - r * d < d
  }

  lemma Rounds(n: nat, d: int, mode: RoundingMode)
    requires d > 0
    ensures RoundsTo(n, d, mode, RoundDiv(n, d, mode))
  {
    DivMod(n, d);
    assert (n / d + 1) * d == n / d * d + d;
  }

  lemma RoundsToOne(n: nat, d: int, mode: RoundingMode, r: nat, s: nat)
    requires d > 0 && RoundsTo(n, d, mode, r) && RoundsTo(n, d, mode, s)
    ensures r == s
  {
    if r < s {
      MulStrict(r, s, d);
      MulApart(r, s, d);
    } else if s < r {
      MulStrict(s, r, d);
      MulApart(s, r, d);
    }
  }

  lemma MulApart(r: nat, s: nat, d: int)
    requires d > 0 && r < s
    ensures s * d - r * d >= d
    ensures s * d - r * d == d ==> s == r + 1
  {
    MulStrict(r, s, d);
    if s > r + 1 {
      MulStrict(r + 1, s, d);
      assert (r + 1) * d == r * d + d;
    }
  }

  /** Each mode rounds to the one number its rule allows, ties included. */
  lemma RoundDivExactly(n: nat, d: int, mode: RoundingMode, r: nat)
    requires d > 0
    ensures r == RoundDiv(n, d, mode) <==> RoundsTo(n, d, mode, r)
  {
    Rounds(n, d, mode);
    if RoundsTo(n, d, mode, r) {
      RoundsToOne(n, d, mode, r, RoundDiv(n, d, mode));
    }
  }

  /** A ratio is rounded the same whichever common factor it is written with. */
  lemma RoundDivScale(n: nat, d: int, c: int, mode: RoundingMode)
    requires d > 0 && c > 0
    ensures n * c >= 0 && d * c > 0
    ensures RoundDiv(n * c, d * c, mode) == RoundDiv(n, d, mode)
  {
    MulNonNegative(n, c);
    MulStrict(0, d, c);
    DivMod(n, d);
    var q, r := n / d, n % d;
    assert n * c == q * (d * c) + r * c by {
      Assoc(q, d, c);
      assert (q * d + r) * c == q * d * c + r * c;
    }
    MulNonNegative(r, c);
    MulStrict(r, d, c);
    DivUnique(n * c, d * c, q, r * c);
    CompareScaled(2 * r, d, c);
    CompareScaled(r, 0, c);
    assert 2 * (r * c) == (2 * r) * c;
  }

  lemma CompareScaled(a: int, b: int, c: int)
    requires c > 0
    ensures a * c < b * c <==> a < b
    ensures a * c == b * c <==> a == b
  {
    if a < b {
      MulStrict(a, b, c);
    } else if b < a {
      MulStrict(b, a, c);
    }
  }

  // ---- The fee ----

  /** When no domain check refuses, the model returns the rounded exact fee. */
  lemma CalculateIsFeeOn(schedule: FeeSchedule, side: Side, price: Money, quantity: int)
    requires schedule.Valid()
    requires Calculate(schedule, side, price, quantity).Ok?
    ensures price > 0 && quantity > 0 && price * quantity > 0
    ensures Calculate(schedule, side, price, quantity).value == FeeOn(schedule, side, price * quantity)
  {
    MulStrict(0, price, quantity);
    var notional := price * quantity;
    var c, t := schedule.commissionRate, if side == SELL then schedule.sellTaxRate else 0;
    MulNonNegative(notional, c);
    MulNonNegative(notional, t);
    var raw := RawFee(notional, c, t, GRID);
    RoundDivScale(raw, schedule.Unit(), GRID, schedule.roundingMode);
    Swap(schedule.Unit(), GRID);
  }

  lemma RawFee(n: int, c: int, t: int, g: int) returns (raw: int)
    requires g > 0 && n * c % g == 0 && n * t % g == 0 && n * c >= 0 && n * t >= 0
    ensures raw == n * c / g + n * t / g && raw >= 0
    ensures raw * g == n * (c + t)
  {
    DivMod(n * c, g);
    DivMod(n * t, g);
    raw := n * c / g + n * t / g;
    Spread(n * c / g, n * t / g, g);
    assert n * c + n * t == n * (c + t);
  }

  lemma Spread(a: int, b: int, c: int)
    ensures (a + b) * c == a * c + b * c
  {
  }

  lemma FeeSteps(schedule: FeeSchedule, side: Side, notional: nat) returns (steps: nat)
    requires schedule.Valid()
    ensures FeeOn(schedule, side, notional) == steps * schedule.Unit()
    ensures notional * schedule.Rate(side) >= 0
    ensures RoundsTo(notional * schedule.Rate(side), GRID * schedule.Unit(), schedule.roundingMode, steps)
  {
    hide RoundsTo, RoundDiv, Pow10;
    MulNonNegative(notional, schedule.Rate(side));
    MulStrict(0, GRID, schedule.Unit());
    steps := RoundDiv(notional * schedule.Rate(side), GRID * schedule.Unit(), schedule.roundingMode);
    Rounds(notional * schedule.Rate(side), GRID * schedule.Unit(), schedule.roundingMode);
    Swap(schedule.Unit(), steps);
  }

  /**
    A fee the model accepts is a whole number of rounding units: as many as the commission on the
    notional, and for a sale the tax on it, come to when rounded once in the schedule's mode.
   */
  lemma FeeExactly(schedule: FeeSchedule, side: Side, price: Money, quantity: int) returns (steps: nat)
    requires schedule.Valid() && Calculate(schedule, side, price, quantity).Ok?
    ensures price * quantity > 0
    ensures var unit := Pow10(PRECISION - schedule.roundingDecimals);
            var rate := if side == SELL then schedule.commissionRate + schedule.sellTaxRate
                        else schedule.commissionRate;
            && Calculate(schedule, side, price, quantity).value == steps * unit
            && price * quantity * rate >= 0
            && RoundsTo(price * quantity * rate, Pow10(PRECISION) * unit, schedule.roundingMode, steps)
  {
    hide Calculate, FeeOn, RoundsTo, RoundDiv, Pow10;
    CalculateIsFeeOn(schedule, side, price, quantity);
    steps := FeeSteps(schedule, side, price * quantity);
  }

  /** The distance of a HALF_UP fee from the exact one is at most half a rounding unit. */
  lemma HalfUpFeeBound(schedule: FeeSchedule, side: Side, notional: nat)
    requires schedule.Valid() && schedule.roundingMode == HALF_UP
    ensures 2 * Abs(FeeOn(schedule, side, notional) * GRID - notional * schedule.Rate(side))
         <= GRID * schedule.Unit()
  {
    MulNonNegative(notional, schedule.Rate(side));
    MulStrict(0, GRID, schedule.Unit());
    var d := GRID * schedule.Unit();
    var n := notional * schedule.Rate(side);
    RoundDivBounds(n, d, HALF_UP);
    var steps := RoundDiv(n, d, HALF_UP);
    FactorOut(schedule.Unit(), steps, GRID);
  }

  lemma FactorOut(u: int, s: int, g: int)
    ensures (u * s) * g == s * (g * u)
  {
    assert (u * s) * g == s * (u * g);
  }

  lemma FeeMonotone(schedule: FeeSchedule, side: Side, small: nat, large: nat)
    requires schedule.Valid() && small <= large
    ensures FeeOn(schedule, side, small) <= FeeOn(schedule, side, large)
  {
    var rate := schedule.Rate(side);
    MulMono(small, large, rate);
    MulNonNegative(small, rate);
    MulStrict(0, GRID, schedule.Unit());
    var d := GRID * schedule.Unit();
    RoundDivMonotone(small * rate, large * rate, d, schedule.roundingMode);
    MulMono(RoundDiv(small * rate, d, schedule.roundingMode), RoundDiv(large * rate, d, schedule.roundingMode),
            schedule.Unit());
  }

  // ---- When a fee is at most what it is charged on ----

  /** What the rate, the rounding mode and the rounding unit have to satisfy together. */
  predicate FeesCovered(schedule: FeeSchedule, side: Side)
    requires schedule.Valid()
  {
    var rate, unit := schedule.Rate(side), schedule.Unit();
    match schedule.roundingMode
    case DOWN => rate <= GRID
    case UP => rate == 0
    case HALF_UP => 2 * (rate * (unit - 1)) < GRID * unit
    case HALF_EVEN => 2 * (rate * (unit - 1)) <= GRID * unit
  }

  lemma UnitIsLarge(schedule: FeeSchedule)
    requires schedule.Valid()
    ensures schedule.Unit() > 2
  {
    assert PRECISION - schedule.roundingDecimals >= 1;
    Pow10Mono(1, PRECISION - schedule.roundingDecimals);
  }

  /** A HALF rounding of something short of s units of notional stays short of s steps. */
  lemma HalfAlgebra(n: int, r: int, g: int, u: int, s: int)
    requires s >= 1 && u > 2 && g > 0 && r >= 0 && 0 <= n < u * s
    requires 2 * (r * (u - 1)) <= g * u && 2 * (s * (g * u) - n * r) <= g * u
    ensures s == 1 && 2 * (n * r) == g * u && 2 * (r * (u - 1)) == g * u
  {
    var d, m := g * u, u * s - 1;
    MulStrict(0, g, u);
    MulMono(n, m, r);
    assert (2 * s - 1) * d <= 2 * (m * r) by {
      assert (2 * s - 1) * d == 2 * (s * d) - d;
    }
    MulMono((2 * s - 1) * d, 2 * (m * r), u - 1);
    MulMono(2 * (r * (u - 1)), d, m) by { MulMono(1, s, u); Swap(u, s); }
    Rearranged(m, r, u - 1);
    Rearranged2(2 * s - 1, d, u - 1);
    Swap(d, m);
    if (2 * s - 1) * (u - 1) > m {
      MulStrict(m, (2 * s - 1) * (u - 1), d);
    }
    Expanded(s, u);
    if s > 1 {
      MulStrict(0, s - 1, u - 2);
    }
    assert s == 1;
    assert u * 1 == u && 1 * d == d;
    Swap(r, u - 1);
  }

  lemma Rearranged(m: int, r: int, v: int)
    ensures 2 * (m * r) * v == 2 * (r * v) * m
  {
    assert (m * r) * v == (r * v) * m by { Assoc(m, r, v); Swap(m, r * v); }
  }

  lemma Rearranged2(a: int, d: int, v: int)
    ensures a * d * v == (a * v) * d
  {
    Assoc(a, d, v);
    Swap(d, v);
    Assoc(a, v, d);
  }

  lemma Expanded(s: int, u: int)
    ensures (2 * s - 1) * (u - 1) - (u * s - 1) == (s - 1) * (u - 2)
  {
    assert (2 * s - 1) * (u - 1) == 2 * (s * u) - 2 * s - u + 1;
    assert (s - 1) * (u - 2) == s * u - 2 * s - u + 2;
    Swap(s, u);
  }

  /** Below the half nothing is charged. */
  lemma HalfWay(n: nat, d: int)
    requires d > 0 && 2 * n == d
    ensures RoundDiv(n, d, HALF_EVEN) == 0
  {
    DivUnique(n, d, 0, n);
  }

  lemma HalfReached(n: nat, d: int, mode: RoundingMode)
    requires d > 0 && (mode == HALF_UP ==> 2 * n >= d) && (mode == HALF_EVEN ==> 2 * n > d) && (mode == UP ==> n > 0)
    requires mode != DOWN
    ensures RoundDiv(n, d, mode) >= 1
  {
    if n < d {
      DivUnique(n, d, 0, n);
    } else {
      DivMod(n, d);
      if n / d < 1 { MulMono(n / d, 0, d); }
    }
  }

  lemma TruncatedWithin(n: nat, r: nat, g: int, u: int, s: int)
    requires g > 0 && r <= g && s * (g * u) <= n * r
    ensures u * s <= n
  {
    MulMono(r, g, n);
    Swap(n, r);
    FactorOut(u, s, g);
    Swap(n, g);
    if u * s > n {
      MulStrict(n, u * s, g);
    }
  }

  lemma RoundedWithin(n: nat, r: nat, u: int, mode: RoundingMode)
    requires u > 2 && n * r >= 0 && GRID * u > 0
    requires match mode
             case DOWN => r <= GRID
             case UP => r == 0
             case HALF_UP => 2 * (r * (u - 1)) < GRID * u
             case HALF_EVEN => 2 * (r * (u - 1)) <= GRID * u
    ensures u * RoundDiv(n * r, GRID * u, mode) <= n
  {
    hide Pow10, RoundDiv;
    var s := RoundDiv(n * r, GRID * u, mode);
    RoundDivBounds(n * r, GRID * u, mode);
    if 2 * (n * r) == GRID * u {
      HalfWay(n * r, GRID * u);
    }
    if s == 0 {
      NothingRounded(u);
    } else {
      match mode {
        case DOWN => TruncatedWithin(n, r, GRID, u, s);
        case UP => NothingRounded(n);
        case _ =>
          if u * s > n {
            HalfAlgebra(n, r, GRID, u, s);
          }
      }
    }
  }

  lemma CoveredCharge(schedule: FeeSchedule, side: Side, notional: nat)
    requires schedule.Valid() && FeesCovered(schedule, side)
    ensures FeeOn(schedule, side, notional) <= notional
  {
    hide Pow10, RoundDiv;
    UnitIsLarge(schedule);
    MulNonNegative(notional, schedule.Rate(side));
    MulStrict(0, GRID, schedule.Unit());
    RoundedWithin(notional, schedule.Rate(side), schedule.Unit(), schedule.roundingMode);
  }

  /** A notional whose fee is more than itself, when the condition fails. */
  lemma Overcharged(schedule: FeeSchedule, side: Side) returns (notional: nat)
    requires schedule.Valid() && !FeesCovered(schedule, side)
    ensures FeeOn(schedule, side, notional) > notional
  {
    var r, u, mode := schedule.Rate(side), schedule.Unit(), schedule.roundingMode;
    UnitIsLarge(schedule);
    MulStrict(0, GRID, u);
    hide Pow10, RoundDiv;
    var d := GRID * u;
    if mode == DOWN {
      notional := d;
      MulNonNegative(d, r);
      Swap(d, r);
      WholeSteps(r, d);
      MulStrict(GRID, r, u);
      Swap(u, r);
    } else {
      notional := if mode == UP then 1 else u - 1;
      MulNonNegative(notional, r);
      assert mode == UP ==> 1 * r == r;
      Swap(r, u - 1);
      HalfReached(notional * r, d, mode);
      MulMono(1, RoundDiv(notional * r, d, mode), u);
      Swap(u, RoundDiv(notional * r, d, mode));
    }
  }

  lemma WholeSteps(r: nat, d: int)
    requires d > 0
    ensures r * d >= 0 && RoundDiv(r * d, d, DOWN) == r
  {
    MulNonNegative(r, d);
    DivUnique(r * d, d, r, 0);
  }

  /**
    No fee exceeds what it is charged on exactly when: truncating, the rate is at most 100%;
    rounding up, there is no rate at all; rounding halves up, twice the rate of one unit less a grid
    step stays below the unit; rounding halves to even, it does not pass it.
   */
  lemma FeeWithinNotionalExactly(schedule: FeeSchedule, side: Side)
    requires schedule.Valid()
    ensures (forall notional: nat :: FeeOn(schedule, side, notional) <= notional) <==> FeesCovered(schedule, side)
  {
    if FeesCovered(schedule, side) {
      forall notional: nat ensures FeeOn(schedule, side, notional) <= notional {
        CoveredCharge(schedule, side, notional);
      }
    } else {
      var notional := Overcharged(schedule, side);
    }
  }

  // ---- A schedule that charges nothing ----

  const FREE: PublishedSchedule := FeeSchedule(KR, 0, 0, 0, DOWN)

  lemma ZeroFits()
    ensures Exact(0)
  {
  }

  lemma NothingOf(n: Money)
    ensures CheckedProduct(n, 0) == Ok(0)
  {
    ZeroFits();
    hide Exact, Pow10;
    assert n * 0 == 0;
  }

  lemma NothingRounded(unit: int)
    ensures unit * 0 == 0
    ensures unit > 0 ==> RoundDiv(0, unit, DOWN) == 0
  {
  }

  lemma FreeOfCharge(side: Side, price: Money, quantity: int)
    requires price > 0 && quantity > 0 && Exact(price * quantity)
    ensures Calculate(FREE, side, price, quantity) == Ok(0)
  {
    hide Exact, Pow10, CheckedProduct, RoundDiv;
    ZeroFits();
    NothingOf(price * quantity);
    NothingRounded(FREE.Unit());
  }
}
