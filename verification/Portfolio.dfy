/** Cost basis and realised profit: what fills do to a position's cost, and what rounding does to its average. */
module Portfolio {
  import opened Types
  import opened Arithmetic
  import opened ExactMoney
  import opened Fees

  datatype PositionCost = PositionCost(quantity: int, totalCost: Money, realizedPnl: Money)

  datatype PositionFill = PositionFill(side: Side, price: Money, quantity: int, fee: Money)

  const DIVISION_DECIMAL_PLACES: nat := 10

  /** The unit an average or a removed cost is rounded to, in grid units. */
  const DIVISION_UNIT: int := Pow10(PRECISION - DIVISION_DECIMAL_PLACES)

  // ---- The one inexact operation ----

  /** How many digits below the grid unit a quotient carries at the working precision. */
  function QuotientScale(n: nat, d: int): (places: nat)
    requires d > 0
  {
    var wholeDigits := Digits(n / d);
    if wholeDigits < WORKING_PRECISION then WORKING_PRECISION - wholeDigits else 0
  }

  /**
    A weighted-cost division: the engine rounds the quotient to the working precision, and the
    result is rounded again, to ten decimal places.
   */
  function DivideAndRound(n: nat, d: int): (r: nat)
    requires d > 0
  {
    var scale := Pow10(QuotientScale(n, d));
    MulNonNegative(n, scale);
    var quotient := RoundDiv(n * scale, d, HALF_UP);
    MulStrict(0, scale, DIVISION_UNIT);
    var steps := RoundDiv(quotient, scale * DIVISION_UNIT, HALF_UP);
    MulNonNegative(DIVISION_UNIT, steps);
    DIVISION_UNIT * steps
  }

  /** Two roundings cost at most half the unit plus half a unit of the last carried place. */
  lemma DivideAndRoundError(n: nat, d: int)
    requires d > 0
    ensures var scale := Pow10(QuotientScale(n, d));
            2 * Abs(DivideAndRound(n, d) * d - n) * scale <= d * scale * DIVISION_UNIT + d
  {
    var scale := Pow10(QuotientScale(n, d));
    MulNonNegative(n, scale);
    MulStrict(0, scale, DIVISION_UNIT);
    var q := RoundDiv(n * scale, d, HALF_UP);
    var s := RoundDiv(q, scale * DIVISION_UNIT, HALF_UP);
    RoundDivBounds(n * scale, d, HALF_UP);
    RoundDivBounds(q, scale * DIVISION_UNIT, HALF_UP);
    TwoRoundings(n, d, scale, DIVISION_UNIT, q, s);
  }

  lemma TwoRoundings(n: int, d: int, scale: int, unit: int, q: int, s: int)
    requires d > 0 && scale > 0 && unit > 0
    requires 2 * Abs(q * d - n * scale) <= d
    requires 2 * Abs(s * (scale * unit) - q) <= scale * unit
    ensures 2 * Abs((unit * s) * d - n) * scale <= d * scale * unit + d
  {
    var first, second, whole := s * (scale * unit) - q, q * d - n * scale, unit * s * d - n;
    ScaleBound(first, scale * unit, d);
    Expand(n, d, scale, unit, q, s);
    AbsTimes(whole, scale);
    AddBounds(whole, scale, first * d, second, scale * unit * d, d);
    Rotate(d, scale, unit);
  }

  lemma Rotate(a: int, b: int, c: int)
    ensures a * b * c == b * c * a
  {
  }

  lemma AddBounds(t: int, scale: int, x: int, y: int, boundX: int, boundY: int)
    requires t * scale == x + y && Abs(t * scale) == Abs(t) * scale
    requires 2 * Abs(x) <= boundX && 2 * Abs(y) <= boundY
    ensures 2 * Abs(t) * scale <= boundX + boundY
  {
  }

  lemma Expand(n: int, d: int, scale: int, unit: int, q: int, s: int)
    ensures (unit * s * d - n) * scale == (s * (scale * unit) - q) * d + (q * d - n * scale)
  {
    calc {
      (unit * s * d - n) * scale;
      (unit * s * d) * scale - n * scale;
      { Shuffle(unit, s, d, scale); }
      s * (scale * unit) * d - n * scale;
      (s * (scale * unit) - q) * d + q * d - n * scale;
    }
  }

  lemma Shuffle(a: int, b: int, c: int, e: int)
    ensures (a * b * c) * e == b * (e * a) * c
  {
    assert (a * b * c) * e == (a * b) * (c * e) == (a * b) * (e * c) == ((a * b) * e) * c;
    assert (a * b) * e == b * (e * a);
  }

  lemma ScaleBound(x: int, bound: int, d: int)
    requires d > 0 && 2 * Abs(x) <= bound
    ensures 2 * Abs(x * d) <= bound * d
  {
    AbsTimes(x, d);
    MulMono(2 * Abs(x), bound, d);
  }

  lemma AbsTimes(x: int, d: int)
    requires d > 0
    ensures Abs(x * d) == Abs(x) * d
  {
    if x < 0 {
      MulNonNegative(-x, d);
      assert (-x) * d == -(x * d);
    } else {
      MulNonNegative(x, d);
    }
  }

  // ---- Applying a fill ----

  predicate WellFormed(p: PositionCost) {
    p.quantity >= 0 && p.totalCost >= 0 && (p.quantity == 0 ==> p.totalCost == 0)
  }

  /** The cost a sale takes out of a position: all of it on liquidation, its rounded share otherwise. */
  function CostRemoved(position: PositionCost, quantity: int): (r: Result<Money>)
    requires WellFormed(position) && 0 < quantity <= position.quantity
    ensures r.Ok? ==> 0 <= r.value <= position.totalCost
    ensures r.Ok? && quantity == position.quantity ==> r.value == position.totalCost
  {
    if quantity == position.quantity then Ok(position.totalCost) else
      var numerator :- Checked(position.totalCost * quantity);
      MulNonNegative(position.totalCost, quantity);
      var share :- Checked(DivideAndRound(numerator, position.quantity));
      Ok(Min(share, position.totalCost))
  }

  /** `applyFillToPosition`. */
  function ApplyFill(position: PositionCost, fill: PositionFill): Result<PositionCost> {
    var _ :- Check(WellFormed(position), INVARIANT_VIOLATION);
    var _ :- Check(fill.price > 0, INVALID_PRICE);
    var _ :- Check(fill.quantity > 0, INVALID_QUANTITY);
    var _ :- Check(fill.fee >= 0, INVALID_ORDER);
    if fill.side == BUY then
      var notional :- Checked(fill.price * fill.quantity);
      var beforeFee :- Checked(position.totalCost + notional);
      var cost :- Checked(beforeFee + fill.fee);
      Ok(PositionCost(position.quantity + fill.quantity, cost, position.realizedPnl))
    else
      var _ :- Check(fill.quantity <= position.quantity, INSUFFICIENT_AVAILABLE_POSITION);
      var removed :- CostRemoved(position, fill.quantity);
      var proceeds :- Checked(fill.price * fill.quantity);
      var afterFee :- Checked(proceeds - fill.fee);
      var delta :- Checked(afterFee - removed);
      var cost :- if fill.quantity == position.quantity then Ok(0) else Checked(position.totalCost - removed);
      var pnl :- Checked(position.realizedPnl + delta);
      Ok(PositionCost(position.quantity - fill.quantity, cost, pnl))
  }

  /** The cash a fill moves into the account. */
  function CashFlow(fill: PositionFill): Money {
    if fill.side == BUY then -(fill.price * fill.quantity) - fill.fee else fill.price * fill.quantity - fill.fee
  }

  /** One fill, whatever was rounded: no money appears or vanishes between cash, cost basis and profit. */
  lemma FillConserves(position: PositionCost, fill: PositionFill)
    requires ApplyFill(position, fill).Ok?
    ensures var after := ApplyFill(position, fill).value;
            && WellFormed(position) && WellFormed(after)
            && CashFlow(fill) + (after.totalCost - position.totalCost)
               - (after.realizedPnl - position.realizedPnl) == 0
            && after.quantity == position.quantity + (if fill.side == BUY then fill.quantity else -fill.quantity)
  {
    MulStrict(0, fill.price, fill.quantity);
  }

  function ApplyFills(position: PositionCost, fills: seq<PositionFill>): Result<PositionCost>
    decreases |fills|
  {
    if fills == [] then Ok(position) else
      var next :- ApplyFill(position, fills[0]);
      ApplyFills(next, fills[1..])
  }

  function NetCashFlow(fills: seq<PositionFill>): Money {
    if fills == [] then 0 else CashFlow(fills[0]) + NetCashFlow(fills[1..])
  }

  function NetQuantity(fills: seq<PositionFill>): int {
    if fills == [] then 0 else
      (if fills[0].side == BUY then fills[0].quantity else -fills[0].quantity) + NetQuantity(fills[1..])
  }

  /**
    Over any sequence of fills, net cash flow plus cost basis minus realised profit does not
    change, and the quantity is the net of what was bought and sold.
   */
  lemma {:induction false} FillsConserve(position: PositionCost, fills: seq<PositionFill>)
    requires WellFormed(position) && ApplyFills(position, fills).Ok?
    ensures var after := ApplyFills(position, fills).value;
            && WellFormed(after)
            && NetCashFlow(fills) + after.totalCost - after.realizedPnl == position.totalCost - position.realizedPnl
            && after.quantity == position.quantity + NetQuantity(fills)
    decreases |fills|
  {
    if fills != [] {
      FillConserves(position, fills[0]);
      FillsConserve(ApplyFill(position, fills[0]).value, fills[1..]);
    }
  }

  /** A position opened from nothing and sold off again has realised exactly its net cash flow. */
  lemma LiquidatedPnlIsCash(fills: seq<PositionFill>)
    requires ApplyFills(PositionCost(0, 0, 0), fills).Ok?
    requires NetQuantity(fills) == 0
    ensures ApplyFills(PositionCost(0, 0, 0), fills).value == PositionCost(0, 0, NetCashFlow(fills))
  {
    FillsConserve(PositionCost(0, 0, 0), fills);
  }

  // ---- The stored average ----

  function AverageCost(quantity: int, totalCost: Money): (r: Result<Money>) {
    if quantity < 0 || totalCost < 0 || (quantity == 0 && totalCost != 0) then Err(INVARIANT_VIOLATION)
    else if quantity == 0 then Ok(0)
    else Checked(DivideAndRound(totalCost, quantity))
  }

  /** What a buy adds: its quantity and its cost, fee included; neither, when it fills nothing. */
  datatype Purchase = Purchase(quantity: int, cost: Money)

  /**
    A position row as the ledger keeps it: the rounded average and the quantity, no total cost.
    A buy rebuilds the basis from the rounded average; a sale moves the quantity only.
   */
  datatype Movement = Bought(purchase: Purchase) | Sold(quantity: int)

  datatype Holding = Holding(quantity: int, average: Money)

  function Move(h: Holding, m: Movement): Result<Holding> {
    match m
    case Sold(q) =>
      if 0 < q <= h.quantity then Ok(h.(quantity := h.quantity - q)) else Err(INSUFFICIENT_AVAILABLE_POSITION)
    case Bought(p) =>
      var basis :- Checked(h.average * h.quantity);
      var cost :- Checked(basis + p.cost);
      var _ :- Check(p.quantity >= 0 && p.cost >= 0 && (p.quantity == 0 ==> p.cost == 0), CONSTRAINT_VIOLATION);
      var average :- AverageCost(h.quantity + p.quantity, cost);
      Ok(Holding(h.quantity + p.quantity, average))
  }

  /** The same movement on the exact weighted average, a real number of grid units; of no shares it is zero. */
  ghost function ExactAverage(quantity: int, average: real, m: Movement): real
    requires quantity >= 0 && (m.Bought? ==> m.purchase.quantity >= 0)
  {
    match m
    case Sold(_) => average
    case Bought(p) =>
      if quantity + p.quantity == 0 then 0.0
      else Mixed(average, quantity as real, p.cost as real, (quantity + p.quantity) as real)
  }

  /** The average over `d` shares of `q` held at `average` and a purchase of cost `c`. */
  ghost function Mixed(average: real, q: real, c: real, d: real): real
    requires d > 0.0
  {
    (average * q + c) / d
  }

  function Moves(h: Holding, ms: seq<Movement>): Result<Holding>
    decreases |ms|
  {
    if ms == [] then Ok(h) else
      var next :- Move(h, ms[0]);
      Moves(next, ms[1..])
  }

  ghost function ExactAverages(h: Holding, exact: real, ms: seq<Movement>): real
    requires h.quantity >= 0 && Moves(h, ms).Ok?
    decreases |ms|
  {
    if ms == [] then exact else
      ExactAverages(Move(h, ms[0]).value, ExactAverage(h.quantity, exact, ms[0]), ms[1..])
  }

  /** A movement that brings shares. */
  predicate Buy(m: Movement) {
    m.Bought? && m.purchase.quantity > 0
  }

  function Buys(ms: seq<Movement>): nat {
    if ms == [] then 0 else (if Buy(ms[0]) then 1 else 0) + Buys(ms[1..])
  }

  /** An average of ten decimal places: what is stored. */
  predicate OnGrid(average: Money) {
    average >= 0 && average % DIVISION_UNIT == 0
  }

  /** Half of 10^-10, plus half a unit of the last place the working precision carries below the grid. */
  ghost const STEP_ERROR: real := DIVISION_UNIT as real / 2.0 + 1.0 / 20.0

  ghost function Distance(a: real, b: real): real {
    if a < b then b - a else a - b
  }

  ghost function Ratio(n: int, d: int): real
    requires d != 0
  {
    n as real / d as real
  }

  lemma CarriedPlaces(n: nat, d: int)
    requires d > 0 && Exact(n)
    ensures QuotientScale(n, d) >= 1 && Pow10(QuotientScale(n, d)) >= 10
  {
    DigitsBelow(n, 2 * PRECISION);
    QuotientDigits(n, d, 2 * PRECISION);
    Pow10Mono(1, QuotientScale(n, d));
  }

  lemma QuotientDigits(n: nat, d: int, top: nat)
    requires d > 0 && n < Pow10(top)
    ensures Digits(n / d) <= top
  {
    QuotientAtMost(n, d);
    DigitsBelow(n / d, top);
  }

  /** Each place further is a digit more. */
  lemma {:induction false} ScaledQuotient(n: nat, d: int, places: nat)
    requires 0 < d <= n
    ensures n * Pow10(places) >= d && Digits(n * Pow10(places) / d) == Digits(n / d) + places
  {
    if places > 0 {
      ScaledQuotient(n, d, places - 1);
      var x := n * Pow10(places - 1);
      assert n * Pow10(places) == 10 * x by { Assoc(n, 10, Pow10(places - 1)); Swap(n, 10); }
      TenthOfQuotient(x, d);
    }
  }

  lemma TenthOfQuotient(x: int, d: int)
    requires 0 < d <= x
    ensures 10 * x / d > 0 && 10 * x / d / 10 == x / d
  {
    DivMod(x, d);
    var q, r := x / d, x % d;
    DivMod(10 * r, d);
    var e, f := 10 * r / d, 10 * r % d;
    assert 0 <= e <= 9 by {
      if e > 9 { MulMono(10, e, d); }
      if e < 0 { MulMono(e, -1, d); }
    }
    assert 10 * x == (10 * q + e) * d + f by {
      TenTimes(q, e, d);
    }
    DivUnique(10 * x, d, 10 * q + e, f);
    if q <= 0 {
      MulMono(q, 0, d);
    }
  }

  lemma TenTimes(q: int, e: int, d: int)
    ensures (10 * q + e) * d == 10 * (q * d) + e * d
  {
  }

  /**
    The quotient is carried to the working precision, at whatever place that ends: cut off at the last
    place it carries it has that many significant digits.
   */
  lemma CarriesWorkingPrecision(n: nat, d: int)
    requires 0 < d <= n && Exact(n)
    ensures n * Pow10(QuotientScale(n, d)) >= 0
    ensures Digits(n * Pow10(QuotientScale(n, d)) / d) == WORKING_PRECISION
  {
    DigitsBelow(n, 2 * PRECISION);
    QuotientDigits(n, d, 2 * PRECISION);
    ScaledQuotient(n, d, QuotientScale(n, d));
  }

  lemma RoundingStep(n: nat, d: int)
    requires d > 0 && Exact(n)
    ensures Distance(DivideAndRound(n, d) as real, Ratio(n, d)) <= STEP_ERROR
  {
    CarriedPlaces(n, d);
    DivideAndRoundError(n, d);
    RealStep(DivideAndRound(n, d), n, d, Pow10(QuotientScale(n, d)));
  }

  /**
    The average of a position: none of a negative quantity or cost, zero of nothing that cost nothing,
    none of nothing that cost something, and otherwise the cost of one unit within the two roundings.
   */
  lemma AverageIsUnitCost(quantity: int, totalCost: Money)
    requires Exact(totalCost)
    ensures AverageCost(quantity, totalCost).Ok? ==> quantity >= 0 && totalCost >= 0
    ensures quantity == 0 ==> (AverageCost(quantity, totalCost).Ok? <==> totalCost == 0)
    ensures quantity == 0 && totalCost == 0 ==> AverageCost(quantity, totalCost) == Ok(0)
    ensures quantity > 0 && AverageCost(quantity, totalCost).Ok? ==>
              Distance(AverageCost(quantity, totalCost).value as real, Ratio(totalCost, quantity)) <= STEP_ERROR
  {
    hide Exact, DivideAndRound, Distance;
    if quantity > 0 && totalCost >= 0 {
      RoundingStep(totalCost, quantity);
    }
  }

  lemma RealStep(r: int, n: int, d: int, scale: int)
    requires d > 0 && scale >= 10
    requires 2 * Abs(r * d - n) * scale <= d * scale * DIVISION_UNIT + d
    ensures Distance(r as real, n as real / d as real) <= STEP_ERROR
  {
    hide Pow10;
    var x, bound := Abs(r * d - n), 10 * DIVISION_UNIT + 1;
    if 20 * x > d * bound {
      Dominates(x, d, DIVISION_UNIT, scale);
    }
    RealQuotient(r, n, d, x);
    RealProduct(d, bound);
    CancelReal(Distance(r as real, n as real / d as real), STEP_ERROR, d as real);
  }

  lemma RealQuotient(r: int, n: int, d: int, x: int)
    requires d > 0 && x == Abs(r * d - n)
    ensures Distance(r as real, n as real / d as real) * d as real == x as real
  {
    assert (n as real / d as real) * d as real == n as real;
    assert r as real * d as real == (r * d) as real;
  }

  lemma RealProduct(d: int, bound: int)
    ensures (d * bound) as real == bound as real * d as real
  {
  }

  lemma Dominates(x: nat, d: int, unit: int, scale: int)
    requires d > 0 && scale >= 10 && unit > 0
    requires 20 * x > d * (10 * unit + 1)
    ensures 2 * x * scale > d * scale * unit + d
  {
    MulStrict(d * (10 * unit + 1), 20 * x, scale);
    TenUnits(d, unit, scale);
    MulMono(10, scale, d);
    Swap(scale, d);
    TwentyTimes(x, scale);
  }

  lemma TenUnits(d: int, unit: int, scale: int)
    ensures d * (10 * unit + 1) * scale == 10 * (d * scale * unit) + d * scale
  {
    calc {
      d * (10 * unit + 1) * scale;
      (10 * (d * unit) + d) * scale;
      10 * ((d * unit) * scale) + d * scale;
      { Assoc(d, unit, scale); Swap(unit, scale); Assoc(d, scale, unit); }
      10 * ((d * scale) * unit) + d * scale;
    }
  }

  lemma TwentyTimes(x: int, scale: int)
    ensures 20 * x * scale == 10 * (2 * x * scale)
  {
  }

  lemma MulPositiveReal(a: real, b: real)
    requires a > 0.0 && b > 0.0
    ensures a * b > 0.0
  {
  }

  lemma MulMonoReal(a: real, b: real, c: real)
    requires a <= b && c >= 0.0
    ensures a * c <= b * c && c * a <= c * b
    ensures a == 0.0 ==> 0.0 <= b * c
  {
  }

  lemma CancelReal(a: real, b: real, c: real)
    requires c > 0.0 && a * c <= b * c
    ensures a <= b
  {
    if a > b {
      MulPositiveReal(a - b, c);
    }
  }

  lemma DriftStep(average: Money, quantity: int, p: Purchase, exact: real)
    requires quantity >= 0 && p.quantity > 0
    requires average * quantity + p.cost >= 0 && Exact(average * quantity + p.cost)
    ensures Distance(DivideAndRound(average * quantity + p.cost, quantity + p.quantity) as real,
                     ExactAverage(quantity, exact, Bought(p)))
         <= Distance(average as real, exact) + STEP_ERROR
  {
    var middle := NearMixture(average, quantity, p);
    hide DivideAndRound;
    MixtureShrinks(average as real, quantity, p, exact, middle);
    Triangle(DivideAndRound(average * quantity + p.cost, quantity + p.quantity) as real, middle,
             ExactAverage(quantity, exact, Bought(p)), STEP_ERROR, Distance(average as real, exact));
  }

  lemma MixtureShrinks(average: real, quantity: int, p: Purchase, exact: real, middle: real)
    requires quantity >= 0 && p.quantity > 0
    requires middle == ExactAverage(quantity, average, Bought(p))
    ensures Distance(middle, ExactAverage(quantity, exact, Bought(p))) <= Distance(average, exact)
  {
    hide Mixed, Distance;
    Shrink(average, exact, quantity as real, p.cost as real, (quantity + p.quantity) as real);
  }

  /** What is stored is one rounding away from the mixture of the old average and the purchase. */
  lemma NearMixture(average: Money, quantity: int, p: Purchase) returns (middle: real)
    requires quantity >= 0 && p.quantity > 0
    requires average * quantity + p.cost >= 0 && Exact(average * quantity + p.cost)
    ensures middle == ExactAverage(quantity, average as real, Bought(p))
    ensures Distance(DivideAndRound(average * quantity + p.cost, quantity + p.quantity) as real, middle) <= STEP_ERROR
  {
    hide DivideAndRound, ExactAverage, Distance, Exact, Ratio;
    MixtureIsExact(average, quantity, p);
    RoundingStep(average * quantity + p.cost, quantity + p.quantity);
    middle := ExactAverage(quantity, average as real, Bought(p));
  }

  lemma MixtureIsExact(average: Money, quantity: int, p: Purchase)
    requires quantity >= 0 && p.quantity > 0
    ensures Ratio(average * quantity + p.cost, quantity + p.quantity)
         == ExactAverage(quantity, average as real, Bought(p))
  {
    RealSum(average, quantity, p.cost);
  }

  lemma BoughtAverage(h: Holding, p: Purchase)
    requires h.quantity >= 0 && h.quantity + p.quantity > 0 && Move(h, Bought(p)).Ok?
    ensures var n := h.average * h.quantity + p.cost;
            p.quantity >= 0 && n >= 0 && Exact(n)
            && Move(h, Bought(p)).value.average == DivideAndRound(n, h.quantity + p.quantity)
  {
  }

  /** Dividing what was multiplied gives the stored average back. */
  lemma RoundTrip(average: Money, quantity: int)
    requires OnGrid(average) && quantity > 0
    ensures average * quantity >= 0 && DivideAndRound(average * quantity, quantity) == average
  {
    hide Pow10, RoundDiv, QuotientScale;
    var s := average / DIVISION_UNIT;
    DivMod(average, DIVISION_UNIT);
    MulNonNegative(average, quantity);
    var n := average * quantity;
    var scale := Pow10(QuotientScale(n, quantity));
    MulNonNegative(n, scale);
    MulNonNegative(average, scale);
    MulStrict(0, scale, DIVISION_UNIT);
    assert n * scale == (average * scale) * quantity by {
      Swap(average, quantity);
      Assoc(quantity, average, scale);
      Swap(quantity, average * scale);
    }
    WholeQuotient(average * scale, quantity);
    assert average * scale == s * (scale * DIVISION_UNIT) by {
      Assoc(s, DIVISION_UNIT, scale);
      Swap(DIVISION_UNIT, scale);
    }
    if s < 0 { MulStrict(s, 0, DIVISION_UNIT); }
    WholeQuotient(s, scale * DIVISION_UNIT);
    Swap(DIVISION_UNIT, s);
  }

  lemma WholeQuotient(q: nat, d: int)
    requires d > 0
    ensures q * d >= 0 && RoundDiv(q * d, d, HALF_UP) == q
  {
    MulNonNegative(q, d);
    DivUnique(q * d, d, q, 0);
  }

  lemma Multiple(steps: nat)
    ensures OnGrid(DIVISION_UNIT * steps)
  {
    hide Pow10;
    MulNonNegative(DIVISION_UNIT, steps);
    Swap(DIVISION_UNIT, steps);
    DivUnique(DIVISION_UNIT * steps, DIVISION_UNIT, steps, 0);
  }

  lemma RoundedOnGrid(n: nat, d: int)
    requires d > 0
    ensures OnGrid(DivideAndRound(n, d))
  {
    hide Pow10, RoundDiv, QuotientScale, OnGrid;
    var scale := Pow10(QuotientScale(n, d));
    MulNonNegative(n, scale);
    MulStrict(0, scale, DIVISION_UNIT);
    Multiple(RoundDiv(RoundDiv(n * scale, d, HALF_UP), scale * DIVISION_UNIT, HALF_UP));
  }

  /** Every average that is stored stays one of ten decimal places. */
  lemma MoveOnGrid(h: Holding, m: Movement)
    requires h.quantity >= 0 && OnGrid(h.average) && Move(h, m).Ok?
    ensures Move(h, m).value.quantity >= 0 && OnGrid(Move(h, m).value.average)
    ensures m.Bought? ==> m.purchase.quantity >= 0
  {
    hide DivideAndRound, Exact, Pow10;
    if m.Bought? {
      if h.quantity + m.purchase.quantity > 0 {
        BoughtAverage(h, m.purchase);
        RoundedOnGrid(h.average * h.quantity + m.purchase.cost, h.quantity + m.purchase.quantity);
      } else {
        Multiple(0);
      }
    }
  }

  lemma MixedWithNothing(exact: real, q: real)
    requires q > 0.0
    ensures Mixed(exact, q, 0.0, q) == exact
  {
  }

  /** A buy that fills nothing rounds the average again, to itself; an empty position has none. */
  lemma NothingBought(h: Holding, exact: real, m: Movement)
    requires h.quantity >= 0 && OnGrid(h.average) && Move(h, m).Ok? && m.Bought? && m.purchase.quantity == 0
    ensures Distance(Move(h, m).value.average as real, ExactAverage(h.quantity, exact, m))
         <= Distance(h.average as real, exact)
  {
    hide DivideAndRound, Exact, OnGrid;
    if h.quantity > 0 {
      BoughtAverage(h, m.purchase);
      RoundTrip(h.average, h.quantity);
      MixedWithNothing(exact, h.quantity as real);
    }
  }

  /** One buy adds at most one rounding step to the distance from the exact average; a sale adds none. */
  lemma MoveDrift(h: Holding, exact: real, m: Movement, e: real)
    requires h.quantity >= 0 && OnGrid(h.average) && Move(h, m).Ok? && e == STEP_ERROR
    ensures m.Bought? ==> m.purchase.quantity >= 0
    ensures Distance(Move(h, m).value.average as real, ExactAverage(h.quantity, exact, m))
         <= Distance(h.average as real, exact) + (if Buy(m) then e else 0.0)
  {
    hide DivideAndRound, Exact, OnGrid;
    if m.Bought? && m.purchase.quantity == 0 {
      NothingBought(h, exact, m);
    } else if m.Bought? {
      BoughtAverage(h, m.purchase);
      DriftStep(h.average, h.quantity, m.purchase, exact);
    }
  }

  lemma Triangle(a: real, b: real, c: real, ab: real, bc: real)
    requires Distance(a, b) <= ab && Distance(b, c) <= bc
    ensures Distance(a, c) <= bc + ab
  {
  }

  lemma RealSum(a: int, q: int, c: int)
    ensures (a * q + c) as real == a as real * q as real + c as real
  {
  }

  /** Mixing both averages with the same purchase brings them no further apart. */
  lemma Shrink(a: real, b: real, q: real, c: real, d: real)
    requires 0.0 <= q <= d && d > 0.0
    ensures Distance(Mixed(a, q, c, d), Mixed(b, q, c, d)) <= Distance(a, b)
  {
    hide Mixed;
    if a >= b {
      ShrinkOrdered(a, b, q, c, d);
    } else {
      ShrinkOrdered(b, a, q, c, d);
    }
  }

  lemma ShrinkOrdered(a: real, b: real, q: real, c: real, d: real)
    requires a >= b && 0.0 <= q <= d && d > 0.0
    ensures 0.0 <= Mixed(a, q, c, d) - Mixed(b, q, c, d) <= a - b
  {
    var x, y := Mixed(a, q, c, d), Mixed(b, q, c, d);
    MulMonoReal(0.0, a - b, q);
    MulMonoReal(q, d, a - b);
    hide Mixed;
    ScaledGap(a, b, q, c, d, x, y);
    CancelReal(x - y, a - b, d);
    CancelReal(0.0, x - y, d);
  }

  lemma ScaledGap(a: real, b: real, q: real, c: real, d: real, x: real, y: real)
    requires d > 0.0 && x == Mixed(a, q, c, d) && y == Mixed(b, q, c, d)
    ensures (x - y) * d == (a - b) * q
  {
    assert x * d == a * q + c && y * d == b * q + c;
  }

  /** `n` times `e`, added up. */
  ghost function Times(n: nat, e: real): real {
    if n == 0 then 0.0 else e + Times(n - 1, e)
  }

  lemma {:induction false} TimesIsProduct(n: nat, e: real)
    ensures Times(n, e) == n as real * e
  {
    if n > 0 {
      TimesIsProduct(n - 1, e);
    }
  }

  /** Whatever the average began with, each buy moves it at most one step further from the exact one. */
  lemma {:induction false} DriftAccumulates(h: Holding, exact: real, ms: seq<Movement>, e: real)
    requires h.quantity >= 0 && OnGrid(h.average) && Moves(h, ms).Ok? && e == STEP_ERROR
    ensures Distance(Moves(h, ms).value.average as real, ExactAverages(h, exact, ms))
         <= Distance(h.average as real, exact) + Times(Buys(ms), e)
    decreases |ms|
  {
    hide OnGrid;
    if ms != [] {
      MoveDrift(h, exact, ms[0], e);
      MoveOnGrid(h, ms[0]);
      DriftAccumulates(Move(h, ms[0]).value, ExactAverage(h.quantity, exact, ms[0]), ms[1..], e);
    }
  }

  /**
    Although every buy rebuilds the basis from the rounded average, after any run of buys and sales
    the stored average is within one step error per buy of the exact weighted average.
   */
  lemma AverageDrift(h: Holding, ms: seq<Movement>)
    requires h.quantity >= 0 && OnGrid(h.average) && Moves(h, ms).Ok?
    ensures Distance(Moves(h, ms).value.average as real, ExactAverages(h, h.average as real, ms))
         <= Buys(ms) as real * STEP_ERROR
  {
    hide Moves, ExactAverages, Buys, OnGrid;
    DriftAccumulates(h, h.average as real, ms, STEP_ERROR);
    TimesIsProduct(Buys(ms), STEP_ERROR);
  }

  lemma {:induction false} MovesConcat(h: Holding, first: seq<Movement>, rest: seq<Movement>)
    requires Moves(h, first).Ok?
    ensures Moves(h, first + rest) == Moves(Moves(h, first).value, rest)
    decreases |first|
  {
    hide Move;
    if first == [] {
      assert first + rest == rest;
    } else {
      assert (first + rest)[0] == first[0] && (first + rest)[1..] == first[1..] + rest;
      MovesConcat(Move(h, first[0]).value, first[1..], rest);
    }
  }
}
