/** What an order, or a pair of legs of which one may execute, has to reserve before it is placed. */
module Reservation {
  import opened Types
  import opened Arithmetic
  import opened ExactMoney
  import opened Execution

  datatype PlannedOrder = PlannedOrder(
    id: string,
    status: OrderStatus,
    side: Side,
    kind: OrderType,
    currency: Currency,
    symbol: string,
    quantity: int,
    filled: Option<int>,
    limitPrice: Option<Money>,
    referencePrice: Option<Money>,
    estimatedFee: Option<Money>
  ) {
    function Filled(): int {
      if filled.Some? then filled.value else 0
    }
  }

  /** The price a buy is reserved at: its limit, or its reference price with 5% of protection, in hundredths. */
  const LIMIT_PERCENT := 100
  const PROTECTION_PERCENT := 105

  function ValidateShape(o: PlannedOrder): Result<()> {
    var _ :- Check(o.kind != OCO, INVALID_ORDER);
    var _ :- Check(if o.kind == LIMIT then o.limitPrice.Some? && o.referencePrice.None?
                   else o.referencePrice.Some? && o.limitPrice.None?, INVALID_ORDER);
    var _ :- Check(o.limitPrice.Some? ==> o.limitPrice.value > 0, INVALID_PRICE);
    var _ :- Check(o.referencePrice.Some? ==> o.referencePrice.value > 0, INVALID_PRICE);
    Check(o.estimatedFee.Some? ==> o.estimatedFee.value >= 0, INVALID_ORDER)
  }

  /** The plans are computed by an engine of twenty significant digits, which rounds every result. */
  const PLAN_DIGITS: nat := 20

  function Carried(x: int): int {
    RoundSignificant(x, PLAN_DIGITS)
  }

  predicate Fits(x: int) {
    SignificantDigits(x) <= PLAN_DIGITS
  }

  /** The result is carried unrounded exactly when it has no more digits than that. */
  lemma CarriedExactly(x: int)
    ensures Carried(x) == x <==> Fits(x)
  {
    RoundingKeepsExactly(x, PLAN_DIGITS);
  }

  /** A filled quantity that its status cannot have. */
  predicate Inconsistent(o: PlannedOrder) {
    || (o.status == FILLED && (o.filled.None? || o.Filled() != o.quantity))
    || (o.status == REJECTED && o.Filled() != 0)
    || (o.status in {CANCELLED, EXPIRED} && o.Filled() >= o.quantity)
    || (o.status == PARTIALLY_FILLED && (o.filled.None? || o.Filled() <= 0 || o.Filled() >= o.quantity))
    || (o.status in {RECEIVED, PENDING_TRIGGER, TRIGGERED, OPEN} && o.Filled() != 0)
  }

  function RemainingQuantity(o: PlannedOrder): Result<int> {
    var _ :- Check(o.quantity > 0 && o.Filled() >= 0, INVALID_ORDER);
    var _ :- Check(o.Filled() <= o.quantity && !Inconsistent(o), INVALID_ORDER);
    Ok(Carried(o.quantity - o.Filled()))
  }

  /** What a reservation holds: shares, or cash in hundredths of a grid unit so that 5% is exact. */
  datatype Plan = Cash(currency: Currency, hundredths: int) | Shares(symbol: string, quantity: int)

  function EstimatedFee(o: PlannedOrder): Money {
    if o.estimatedFee.Some? then o.estimatedFee.value else 0
  }

  function BuyCost(o: PlannedOrder, remaining: int): int {
    if remaining == 0 then 0
    else if o.kind == LIMIT && o.limitPrice.Some? then
      LIMIT_PERCENT * Carried(Carried(remaining * o.limitPrice.value) + EstimatedFee(o))
    else if o.referencePrice.Some? then
      Carried(Carried(PROTECTION_PERCENT * Carried(remaining * o.referencePrice.value))
              + LIMIT_PERCENT * EstimatedFee(o))
    else 0
  }

  function PlanFor(o: PlannedOrder, cost: int, quantity: int): Plan {
    if o.side == BUY then Cash(o.currency, cost) else Shares(o.symbol, quantity)
  }

  /** `planReservation`. */
  function PlanReservation(o: PlannedOrder): Result<Plan> {
    var _ :- ValidateShape(o);
    var remaining :- RemainingQuantity(o);
    if IsTerminal(o.status) then Ok(PlanFor(o, 0, 0)) else Ok(PlanFor(o, BuyCost(o, remaining), remaining))
  }

  /** A status and a filled quantity that go together, with the prices its kind has. */
  predicate Plannable(o: PlannedOrder) {
    && (if o.kind == LIMIT then o.limitPrice.Some? && o.limitPrice.value > 0 && o.referencePrice.None?
        else o.kind != OCO && o.referencePrice.Some? && o.referencePrice.value > 0 && o.limitPrice.None?)
    && (o.estimatedFee.Some? ==> o.estimatedFee.value >= 0) && o.quantity > 0
    && match o.status
       case FILLED => o.filled == Some(o.quantity)
       case PARTIALLY_FILLED => o.filled.Some? && 0 < o.filled.value < o.quantity
       case REJECTED => o.filled in {None, Some(0)}
       case CANCELLED => o.filled.Some? ==> 0 <= o.filled.value < o.quantity
       case EXPIRED => o.filled.Some? ==> 0 <= o.filled.value < o.quantity
       case _ => o.filled in {None, Some(0)}
  }

  /**
    A plan exists exactly for an order whose prices belong to its kind and whose filled quantity to its
    status. It reserves nothing for an order that is over, the shares left of a sale, and of a buy their
    price with the estimated fee, 5% above the reference where there is no limit, rounded at each step.
   */
  lemma PlannedExactly(o: PlannedOrder)
    ensures PlanReservation(o).Ok? <==> Plannable(o)
    ensures PlanReservation(o).Ok? ==>
              var filled := if o.filled.Some? then o.filled.value else 0;
              var fee := if o.estimatedFee.Some? then o.estimatedFee.value else 0;
              var left := RoundSignificant(o.quantity - filled, 20);
              PlanReservation(o).value ==
                if o.status in {FILLED, CANCELLED, EXPIRED, REJECTED} then
                  if o.side == BUY then Cash(o.currency, 0) else Shares(o.symbol, 0)
                else if o.side == SELL then Shares(o.symbol, left)
                else if left == 0 then Cash(o.currency, 0)
                else if o.kind == LIMIT then
                  Cash(o.currency, 100 * RoundSignificant(RoundSignificant(left * o.limitPrice.value, 20) + fee, 20))
                else
                  var protected := RoundSignificant(105 * RoundSignificant(left * o.referencePrice.value, 20), 20);
                  Cash(o.currency, RoundSignificant(protected + 100 * fee, 20))
  {
    hide RoundSignificant;
  }

  predicate Progressed(o: PlannedOrder) {
    o.status in {TRIGGERED, OPEN, PARTIALLY_FILLED, FILLED} || o.Filled() > 0
  }

  /** The dearer of the legs that are still live. */
  function LiveCost(a: PlannedOrder, b: PlannedOrder, remaining: int): int {
    if IsTerminal(a.status) then BuyCost(b, remaining)
    else if IsTerminal(b.status) then BuyCost(a, remaining)
    else Max(BuyCost(a, remaining), BuyCost(b, remaining))
  }

  /** `planOcoReservation`. */
  function PlanOcoReservation(a: PlannedOrder, b: PlannedOrder): Result<Plan> {
    var _ :- ValidateShape(a);
    var _ :- ValidateShape(b);
    var _ :- Check(a.side == b.side && a.currency == b.currency && a.symbol == b.symbol && a.id != b.id, INVALID_ORDER);
    var _ :- RemainingQuantity(a);
    var _ :- RemainingQuantity(b);
    var _ :- Check(a.quantity == b.quantity, INVALID_ORDER);
    var _ :- Check(!(Progressed(a) && Progressed(b)), INVALID_ORDER);
    var remaining := Carried(a.quantity - Max(a.Filled(), b.Filled()));
    if remaining == 0 || (IsTerminal(a.status) && IsTerminal(b.status)) then Ok(PlanFor(a, 0, 0))
    else Ok(PlanFor(a, LiveCost(a, b, remaining), remaining))
  }

  /** The cash or the shares of a plan, as one number. */
  function Amount(p: Plan): int {
    if p.Cash? then p.hundredths else p.quantity
  }

  /**
    A waiting pair reserves once for both legs: what the dearer leg would reserve alone, enough for
    either and never for both.
   */
  lemma PairReservesItsDearerLeg(a: PlannedOrder, b: PlannedOrder)
    requires PlanOcoReservation(a, b).Ok? && a.status == PENDING_TRIGGER && b.status == PENDING_TRIGGER
    ensures PlanReservation(a).Ok? && PlanReservation(b).Ok?
    ensures Amount(PlanOcoReservation(a, b).value)
         == Max(Amount(PlanReservation(a).value), Amount(PlanReservation(b).value))
    ensures PlanOcoReservation(a, b).value in {PlanReservation(a).value, PlanReservation(b).value}
  {
    hide RoundSignificant;
  }

  /**
    Whatever one leg has filled or ended, the pair's plan covers the rest of the group on every leg
    still live, and is the cost of one of them.
   */
  lemma PairCoversTheRemainder(a: PlannedOrder, b: PlannedOrder)
    requires PlanOcoReservation(a, b).Ok? && a.side == BUY && !(IsTerminal(a.status) && IsTerminal(b.status))
    requires Carried(a.quantity - Max(a.Filled(), b.Filled())) != 0
    ensures var remaining := Carried(a.quantity - Max(a.Filled(), b.Filled()));
            var planned := Amount(PlanOcoReservation(a, b).value);
            && (!IsTerminal(a.status) ==> BuyCost(a, remaining) <= planned)
            && (!IsTerminal(b.status) ==> BuyCost(b, remaining) <= planned)
            && ((!IsTerminal(a.status) && planned == BuyCost(a, remaining))
                || (!IsTerminal(b.status) && planned == BuyCost(b, remaining)))
  {
    hide RoundSignificant;
  }

  /**
    A pair never executes on both legs of one reservation: where a plan is made, at most one leg has
    filled anything, and while a leg is live what both have filled and what a sale still holds make
    up the quantity they share, the last of these as twenty digits carry it.
   */
  lemma PairExecutesOnOneSide(a: PlannedOrder, b: PlannedOrder)
    requires PlanOcoReservation(a, b).Ok?
    ensures a.Filled() == 0 || b.Filled() == 0
    ensures !(Progressed(a) && Progressed(b))
    ensures a.side == SELL && !(IsTerminal(a.status) && IsTerminal(b.status)) ==>
              var held := Amount(PlanOcoReservation(a, b).value);
              && held == Carried(a.quantity - (a.Filled() + b.Filled()))
              && (Fits(a.quantity - (a.Filled() + b.Filled())) <==> a.Filled() + b.Filled() + held == a.quantity)
  {
    hide RoundSignificant;
    CarriedExactly(a.quantity - (a.Filled() + b.Filled()));
  }

  // ---- What a reserved price covers ----

  predicate AtMostPrice(fills: seq<Fill>, percent: int, reference: Money) {
    forall i | 0 <= i < |fills| :: fills[i].quantity > 0 && 100 * fills[i].price <= percent * reference
  }

  /** Fills within a price bound cost no more than their quantity at the bound. */
  lemma {:induction false} FillsWithinBound(fills: seq<Fill>, percent: int, reference: Money)
    requires AtMostPrice(fills, percent, reference)
    ensures 100 * GrossOf(fills) <= percent * (QuantityOf(fills) * reference)
  {
    if fills != [] {
      var rest, last := fills[..|fills| - 1], fills[|fills| - 1];
      FillsWithinBound(rest, percent, reference);
      MulMono(100 * last.price, percent * reference, last.quantity);
      BoundAlgebra(percent, reference, QuantityOf(rest), last.quantity, last.price);
    } else {
      assert percent * (0 * reference) == 0;
    }
  }

  lemma BoundAlgebra(percent: int, reference: int, a: int, b: int, price: int)
    ensures percent * ((a + b) * reference) == percent * (a * reference) + percent * reference * b
    ensures 100 * price * b == 100 * (price * b)
  {
    assert (a + b) * reference == a * reference + b * reference;
    Assoc(percent, reference, b);
    Swap(reference, b);
  }

  /** A buy without a limit, not filled yet, whose plan the engine carries unrounded. */
  predicate CarriesMarketBuy(o: PlannedOrder) {
    && PlanReservation(o).Ok? && o.side == BUY && o.kind != LIMIT && !IsTerminal(o.status) && o.Filled() == 0
    && Fits(o.quantity) && Fits(o.quantity * o.referencePrice.value)
    && Fits(PROTECTION_PERCENT * (o.quantity * o.referencePrice.value))
    && Fits(PROTECTION_PERCENT * (o.quantity * o.referencePrice.value) + LIMIT_PERCENT * EstimatedFee(o))
  }

  lemma MarketBuyPlan(o: PlannedOrder)
    requires CarriesMarketBuy(o)
    ensures Amount(PlanReservation(o).value)
         == PROTECTION_PERCENT * (o.quantity * o.referencePrice.value) + LIMIT_PERCENT * EstimatedFee(o)
  {
    hide RoundSignificant, SignificantDigits;
    CarriedExactly(o.quantity);
    CarriedExactly(o.quantity * o.referencePrice.value);
    CarriedExactly(PROTECTION_PERCENT * (o.quantity * o.referencePrice.value));
    CarriedExactly(PROTECTION_PERCENT * (o.quantity * o.referencePrice.value) + LIMIT_PERCENT * EstimatedFee(o));
  }

  /** A market buy's reservation covers all fills inside its 5% of protection, with fees up to the estimate. */
  lemma ProtectionCovers(o: PlannedOrder, fills: seq<Fill>)
    requires CarriesMarketBuy(o) && 0 <= QuantityOf(fills) <= o.quantity
    requires AtMostPrice(fills, PROTECTION_PERCENT, o.referencePrice.value) && FeesOf(fills) <= EstimatedFee(o)
    ensures 100 * (GrossOf(fills) + FeesOf(fills)) <= Amount(PlanReservation(o).value)
  {
    var reference := o.referencePrice.value;
    assert reference > 0;
    MarketBuyPlan(o);
    hide PlanReservation, RoundSignificant, SignificantDigits;
    FillsWithinBound(fills, PROTECTION_PERCENT, reference);
    MulMono(QuantityOf(fills), o.quantity, reference);
  }
}
