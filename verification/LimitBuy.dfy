/**
  The life of a LIMIT BUY: reserved at its limit plus the estimated fee, filled in batches at the
  limit or better, its reservation resized after each. How much can the fills draw from
  `available` beyond what was reserved?
 */
module LimitBuy {
  import opened Types
  import opened Arithmetic
  import opened ExactMoney
  import opened Fees
  import opened Execution
  import opened Settlement
  import Reservation

  /** The exposure of a quantity at the limit: its notional and the fee of that notional. */
  function Exposure(limit: Money, quantity: nat, schedule: FeeSchedule): Money
    requires schedule.Valid() && limit > 0
  {
    MulNonNegative(limit, quantity);
    limit * quantity + FeeOn(schedule, BUY, limit * quantity)
  }

  /**
    That is what planning the reservation of an unfilled LIMIT BUY comes to, given the model's fee
    as the estimate, exactly when the exposure has at most twenty digits (quantity and notional
    having no more); and it never is when the exposure has more.
   */
  lemma PlannedReservationIsExposure(o: Reservation.PlannedOrder, schedule: FeeSchedule)
    requires schedule.Valid() && Reservation.PlanReservation(o).Ok?
    requires o.side == BUY && o.kind == LIMIT && o.Filled() == 0 && !IsTerminal(o.status)
    requires o.limitPrice.value * o.quantity >= 0
             && o.estimatedFee == Some(FeeOn(schedule, BUY, o.limitPrice.value * o.quantity))
    ensures var planned := Reservation.Amount(Reservation.PlanReservation(o).value);
            var exposure := Exposure(o.limitPrice.value, o.quantity, schedule);
            && (Reservation.Fits(o.quantity) && Reservation.Fits(o.limitPrice.value * o.quantity) ==>
                  (planned == Reservation.LIMIT_PERCENT * exposure <==> Reservation.Fits(exposure)))
            && (planned == Reservation.LIMIT_PERCENT * exposure ==> Reservation.Fits(exposure))
  {
    hide FeeOn, Reservation.Carried, Reservation.Fits, Reservation.BuyCost;
    LimitPlan(o);
    hide Reservation.PlanReservation;
    Swap(o.limitPrice.value, o.quantity);
    var exposure := Exposure(o.limitPrice.value, o.quantity, schedule);
    RoundedOnce(o.quantity, o.limitPrice.value, Reservation.EstimatedFee(o), exposure);
  }

  lemma LimitPlan(o: Reservation.PlannedOrder)
    requires Reservation.PlanReservation(o).Ok?
    requires o.side == BUY && o.kind == LIMIT && o.Filled() == 0 && !IsTerminal(o.status)
    ensures o.limitPrice.Some?
    ensures var remaining := Reservation.Carried(o.quantity);
            var cost := Reservation.Carried(Reservation.Carried(remaining * o.limitPrice.value)
                                            + Reservation.EstimatedFee(o));
            Reservation.Amount(Reservation.PlanReservation(o).value)
            == if remaining == 0 then 0 else Reservation.LIMIT_PERCENT * cost
  {
    hide Reservation.Carried;
  }

  /** What two roundings to twenty digits leave of a notional and its fee. */
  lemma RoundedOnce(quantity: int, price: Money, fee: Money, exposure: Money)
    requires exposure == quantity * price + fee
    ensures var remaining := Reservation.Carried(quantity);
            var planned := if remaining == 0 then 0
                           else Reservation.Carried(Reservation.Carried(remaining * price) + fee);
            && (Reservation.Fits(quantity) && Reservation.Fits(quantity * price) && quantity != 0 ==>
                  (planned == exposure <==> Reservation.Fits(exposure)))
            && (planned == exposure ==> Reservation.Fits(exposure))
  {
    hide RoundSignificant, SignificantDigits;
    var remaining := Reservation.Carried(quantity);
    Reservation.CarriedExactly(quantity);
    Reservation.CarriedExactly(quantity * price);
    Reservation.CarriedExactly(exposure);
    CarriedFits(Reservation.Carried(remaining * price) + fee);
  }

  lemma CarriedFits(x: int)
    ensures Reservation.Fits(Reservation.Carried(x)) && Reservation.Fits(0)
  {
    RoundedFits(x, Reservation.PLAN_DIGITS);
    hide RoundSignificant;
  }

  datatype Life = Life(
    remaining: nat,       // quantity still wanted
    balance: Balance,
    reservation: Money,
    drawn: Money,         // taken from `available` beyond the reservation, in total
    levels: nat           // book levels consumed, one fill each
  )

  function Consumed(fills: seq<Fill>): Money {
    GrossOf(fills) + FeesOf(fills)
  }

  /** The settlement request of one batch of fills. */
  function BatchRequest(limit: Money, schedule: FeeSchedule, life: Life, fills: seq<Fill>): Request
    requires schedule.Valid() && limit > 0 && QuantityOf(fills) <= life.remaining
  {
    var left := life.remaining - QuantityOf(fills);
    Request(life.balance, life.reservation, Consumed(fills), left == 0,
            if left == 0 then None else Some(Exposure(limit, left, schedule)))
  }

  function SettleBatch(limit: Money, schedule: FeeSchedule, life: Life, fills: seq<Fill>): Result<Life>
    requires schedule.Valid() && limit > 0 && QuantityOf(fills) <= life.remaining
  {
    var q := BatchRequest(limit, schedule, life, fills);
    var plan :- Settle(q, INSUFFICIENT_AVAILABLE_CASH);
    Ok(Life(life.remaining - QuantityOf(fills), plan.balance, plan.remaining, life.drawn + Shortfall(q),
            life.levels + |fills|))
  }

  /** What `calculateExecution` guarantees of the fills of this order. */
  ghost predicate LimitFills(limit: Money, schedule: FeeSchedule, fills: seq<Fill>)
    requires schedule.Valid()
  {
    forall i | 0 <= i < |fills| ::
      && 0 < fills[i].price <= limit && fills[i].quantity > 0
      && fills[i].price * fills[i].quantity >= 0
      && fills[i].fee == FeeOn(schedule, BUY, fills[i].price * fills[i].quantity)
  }

  /** One batch, and the balance it finds: other orders move the wallet in between. */
  datatype Batch = Batch(found: Balance, fills: seq<Fill>)

  /** A run of batches, each a possible execution of what the order still wants. */
  ghost predicate Runs(limit: Money, schedule: FeeSchedule, life: Life, batches: seq<Batch>, end: Life)
    requires schedule.Valid() && limit > 0
    decreases |batches|
  {
    if batches == [] then end == life else
      var now := life.(balance := batches[0].found);
      && LimitFills(limit, schedule, batches[0].fills)
      && QuantityOf(batches[0].fills) <= life.remaining
      && SettleBatch(limit, schedule, now, batches[0].fills).Ok?
      && Runs(limit, schedule, SettleBatch(limit, schedule, now, batches[0].fills).value, batches[1..], end)
  }

  // ---- One batch ----

  /** The fills of an executed limit buy are such fills. */
  lemma ExecutionGivesLimitFills(order: Order, bids: seq<Level>, asks: seq<Level>, market: Market,
                                 schedule: FeeSchedule, protection: Protection)
    requires schedule.Valid()
    requires order.side == BUY && order.kind == LIMIT && order.limitPrice.Some?
    requires Execute(order, bids, asks, market, schedule, protection).Ok?
    ensures LimitFills(order.limitPrice.value, schedule,
                       Execute(order, bids, asks, market, schedule, protection).value.fills)
  {
    ExecutionConserves(order, bids, asks, market, schedule, protection);
  }

  /** Twice GRID times what one fill costs is at most that of its quantity at the limit, plus half a fee unit. */
  lemma FillCostBound(limit: Money, schedule: FeeSchedule, f: Fill)
    requires schedule.Valid() && schedule.roundingMode == HALF_UP
    requires LimitFills(limit, schedule, [f])
    ensures 2 * GRID * (f.price * f.quantity + f.fee)
         <= 2 * (limit * f.quantity) * (GRID + schedule.Rate(BUY)) + schedule.Unit() * GRID
  {
    assert [f][0] == f;
    HalfUpFeeBound(schedule, BUY, f.price * f.quantity);
    MulMono(f.price, limit, f.quantity);
    CostAlgebra(f.price * f.quantity, limit * f.quantity, f.fee, GRID, schedule.Rate(BUY), schedule.Unit());
  }

  lemma CostAlgebra(n: int, m: int, fee: int, g: int, rate: int, unit: int)
    requires 0 <= n <= m && g > 0 && rate >= 0
    requires 2 * Abs(fee * g - n * rate) <= g * unit
    ensures 2 * g * (n + fee) <= 2 * m * (g + rate) + unit * g
  {
    MulMono(n, m, g + rate);
    Expand(n, fee, g, rate, m, unit);
  }

  lemma Expand(n: int, fee: int, g: int, rate: int, m: int, unit: int)
    ensures 2 * g * (n + fee) == 2 * (n * g) + 2 * (fee * g)
    ensures n * (g + rate) == n * g + n * rate
    ensures 2 * m * (g + rate) == 2 * (m * (g + rate))
    ensures g * unit == unit * g
  {
  }

  lemma {:induction false} BatchCostBound(limit: Money, schedule: FeeSchedule, fills: seq<Fill>)
    requires schedule.Valid() && schedule.roundingMode == HALF_UP && limit > 0
    requires LimitFills(limit, schedule, fills)
    ensures QuantityOf(fills) >= 0 && Consumed(fills) >= 0
    ensures 2 * GRID * Consumed(fills)
         <= 2 * (limit * QuantityOf(fills)) * (GRID + schedule.Rate(BUY)) + |fills| * (schedule.Unit() * GRID)
  {
    if fills != [] {
      var rest, f := fills[..|fills| - 1], fills[|fills| - 1];
      assert LimitFills(limit, schedule, [f]) && LimitFills(limit, schedule, rest);
      BatchCostBound(limit, schedule, rest);
      FillCostBound(limit, schedule, f);
      hide FeeOn;
      AddUp(GRID, Consumed(rest), f.price * f.quantity + f.fee, limit, QuantityOf(rest), f.quantity,
            GRID + schedule.Rate(BUY), |rest|, schedule.Unit() * GRID);
    }
  }

  lemma AddUp(g: int, a: int, b: int, limit: int, qa: int, qb: int, w: int, k: int, u: int)
    requires 2 * g * a <= 2 * (limit * qa) * w + k * u
    requires 2 * g * b <= 2 * (limit * qb) * w + u
    ensures 2 * g * (a + b) <= 2 * (limit * (qa + qb)) * w + (k + 1) * u
  {
    assert 2 * (limit * (qa + qb)) * w == 2 * (limit * qa) * w + 2 * (limit * qb) * w by {
      Spread(limit * qa, limit * qb, 2 * w);
      assert limit * (qa + qb) == limit * qa + limit * qb;
      Twice(limit * qa, w);
      Twice(limit * qb, w);
      Twice(limit * (qa + qb), w);
    }
    assert 2 * g * (a + b) == 2 * g * a + 2 * g * b;
    assert (k + 1) * u == k * u + u;
  }

  lemma Twice(a: int, w: int)
    ensures a * (2 * w) == 2 * a * w
  {
  }

  /** The exposure estimate is short of the exact one by at most half a fee unit. */
  lemma ExposureBound(limit: Money, quantity: nat, schedule: FeeSchedule)
    requires schedule.Valid() && schedule.roundingMode == HALF_UP && limit > 0
    ensures 2 * GRID * Exposure(limit, quantity, schedule)
         >= 2 * (limit * quantity) * (GRID + schedule.Rate(BUY)) - schedule.Unit() * GRID
  {
    MulNonNegative(limit, quantity);
    HalfUpFeeBound(schedule, BUY, limit * quantity);
    ExposureAlgebra(limit * quantity, FeeOn(schedule, BUY, limit * quantity), GRID, schedule.Rate(BUY),
                    schedule.Unit());
  }

  lemma ExposureAlgebra(n: int, fee: int, g: int, rate: int, unit: int)
    requires 2 * Abs(fee * g - n * rate) <= g * unit
    ensures 2 * g * (n + fee) >= 2 * n * (g + rate) - unit * g
  {
    Expand(n, fee, g, rate, n, unit);
  }

  // ---- The invariant of a life ----

  /** One fee-rounding unit, on the scale of the potential. */
  function FeeStep(schedule: FeeSchedule): int
    requires schedule.Valid()
  {
    schedule.Unit() * GRID
  }

  /** What was drawn, less what is reserved, plus the exact exposure still ahead (scaled by twice GRID). */
  function Potential(limit: Money, schedule: FeeSchedule, life: Life): int {
    2 * GRID * (life.drawn - life.reservation) + 2 * (limit * life.remaining) * (GRID + schedule.Rate(BUY))
  }

  /**
    Nothing is drawn while the reservation lasts, and the potential is at most half a fee unit per
    level consumed, plus one half.
   */
  ghost predicate Bounded(limit: Money, schedule: FeeSchedule, life: Life)
    requires schedule.Valid()
  {
    && life.drawn >= 0 && life.reservation >= 0 && (life.drawn == 0 || life.reservation == 0)
    && Potential(limit, schedule, life) <= (life.levels + 1) * FeeStep(schedule)
  }

  lemma FeeStepNonNegative(schedule: FeeSchedule)
    requires schedule.Valid()
    ensures FeeStep(schedule) >= 0
  {
    MulNonNegative(schedule.Unit(), GRID);
  }

  /** Paying for a batch raises the potential by at most half a unit per level. */
  lemma PaidPotential(limit: Money, schedule: FeeSchedule, life: Life, next: Life, fills: seq<Fill>)
    requires schedule.Valid() && schedule.roundingMode == HALF_UP && limit > 0 && LimitFills(limit, schedule, fills)
    requires next.drawn - next.reservation == life.drawn - life.reservation + Consumed(fills)
    requires next.remaining == life.remaining - QuantityOf(fills)
    ensures Potential(limit, schedule, next) <= Potential(limit, schedule, life) + |fills| * FeeStep(schedule)
  {
    BatchCostBound(limit, schedule, fills);
    hide LimitFills, Consumed, QuantityOf, Pow10;
    StepAlgebra(GRID, life.drawn - life.reservation, Consumed(fills), limit, life.remaining, QuantityOf(fills),
                GRID + schedule.Rate(BUY));
  }

  lemma StepAlgebra(g: int, d: int, c: int, limit: int, rem: int, q: int, w: int)
    ensures 2 * g * (d + c) == 2 * g * d + 2 * g * c
    ensures 2 * (limit * (rem - q)) * w == 2 * (limit * rem) * w - 2 * (limit * q) * w
  {
    assert limit * (rem - q) == limit * rem - limit * q;
    TwiceDifference(limit * rem, limit * q, w);
  }

  lemma TwiceDifference(a: int, b: int, w: int)
    ensures 2 * (a - b) * w == 2 * a * w - 2 * b * w
  {
  }

  /** With nothing drawn and the exposure reserved, it is at most half a unit. */
  lemma RefilledPotential(limit: Money, schedule: FeeSchedule, life: Life)
    requires schedule.Valid() && schedule.roundingMode == HALF_UP && limit > 0
    requires life.drawn == 0 && life.reservation == Exposure(limit, life.remaining, schedule)
    ensures Potential(limit, schedule, life) <= FeeStep(schedule)
    ensures life.reservation >= 0
  {
    MulNonNegative(limit, life.remaining);
    ExposureBound(limit, life.remaining, schedule);
    hide Exposure, Pow10;
    Opposite(GRID, life.reservation);
  }

  lemma Opposite(g: int, r: int)
    ensures 2 * g * (0 - r) == -(2 * g * r)
  {
  }

  /** With nothing drawn and nothing left to buy, it is not positive. */
  lemma FinishedPotential(limit: Money, schedule: FeeSchedule, life: Life)
    requires schedule.Valid() && life.drawn == 0 && life.remaining == 0 && life.reservation >= 0
    ensures Potential(limit, schedule, life) <= 0
  {
    hide Pow10;
    MulNonNegative(GRID, life.reservation);
    Opposite(GRID, life.reservation);
    assert limit * 0 == 0;
  }

  /**
    A settled batch either moves `drawn - reservation` by its cost, or leaves nothing drawn and
    the exposure reserved.
   */
  lemma BatchCases(limit: Money, schedule: FeeSchedule, life: Life, fills: seq<Fill>, next: Life)
    requires schedule.Valid() && limit > 0 && 0 <= QuantityOf(fills) <= life.remaining && Consumed(fills) >= 0
    requires life.drawn >= 0 && life.reservation >= 0 && (life.drawn == 0 || life.reservation == 0)
    requires SettleBatch(limit, schedule, life, fills) == Ok(next)
    ensures next.drawn >= 0 && next.reservation >= 0 && (next.drawn == 0 || next.reservation == 0)
    ensures next.remaining == life.remaining - QuantityOf(fills) && next.levels == life.levels + |fills|
    ensures || next.drawn - next.reservation == life.drawn - life.reservation + Consumed(fills)
            || (next.drawn == 0 && next.remaining == 0)
            || (next.drawn == 0 && next.reservation == Exposure(limit, next.remaining, schedule))
  {
    hide Exact, FeeOn;
    MulNonNegative(limit, next.remaining);
  }

  lemma BatchKeepsBound(limit: Money, schedule: FeeSchedule, life: Life, fills: seq<Fill>, next: Life)
    requires schedule.Valid() && schedule.roundingMode == HALF_UP && limit > 0
    requires Bounded(limit, schedule, life)
    requires LimitFills(limit, schedule, fills) && QuantityOf(fills) <= life.remaining
    requires SettleBatch(limit, schedule, life, fills) == Ok(next)
    ensures Bounded(limit, schedule, next)
  {
    hide SettleBatch, LimitFills, Consumed, QuantityOf, Potential, FeeStep, Exposure;
    BatchCostBound(limit, schedule, fills);
    BatchCases(limit, schedule, life, fills, next);
    if next.drawn - next.reservation == life.drawn - life.reservation + Consumed(fills) {
      PaidBound(limit, schedule, life, fills, next);
    } else {
      RefilledBound(limit, schedule, next);
    }
  }

  lemma PaidBound(limit: Money, schedule: FeeSchedule, life: Life, fills: seq<Fill>, next: Life)
    requires schedule.Valid() && schedule.roundingMode == HALF_UP && limit > 0 && LimitFills(limit, schedule, fills)
    requires Potential(limit, schedule, life) <= (life.levels + 1) * FeeStep(schedule)
    requires next.drawn - next.reservation == life.drawn - life.reservation + Consumed(fills)
    requires next.remaining == life.remaining - QuantityOf(fills) && next.levels == life.levels + |fills|
    ensures Potential(limit, schedule, next) <= (next.levels + 1) * FeeStep(schedule)
  {
    hide LimitFills, Consumed, QuantityOf, Potential, FeeStep;
    PaidPotential(limit, schedule, life, next, fills);
    FeeStepNonNegative(schedule);
    MoreLevels(life.levels, |fills|, FeeStep(schedule));
  }

  lemma RefilledBound(limit: Money, schedule: FeeSchedule, next: Life)
    requires schedule.Valid() && schedule.roundingMode == HALF_UP && limit > 0 && next.drawn == 0
    requires next.reservation >= 0
    requires next.remaining == 0 || next.reservation == Exposure(limit, next.remaining, schedule)
    ensures Potential(limit, schedule, next) <= (next.levels + 1) * FeeStep(schedule)
  {
    hide Potential, FeeStep, Exposure;
    FeeStepNonNegative(schedule);
    MoreLevels(next.levels, 0, FeeStep(schedule));
    if next.remaining == 0 {
      FinishedPotential(limit, schedule, next);
    } else {
      RefilledPotential(limit, schedule, next);
    }
  }

  lemma MoreLevels(k: nat, n: nat, step: int)
    requires step >= 0
    ensures (k + n + 1) * step == (k + 1) * step + n * step
    ensures (k + n + 1) * step >= step
  {
    MulNonNegative(k + n, step);
  }

  /** The bound does not depend on the balance. */
  lemma SameBound(limit: Money, schedule: FeeSchedule, life: Life, now: Life)
    requires schedule.Valid() && Bounded(limit, schedule, life) && now == life.(balance := now.balance)
    ensures Bounded(limit, schedule, now)
  {
  }

  lemma {:induction false} RunKeepsBound(limit: Money, schedule: FeeSchedule, life: Life, batches: seq<Batch>,
                                         end: Life)
    requires schedule.Valid() && schedule.roundingMode == HALF_UP && limit > 0
    requires Bounded(limit, schedule, life) && Runs(limit, schedule, life, batches, end)
    ensures Bounded(limit, schedule, end)
    decreases |batches|
  {
    hide Bounded, SettleBatch, LimitFills;
    if batches != [] {
      var now := life.(balance := batches[0].found);
      var next := SettleBatch(limit, schedule, now, batches[0].fills).value;
      SameBound(limit, schedule, life, now);
      BatchKeepsBound(limit, schedule, now, batches[0].fills, next);
      RunKeepsBound(limit, schedule, next, batches[1..], end);
    }
  }

  /**
    Over the whole life of a LIMIT BUY reserved at its own HALF_UP exposure, across any number of
    partial-fill batches and resizings and whatever moves its wallet in between, the fills draw at
    most (K + 1) / 2 fee-rounding units from `available`, K being the number of book levels consumed.
   */
  lemma DrawnAtMostHalfUnitPerLevel(limit: Money, quantity: nat, schedule: FeeSchedule, balance: Balance,
                                    batches: seq<Batch>, end: Life)
    requires schedule.Valid() && schedule.roundingMode == HALF_UP && limit > 0
    requires Runs(limit, schedule, Life(quantity, balance, Exposure(limit, quantity, schedule), 0, 0), batches, end)
    ensures 2 * end.drawn <= (end.levels + 1) * schedule.Unit()
  {
    hide Runs, Potential, Exposure;
    var start := Life(quantity, balance, Exposure(limit, quantity, schedule), 0, 0);
    StartBounded(limit, quantity, schedule, balance);
    RunKeepsBound(limit, schedule, start, batches, end);
    BoundedDrawn(limit, schedule, end);
  }

  lemma StartBounded(limit: Money, quantity: nat, schedule: FeeSchedule, balance: Balance)
    requires schedule.Valid() && schedule.roundingMode == HALF_UP && limit > 0
    ensures Bounded(limit, schedule, Life(quantity, balance, Exposure(limit, quantity, schedule), 0, 0))
  {
    hide Potential, Exposure;
    RefilledPotential(limit, schedule, Life(quantity, balance, Exposure(limit, quantity, schedule), 0, 0));
    MoreLevels(0, 0, FeeStep(schedule)) by { FeeStepNonNegative(schedule); }
  }

  lemma BoundedDrawn(limit: Money, schedule: FeeSchedule, life: Life)
    requires schedule.Valid() && limit > 0 && Bounded(limit, schedule, life)
    ensures 2 * life.drawn <= (life.levels + 1) * schedule.Unit()
  {
    hide Potential, FeeStep;
    if life.drawn > 0 {
      PotentialBoundsDrawn(limit, schedule, life);
    } else {
      MulNonNegative(life.levels + 1, schedule.Unit());
    }
  }

  lemma PotentialBoundsDrawn(limit: Money, schedule: FeeSchedule, life: Life)
    requires schedule.Valid() && limit > 0 && life.reservation == 0
    requires Potential(limit, schedule, life) <= (life.levels + 1) * FeeStep(schedule)
    ensures 2 * life.drawn <= (life.levels + 1) * schedule.Unit()
  {
    hide Pow10;
    MulNonNegative(limit, life.remaining);
    MulNonNegative(limit * life.remaining, GRID + schedule.Rate(BUY));
    CancelGrid(GRID, life.drawn, limit * life.remaining, GRID + schedule.Rate(BUY), life.levels + 1, schedule.Unit());
  }

  lemma CancelGrid(g: int, s: int, n: int, w: int, k: int, unit: int)
    requires g > 0 && n * w >= 0
    requires 2 * g * (s - 0) + 2 * n * w <= k * (unit * g)
    ensures 2 * s <= k * unit
  {
    assert 2 * g * (s - 0) == (2 * s) * g;
    assert 2 * n * w == 2 * (n * w);
    Assoc(k, unit, g);
    if 2 * s > k * unit {
      MulStrict(k * unit, 2 * s, g);
    }
  }
}
