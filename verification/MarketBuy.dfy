/**
  A market buy from its reservation to its execution: which price deviation of the matcher the
  reserved 5% covers.
 */
module MarketBuy {
  import opened Types
  import opened Arithmetic
  import opened ExactMoney
  import opened Fees
  import opened Execution
  import opened Reservation
  import Engine

  /** The deviation, in basis points, that the reservation's 5% amounts to. */
  const COVERED_BPS := 500

  /** The largest deviation the matcher accepts: it has to be a safe integer. */
  const LARGEST_BPS := 9_007_199_254_740_991

  /** The planned order as it is executed. */
  function AsExecuted(o: PlannedOrder): Order {
    Order(o.side, o.kind, o.quantity, o.Filled(), o.limitPrice)
  }

  /** If the matcher admits this execution, with fees within the estimate, the reservation pays for it. */
  ghost predicate Covered(o: PlannedOrder, bids: seq<Level>, asks: seq<Level>, market: Market,
                          schedule: PublishedSchedule, bps: nat)
    requires CarriesMarketBuy(o)
  {
    var r := Execute(AsExecuted(o), bids, asks, market, schedule, Protection(o.referencePrice.value, bps));
    r.Ok? && r.value.feeTotal <= EstimatedFee(o) ==> 100 * r.value.netAmount <= Amount(PlanReservation(o).value)
  }

  /** So it does for every market buy, book and fee schedule. */
  ghost predicate CoversAll(bps: nat) {
    forall o: PlannedOrder, bids: seq<Level>, asks: seq<Level>, market: Market, schedule: PublishedSchedule
      | CarriesMarketBuy(o) && o.kind == MARKET :: Covered(o, bids, asks, market, schedule, bps)
  }

  // ---- What the matcher admits ----

  lemma {:induction false} AdmissibleAt(order: Order, protection: Protection, levels: seq<Level>, k: nat)
    requires k < AdmissibleCount(order, protection, levels)
    ensures Admissible(order, protection, levels[k])
  {
    if k > 0 {
      AdmissibleAt(order, protection, levels[1..], k - 1);
    }
  }

  /** Every fill of a market-style execution is within the deviation. */
  lemma FillsAreProtected(order: Order, bids: seq<Level>, asks: seq<Level>, market: Market, schedule: FeeSchedule,
                          protection: Protection)
    requires schedule.Valid() && Execute(order, bids, asks, market, schedule, protection).Ok?
    ensures forall f | f in Execute(order, bids, asks, market, schedule, protection).value.fills ::
              Protected(order, protection, f.price)
  {
    var levels, w, r := ExecutionParts(order, bids, asks, market, schedule, protection);
    WalkIsGreedy(order, schedule, protection, levels, Start(order));
    var n := AdmissibleCount(order, protection, levels);
    hide Execute, WalkLevels, Protected;
    assert FillsFollow(levels[..n], Greedy(levels[..n], Start(order).remaining), [], w.fills);
    forall k | 0 <= k < |w.fills| ensures Protected(order, protection, w.fills[k].price) {
      AdmissibleAt(order, protection, levels, k);
      assert w.fills[k].price == levels[..n][k].price;
    }
  }

  lemma WithinFivePercent(price: Money, reference: Money, bps: nat)
    requires reference > 0 && bps <= COVERED_BPS
    requires Abs(price - reference) * 10_000 <= reference * bps
    ensures 100 * price <= PROTECTION_PERCENT * reference
  {
    MulMono(bps, COVERED_BPS, reference);
    Swap(reference, bps);
  }

  lemma NarrowIsCovered(o: PlannedOrder, bids: seq<Level>, asks: seq<Level>, market: Market,
                        schedule: PublishedSchedule, bps: nat)
    requires CarriesMarketBuy(o) && o.kind == MARKET && bps <= COVERED_BPS
    ensures Covered(o, bids, asks, market, schedule, bps)
  {
    var protection := Protection(o.referencePrice.value, bps);
    var r := Execute(AsExecuted(o), bids, asks, market, schedule, protection);
    if r.Ok? && r.value.feeTotal <= EstimatedFee(o) {
      ExecutionConserves(AsExecuted(o), bids, asks, market, schedule, protection);
      FillsAreProtected(AsExecuted(o), bids, asks, market, schedule, protection);
      var fills := r.value.fills;
      hide Execute, FeeOn, RoundSignificant, SignificantDigits, BuyCost;
      forall i | 0 <= i < |fills|
        ensures fills[i].quantity > 0 && 100 * fills[i].price <= PROTECTION_PERCENT * o.referencePrice.value
      {
        assert fills[i] in fills;
        WithinFivePercent(fills[i].price, o.referencePrice.value, bps);
      }
      ProtectionCovers(o, fills);
    }
  }

  // ---- A book the reservation does not cover ----

  lemma TenTo(k: nat)
    requires 20 <= k
    ensures Pow10(k) >= 100_000_000_000_000_000_000
  {
    Pow10Mono(20, k);
    assert Pow10(20) == 100_000_000_000_000_000_000 by {
      assert Pow10(4) == 10_000 && Pow10(8) == 100_000_000 && Pow10(12) == 1_000_000_000_000;
      assert Pow10(16) == 10_000_000_000_000_000;
    }
  }

  /** Numbers of twenty digits are carried, and exact. */
  lemma Moderate(n: int)
    requires Abs(n) < 100_000_000_000_000_000_000
    ensures Fits(n) && Exact(n)
  {
    TenTo(PLAN_DIGITS);
    TenTo(PRECISION);
    SmallFits(n, PLAN_DIGITS);
    SmallFits(n, PRECISION);
  }

  /** A market buy of some shares at a reference of ten thousand units. */
  function Sample(quantity: int): PlannedOrder {
    PlannedOrder("o", OPEN, BUY, MARKET, KRW, "005930", quantity, None, None, Some(10_000), Some(0))
  }

  lemma SampleCarries(quantity: int)
    requires 0 < quantity < 1_000
    ensures CarriesMarketBuy(Sample(quantity))
  {
    hide Fits, BuyCost, Exact, RoundSignificant;
    Moderate(quantity);
    Moderate(quantity * 10_000);
    Moderate(PROTECTION_PERCENT * (quantity * 10_000));
    Moderate(PROTECTION_PERCENT * (quantity * 10_000) + LIMIT_PERCENT * 0);
    assert PlanReservation(Sample(quantity)).Ok?;
    hide PlanReservation;
  }

  const BIDS := [Level(1, 1)]

  /** A level emptied by the order, free of charge. */
  lemma ConsumesLevel(order: Order, level: Level, w: WalkState)
    requires order.side == BUY && level.price > 0 && level.volume == 1 <= w.remaining
    requires Exact(level.price) && Exact(w.grossAmount + level.price) && w.feeTotal == 0
    ensures Consume(order, FREE, level, w)
         == Ok(WalkState(w.remaining - 1, w.grossAmount + level.price, 0, w.fills + [Fill(level.price, 1, 0)], false))
  {
    hide Exact, Calculate;
    ZeroFits();
    assert level.price * 1 == level.price;
    FreeOfCharge(BUY, level.price, 1);
  }

  /** The whole of the sample at one price: it costs its price, whatever the deviation that lets it through. */
  lemma OneLevelRuns(price: Money, bps: nat)
    requires 10_000 < price < 1_000_000 && bps <= LARGEST_BPS
    requires (price - 10_000) * 10_000 <= 10_000 * bps
    ensures var r := Execute(AsExecuted(Sample(1)), BIDS, [Level(price, 1)], KR, FREE, Protection(10_000, bps));
            r.Ok? && r.value.feeTotal == 0 && r.value.netAmount == price
  {
    hide Exact;
    var order, asks, protection := AsExecuted(Sample(1)), [Level(price, 1)], Protection(10_000, bps);
    Moderate(price);
    Moderate(1);
    Moderate(10_000);
    Moderate(price - 10_000);
    OneLevelValid(price, bps);
    var w := WalkState(0, price, 0, [Fill(price, 1, 0)], false);
    assert WalkLevels(order, FREE, protection, asks, Start(order)) == Ok(w) by {
      OneLevelAdmitted(price, bps);
      ConsumesLevel(order, asks[0], Start(order));
      hide Consume, WithinProtection;
      assert [] + [Fill(price, 1, 0)] == [Fill(price, 1, 0)];
      assert WalkLevels(order, FREE, protection, asks[1..], w) == Ok(w);
    }
    hide WalkLevels, Validate;
  }

  lemma OneLevelAdmitted(price: Money, bps: nat)
    requires 10_000 < price < 1_000_000 && bps <= LARGEST_BPS
    requires (price - 10_000) * 10_000 <= 10_000 * bps
    ensures WithinProtection(price, Protection(10_000, bps)) == Ok(true)
  {
    hide Exact;
    Moderate(price - 10_000);
    Moderate((price - 10_000) * 10_000);
    Moderate(10_000 * bps);
  }

  lemma OneLevelValid(price: Money, bps: nat)
    requires 10_000 < price && Exact(price) && Exact(1) && Exact(10_000)
    ensures Validate(AsExecuted(Sample(1)), BIDS, [Level(price, 1)], KR, FREE, Protection(10_000, bps)).Ok?
  {
    hide Exact;
    assert BIDS[1..] == [] && [Level(price, 1)][1..] == [];
  }

  /** One share at 5.01% above the reference. */
  lemma WideIsNotCovered(bps: nat)
    requires COVERED_BPS < bps <= LARGEST_BPS
    ensures CarriesMarketBuy(Sample(1)) && !Covered(Sample(1), BIDS, [Level(10_501, 1)], KR, FREE, bps)
  {
    SampleCarries(1);
    OneLevelRuns(10_501, bps);
    MarketBuyPlan(Sample(1));
    hide Execute, PlanReservation;
  }

  /**
    The reservation of a market buy pays for every execution the matcher admits, from any book and
    at any fee schedule with fees within the estimate, exactly when the matcher is given a deviation
    of at most 500 basis points.
   */
  lemma CoveredExactly(bps: nat)
    requires bps <= LARGEST_BPS
    ensures CoversAll(bps) <==> bps <= COVERED_BPS
  {
    hide Covered, CarriesMarketBuy;
    if bps <= COVERED_BPS {
      forall o: PlannedOrder, bids: seq<Level>, asks: seq<Level>, market: Market, schedule: PublishedSchedule
        | CarriesMarketBuy(o) && o.kind == MARKET
        ensures Covered(o, bids, asks, market, schedule, bps)
      {
        NarrowIsCovered(o, bids, asks, market, schedule, bps);
      }
    } else {
      WideIsNotCovered(bps);
    }
  }

  // ---- What the matcher is given ----

  /** Two shares offered at the reference and at twice the reference. */
  function Doubling(): Engine.Book {
    Engine.Book("005930", BIDS, [Level(10_000, 1), Level(20_000, 1)])
  }

  lemma DoublingValid()
    requires Exact(1) && Exact(10_000) && Exact(20_000)
    ensures Validate(AsExecuted(Sample(2)), BIDS, Doubling().asks, KR, FREE, Protection(10_000, 10_000)).Ok?
  {
    hide Exact;
    var asks := Doubling().asks;
    assert BIDS[1..] == [] && asks[1..] == [Level(20_000, 1)] && asks[1..][1..] == [];
  }

  lemma DoublingAdmitted()
    ensures WithinProtection(10_000, Protection(10_000, 10_000)) == Ok(true)
    ensures WithinProtection(20_000, Protection(10_000, 10_000)) == Ok(true)
  {
    hide Exact;
    Moderate(0);
    Moderate(10_000);
    Moderate(100_000_000);
  }

  lemma DoublingWalks()
    ensures WalkLevels(AsExecuted(Sample(2)), FREE, Protection(10_000, 10_000), Doubling().asks,
                       Start(AsExecuted(Sample(2))))
         == Ok(WalkState(0, 30_000, 0, [Fill(10_000, 1, 0), Fill(20_000, 1, 0)], false))
  {
    hide Exact, Consume, WithinProtection;
    var order, asks, protection := AsExecuted(Sample(2)), Doubling().asks, Protection(10_000, 10_000);
    Moderate(10_000);
    Moderate(20_000);
    Moderate(30_000);
    var w1 := WalkState(1, 10_000, 0, [Fill(10_000, 1, 0)], false);
    var w2 := WalkState(0, 30_000, 0, [Fill(10_000, 1, 0), Fill(20_000, 1, 0)], false);
    ConsumesLevel(order, asks[0], Start(order));
    ConsumesLevel(order, asks[1], w1);
    DoublingAdmitted();
    assert [] + [Fill(10_000, 1, 0)] == w1.fills && w1.fills + [Fill(20_000, 1, 0)] == w2.fills;
    assert asks[1..] == [asks[1]] && asks[1..][1..] == [];
    assert WalkLevels(order, FREE, protection, asks[1..][1..], w2) == Ok(w2);
    assert WalkLevels(order, FREE, protection, asks[1..], w1) == Ok(w2);
  }

  /**
    The matcher is given 10,000: on this book it fills the order at twice its reference and spends
    half again as much as the reservation holds.
   */
  lemma MatcherOverspends(version: nat)
    ensures CarriesMarketBuy(Sample(2))
    ensures var order := Engine.PaperOrder("005930", BUY, MARKET, 2, None, None, 0, OPEN, version);
            var m := Engine.MatchOrder(order, Doubling(), KR, FREE);
            && m.Ok? && m.value.nextStatus == FILLED && m.value.execution.feeTotal == 0
            && 100 * m.value.execution.netAmount == 3_000_000
            && Amount(PlanReservation(Sample(2)).value) == 2_100_000
  {
    SampleCarries(2);
    MarketBuyPlan(Sample(2));
    Moderate(1);
    Moderate(10_000);
    Moderate(20_000);
    Moderate(30_000);
    hide PlanReservation;
    DoublingValid();
    DoublingWalks();
    hide Exact, WalkLevels, Validate;
  }
}
