/** When the simulated exchange aborts a replay because a wallet would go negative. */
module ExchangeNegative {
  import opened Types
  import opened Arithmetic
  import opened ExactMoney
  import opened Fees
  import opened Portfolio
  import opened ExchangeModel
  import opened ExchangeInvariants

  // ---- One settlement ----

  /**
    The check is not unreachable as such: whatever passes every other check is stopped by it
    exactly when a sale's fee exceeds its proceeds and the cash at hand together.
   */
  lemma NegativeExactly(x: Exchange, id: nat, t: Trade, kind: OrderType, price: Money)
    requires CashSound(x) && Payable(x, t, price)
    requires Settle(x, id, t, kind, price) != Thrown(Refused(INVARIANT_VIOLATION))
    requires t.instrument.market in x.fees && Calculate(x.fees[t.instrument.market], t.side, price, t.quantity).Ok?
    requires Deliverable(x, t) && Portfolio.WellFormed(PositionOf(x, t.instrument))
    requires ReservedQuantity(x.resting, t.instrument) >= 0
    ensures var fee := Calculate(x.fees[t.instrument.market], t.side, price, t.quantity).value;
            Settle(x, id, t, kind, price) == Thrown(NegativeBalance) <==>
              t.side == SELL && Lookup(x.cash, CurrencyFor(t.instrument.market)) + price * t.quantity < fee
  {
    hide Exact, ReservedIn, ReservedQuantity, RoundDiv;
    CalculateIsFeeOn(x.fees[t.instrument.market], t.side, price, t.quantity);
    FillRefusedByDomain(PositionOf(x, t.instrument),
                        PositionFill(t.side, price, t.quantity,
                                     Calculate(x.fees[t.instrument.market], t.side, price, t.quantity).value));
    hide Calculate, ApplyFill;
  }

  lemma FillRefusedByDomain(p: PositionCost, fill: PositionFill)
    requires Portfolio.WellFormed(p) && fill.price > 0 && fill.quantity > 0 && fill.fee >= 0
    requires fill.side == SELL ==> fill.quantity <= p.quantity
    ensures ApplyFill(p, fill).Err? ==> ApplyFill(p, fill).code == INVARIANT_VIOLATION
  {
    hide Exact, DivideAndRound;
  }

  // ---- Every replay ----

  ghost predicate NeverNegative(fees: map<Market, PublishedSchedule>) {
    forall x, commands |
      Inv(x) && x.fees == fees && (forall i | 0 <= i < |commands| :: ValidCommand(commands[i])) ::
      Replay(x, commands) != Thrown(NegativeBalance)
  }

  /** An account that holds some shares, which cost it nothing, and no cash. */
  function Penniless(fees: map<Market, PublishedSchedule>, i: Instrument, quantity: nat): Exchange {
    Exchange(fees, map[], map[], map[i := PositionCost(quantity, 0, 0)], [], [], map[], 1)
  }

  function SellAll(i: Instrument, price: Money, quantity: nat): Command {
    Submits(Intent(Trade(i, SELL, quantity), MARKET, None), Tick(i, price, None, None))
  }

  /** Selling them all at a price that overcharges stops the replay. */
  lemma PennilessOvercharged(fees: map<Market, PublishedSchedule>, i: Instrument, price: Money, quantity: int)
    requires i.market in fees && Overcharges(fees[i.market], price, quantity)
    ensures quantity > 0 && Inv(Penniless(fees, i, quantity))
    ensures Step(Penniless(fees, i, quantity), SellAll(i, price, quantity)) == Thrown(NegativeBalance)
  {
    hide Exact, RoundDiv;
    var x, t := Penniless(fees, i, quantity), Trade(i, SELL, quantity);
    var fee := Calculate(fees[i.market], SELL, price, quantity).value;
    CalculateIsFeeOn(fees[i.market], SELL, price, quantity);
    var tick := Tick(i, price, None, None);
    assert Settle(Numbered(x), 1, t, MARKET, price) == Thrown(NegativeBalance) by {
      assert 0 + (price * quantity - fee) == price * quantity - fee - 0;
    }
    hide Settle, Calculate;
    SubmitCases(x, Intent(t, MARKET, None), tick);
  }

  /**
    A replay goes negative under some schedules, from some sound account, exactly when some sale
    is charged more than it earns; schedules that satisfy the condition of the fee model never do.
   */
  lemma NeverNegativeExactly(fees: map<Market, PublishedSchedule>)
    ensures NeverNegative(fees) <==> SaleFeesCovered(fees)
    ensures (forall m | m in fees :: FeesCovered(fees[m], SELL)) ==> NeverNegative(fees)
  {
    hide Inv, Replay, FeesCovered, Overcharges;
    if SaleFeesCovered(fees) {
      EveryReplay(fees);
    } else {
      var m, price, quantity :| m in fees && Overcharges(fees[m], price, quantity);
      var i := Instrument(m, "");
      PennilessOvercharged(fees, i, price, quantity);
      OneCommand(Penniless(fees, i, quantity), SellAll(i, price, quantity));
      assert !NeverNegative(fees);
    }
    if forall m | m in fees :: FeesCovered(fees[m], SELL) {
      SchedulesCoverSales(fees);
    }
  }

  lemma EveryReplay(fees: map<Market, PublishedSchedule>)
    requires SaleFeesCovered(fees)
    ensures NeverNegative(fees)
  {
    hide Inv, Replay, SaleFeesCovered;
    forall x, commands | Inv(x) && x.fees == fees && (forall i | 0 <= i < |commands| :: ValidCommand(commands[i]))
      ensures Replay(x, commands) != Thrown(NegativeBalance)
    {
      ReplayKeeps(x, commands);
    }
  }

  lemma OneCommand(x: Exchange, c: Command)
    requires Step(x, c).Thrown?
    ensures Replay(x, [c]) == Thrown(Step(x, c).fault)
  {
  }

  // ---- A replay from an opened account ----

  /** A tax of 0.2% on sales, rounded up to a whole won. */
  const DUTY: FeeSchedule := FeeSchedule(KR, 0, 2 * Pow10(77), 0, UP)

  /** Half a won. */
  const HALF: Money := 5 * Pow10(79)

  lemma HalvesFit(k: int)
    requires -10 <= k <= 10
    ensures Exact(k * HALF)
  {
    hide Pow10;
    assert k * HALF == (5 * k) * Pow10(79);
    Pow10Mono(2, 80);
    assert Pow10(2) == 100 by { Hundred(); }
    ScaledFits(k * HALF, 5 * k, 79, 80);
    AbsProduct(5 * k, Pow10(79));
    MulStrict(Abs(5 * k), Pow10(2), Pow10(79));
    Pow10Add(2, 79);
    Pow10Mono(81, 160);
    DomainBound(k * HALF, 80);
  }

  lemma Hundred()
    ensures Pow10(2) == 100
  {
    assert Pow10(1) == 10;
  }

  lemma DutyOnHalf()
    ensures DUTY.Valid() && HALF > 0
    ensures Calculate(DUTY, BUY, HALF, 1) == Ok(0)
    ensures Calculate(DUTY, SELL, HALF, 1) == Ok(2 * HALF)
  {
    hide Pow10, Exact;
    HalvesFit(1);
    HalvesFit(0);
    HalvesFit(2);
    Pow10Add(3, 77);
    assert HALF * 1 == HALF && HALF * 0 == 0 && 0 * HALF == 0 && 1 * HALF == HALF;
    assert GRID == 2 * HALF == DUTY.Unit() by { assert GRID == 10 * Pow10(79) by { TenfoldPower(79); } }
    assert HALF * DUTY.sellTaxRate == Pow10(77) * GRID by {
      assert (5 * Pow10(79)) * (2 * Pow10(77)) == Pow10(77) * (10 * Pow10(79));
    }
    DivUnique(Pow10(77) * GRID, GRID, Pow10(77), 0);
    DivUnique(0, GRID, 0, 0);
    assert Exact(Pow10(77)) by { TaxFits(); }
    assert Pow10(77) < GRID by { Pow10Mono(78, 80); TenfoldPower(77); }
    DivUnique(Pow10(77), GRID, 0, Pow10(77));
    assert RoundDiv(Pow10(77), GRID, UP) == 1;
    assert RoundDiv(0, GRID, UP) == 0;
    assert DUTY.Unit() * 1 == 2 * HALF && DUTY.Unit() * 0 == 0;
  }

  lemma TenfoldPower(k: nat)
    ensures Pow10(k + 1) == 10 * Pow10(k)
  {
  }

  lemma TaxFits()
    ensures Exact(Pow10(77))
  {
    hide Pow10;
    Pow10Mono(78, 80);
    TenfoldPower(77);
    SmallFits(Pow10(77), 80);
  }

  /** An account that has spent half a won on its one share, and has no other cash. */
  predicate Spent(x: Exchange, i: Instrument) {
    && KR in x.fees && x.fees[KR] == DUTY && x.resting == []
    && Lookup(x.cash, KRW) == 0 && PositionOf(x, i) == PositionCost(1, HALF, 0)
  }

  function MarketOrder(i: Instrument, side: Side, price: Money): Command {
    Submits(Intent(Trade(i, side, 1), MARKET, None), Tick(i, price, None, None))
  }

  function Wallet(): Exchange
    requires DUTY.Valid()
  {
    Opened(map[KR := DUTY], map[KRW := HALF])
  }

  lemma HalfSettles(i: Instrument)
    requires i.market == KR && DUTY.Valid()
    ensures var settled := Settle(Numbered(Wallet()), 1, Trade(i, BUY, 1), MARKET, HALF);
            settled.Good? && Spent(settled.value.after, i)
  {
    hide Exact, Calculate;
    DutyOnHalf();
    HalvesFit(0);
    HalvesFit(1);
    hide HALF, DUTY;
  }

  lemma BuysForHalf(i: Instrument)
    requires i.market == KR && DUTY.Valid()
    ensures var bought := Step(Wallet(), MarketOrder(i, BUY, HALF)); bought.Good? && Spent(bought.value, i)
  {
    hide Exact, Calculate, Settle, Spent;
    DutyOnHalf();
    HalvesFit(1);
    HalfSettles(i);
    hide HALF, DUTY;
    assert Accepted(Wallet(), MarketOrder(i, BUY, HALF).intent, MarketOrder(i, BUY, HALF).tick);
    SubmitCases(Wallet(), MarketOrder(i, BUY, HALF).intent, MarketOrder(i, BUY, HALF).tick);
    hide Submit;
  }

  lemma SettlesPastZero(x: Exchange, i: Instrument)
    requires i.market == KR && DUTY.Valid() && Spent(x, i)
    ensures Settle(Numbered(x), x.nextOrderId, Trade(i, SELL, 1), MARKET, HALF) == Thrown(NegativeBalance)
  {
    hide Exact, Calculate;
    DutyOnHalf();
    HalvesFit(-2);
    HalvesFit(-1);
    HalvesFit(1);
    hide HALF, DUTY;
  }

  lemma SalePastZero(x: Exchange, i: Instrument)
    requires i.market == KR && DUTY.Valid() && Spent(x, i)
    ensures Step(x, MarketOrder(i, SELL, HALF)) == Thrown(NegativeBalance)
  {
    hide Exact, Calculate, Settle;
    DutyOnHalf();
    HalvesFit(1);
    SettlesPastZero(x, i);
    hide HALF, DUTY;
    assert ReservedQuantity(x.resting, i) == 0;
    SubmitCases(x, MarketOrder(i, SELL, HALF).intent, MarketOrder(i, SELL, HALF).tick);
    hide Submit;
  }

  /** Half a won in the wallet: one share is bought for it and sold again on the same tick. */
  lemma NegativeReplay(i: Instrument)
    requires i.market == KR
    ensures DUTY.Valid()
    ensures Replay(Wallet(), [MarketOrder(i, BUY, HALF), MarketOrder(i, SELL, HALF)]) == Thrown(NegativeBalance)
  {
    hide Step, Spent;
    DutyOnHalf();
    BuysForHalf(i);
    var bought := Step(Wallet(), MarketOrder(i, BUY, HALF)).value;
    SalePastZero(bought, i);
    OneCommand(bought, MarketOrder(i, SELL, HALF));
    assert [MarketOrder(i, BUY, HALF), MarketOrder(i, SELL, HALF)][1..] == [MarketOrder(i, SELL, HALF)];
  }
}
