/** What every replay of the simulated exchange keeps. */
module ExchangeInvariants {
  import opened Types
  import opened ExactMoney
  import opened Fees
  import opened Portfolio
  import opened ExchangeModel

  // ---- The invariant ----

  /** What a resting order has reserved in a currency. */
  function ReservedBy(order: Resting, c: Currency): Money {
    if order.reservedCash.Some? && CurrencyFor(order.instrument.market) == c then order.reservedCash.value else 0
  }

  function ReservedIn(resting: seq<Resting>, c: Currency): Money {
    if resting == [] then 0 else ReservedBy(resting[0], c) + ReservedIn(resting[1..], c)
  }

  /** A resting buy reserves exactly what its fill will cost at its own limit; a sale reserves no cash. */
  predicate SoundOrder(x: Exchange, order: Resting) {
    && order.id < x.nextOrderId && order.quantity > 0 && order.instrument.market in x.fees
    && (if order.side == SELL then order.reservedCash.None?
        else order.reservedCash.Some?
             && OrderCost(x.fees[order.instrument.market], BUY, order.limitPrice, order.quantity)
                == Good(order.reservedCash.value))
  }

  ghost predicate OrdersSound(x: Exchange) {
    forall k | 0 <= k < |x.resting| :: SoundOrder(x, x.resting[k])
  }

  ghost predicate Distinct(resting: seq<Resting>) {
    forall j, k | 0 <= j < k < |resting| :: resting[j].id != resting[k].id
  }

  ghost predicate CashSound(x: Exchange) {
    forall c :: Lookup(x.cash, c) >= 0 && Lookup(x.reservedCash, c) == ReservedIn(x.resting, c)
  }

  /** Every position is well formed and covers the sales resting against it. */
  ghost predicate PositionsSound(x: Exchange) {
    forall i :: Portfolio.WellFormed(PositionOf(x, i)) && ReservedQuantity(x.resting, i) <= PositionOf(x, i).quantity
  }

  ghost predicate Inv(x: Exchange) {
    OrdersSound(x) && Distinct(x.resting) && CashSound(x) && PositionsSound(x)
  }

  lemma OpenedSound(fees: map<Market, PublishedSchedule>, cash: map<Currency, Money>)
    requires forall c | c in cash :: cash[c] >= 0
    ensures Inv(Opened(fees, cash))
  {
  }

  // ---- The book of resting orders ----

  lemma {:induction false} AppendSums(resting: seq<Resting>, order: Resting, c: Currency, i: Instrument)
    ensures ReservedIn(resting + [order], c) == ReservedIn(resting, c) + ReservedBy(order, c)
    ensures ReservedQuantity(resting + [order], i)
         == ReservedQuantity(resting, i) + ReservedQuantity([order], i)
  {
    if resting == [] {
      assert resting + [order] == [order];
    } else {
      assert (resting + [order])[1..] == resting[1..] + [order];
      AppendSums(resting[1..], order, c, i);
    }
  }

  /** Taking an order off the book takes exactly what it reserved. */
  lemma {:induction false} DropSums(resting: seq<Resting>, k: nat, c: Currency, i: Instrument)
    requires Distinct(resting) && k < |resting|
    ensures Drop(resting, resting[k].id) == resting[..k] + resting[k + 1..]
    ensures ReservedIn(Drop(resting, resting[k].id), c) == ReservedIn(resting, c) - ReservedBy(resting[k], c)
    ensures ReservedQuantity(Drop(resting, resting[k].id), i)
         == ReservedQuantity(resting, i) - ReservedQuantity([resting[k]], i)
  {
    if k > 0 {
      assert resting[1..][k - 1] == resting[k];
      DropSums(resting[1..], k - 1, c, i);
      var dropped := Drop(resting[1..], resting[k].id);
      assert Drop(resting, resting[k].id) == [resting[0]] + dropped;
      assert ([resting[0]] + dropped)[1..] == dropped;
    }
  }

  lemma CostPositive(model: PublishedSchedule, price: Money, quantity: int)
    requires OrderCost(model, BUY, price, quantity).Good?
    ensures OrderCost(model, BUY, price, quantity).value > 0
  {
    hide FeeOn;
    CalculateIsFeeOn(model, BUY, price, quantity);
  }

  // ---- Releasing and reserving ----

  lemma ReleaseMoves(x: Exchange, order: Resting, released: Exchange)
    requires ReleaseCash(x, order) == Good(released)
    ensures released == x.(cash := released.cash, reservedCash := released.reservedCash)
    ensures forall c :: Lookup(released.cash, c) == Lookup(x.cash, c) + ReservedBy(order, c)
    ensures forall c :: Lookup(released.reservedCash, c) == Lookup(x.reservedCash, c) - ReservedBy(order, c)
  {
    hide Exact;
  }

  lemma DropAll(resting: seq<Resting>, k: nat)
    requires Distinct(resting) && k < |resting|
    ensures var dropped := Drop(resting, resting[k].id);
            && dropped == resting[..k] + resting[k + 1..]
            && (forall c :: ReservedIn(dropped, c) == ReservedIn(resting, c) - ReservedBy(resting[k], c))
            && (forall i :: ReservedQuantity(dropped, i)
                         == ReservedQuantity(resting, i) - ReservedQuantity([resting[k]], i))
  {
    hide ReservedIn, ReservedQuantity, ReservedBy, Drop;
    forall c ensures ReservedIn(Drop(resting, resting[k].id), c) == ReservedIn(resting, c) - ReservedBy(resting[k], c) {
      DropSums(resting, k, c, resting[k].instrument);
    }
    forall i ensures ReservedQuantity(Drop(resting, resting[k].id), i)
                  == ReservedQuantity(resting, i) - ReservedQuantity([resting[k]], i)
    {
      DropSums(resting, k, KRW, i);
    }
    DropSums(resting, k, KRW, resting[k].instrument);
  }

  lemma OneReserves(x: Exchange, order: Resting)
    requires SoundOrder(x, order)
    ensures forall c :: ReservedBy(order, c) >= 0
    ensures forall i :: ReservedQuantity([order], i) >= 0
    ensures forall i :: ReservedQuantity([order], i) ==
              if order.side == SELL && i == order.instrument then order.quantity else 0
  {
    hide OrderCost;
    forall i ensures ReservedQuantity([order], i) ==
                       if order.side == SELL && i == order.instrument then order.quantity else 0
    {
      assert ReservedQuantity([order][1..], i) == 0;
    }
    if order.side == BUY {
      CostPositive(x.fees[order.instrument.market], order.limitPrice, order.quantity);
    }
  }

  /** Taking an order off the book and giving its cash back keeps the account sound. */
  lemma ReleaseKeeps(x: Exchange, k: nat, released: Exchange)
    requires Inv(x) && k < |x.resting| && ReleaseCash(x, x.resting[k]) == Good(released)
    ensures var after := released.(resting := Drop(released.resting, x.resting[k].id));
            && Inv(after)
            && after == x.(cash := after.cash, reservedCash := after.reservedCash, resting := after.resting)
            && after.resting == x.resting[..k] + x.resting[k + 1..]
            && (forall c :: Lookup(after.cash, c) == Lookup(x.cash, c) + ReservedBy(x.resting[k], c))
            && (forall c :: Lookup(after.reservedCash, c) == Lookup(x.reservedCash, c) - ReservedBy(x.resting[k], c))
            && (forall i :: ReservedQuantity(after.resting, i)
                         == ReservedQuantity(x.resting, i) - ReservedQuantity([x.resting[k]], i))
  {
    hide ReleaseCash, ReservedIn, ReservedQuantity, Drop, ReservedBy, SoundOrder;
    var order := x.resting[k];
    assert SoundOrder(x, order);
    var after := released.(resting := Drop(released.resting, order.id));
    ReleaseMoves(x, order, released);
    DropAll(x.resting, k);
    OneReserves(x, order);
    assert forall j | 0 <= j < |after.resting| :: SoundOrder(x, after.resting[j]);
    SameOrders(x, after);
    assert forall i :: PositionOf(after, i) == PositionOf(x, i);
  }

  lemma SameOrders(x: Exchange, after: Exchange)
    requires after.fees == x.fees && after.nextOrderId >= x.nextOrderId
    requires forall j | 0 <= j < |after.resting| :: SoundOrder(x, after.resting[j])
    ensures OrdersSound(after)
  {
    hide OrderCost;
  }

  // ---- Settling ----

  /** The cash a trade moves. */
  function Flow(side: Side, price: Money, quantity: int, fee: Money): Money {
    CashFlow(PositionFill(side, price, quantity, fee))
  }

  lemma SettleMoves(x: Exchange, id: nat, t: Trade, kind: OrderType, price: Money, s: Settlement)
    requires Settle(x, id, t, kind, price) == Good(s)
    ensures t.instrument.market in x.fees
    ensures Calculate(x.fees[t.instrument.market], t.side, price, t.quantity) == Ok(s.fill.fee)
    ensures ApplyFill(PositionOf(x, t.instrument), PositionFill(t.side, price, t.quantity, s.fill.fee))
         == Ok(PositionOf(s.after, t.instrument))
    ensures s.after == x.(positions := x.positions[t.instrument := PositionOf(s.after, t.instrument)],
                          cash := s.after.cash, paid := s.after.paid, fills := x.fills + [s.fill])
    ensures s.fill == SimulatedFill(id, t, kind, price, s.fill.fee, s.fill.realizedDelta)
    ensures s.fill.realizedDelta
         == PositionOf(s.after, t.instrument).realizedPnl - PositionOf(x, t.instrument).realizedPnl
    ensures forall c :: Lookup(s.after.cash, c) == Lookup(x.cash, c)
              + (if c == CurrencyFor(t.instrument.market) then Flow(t.side, price, t.quantity, s.fill.fee) else 0)
    ensures Lookup(s.after.cash, CurrencyFor(t.instrument.market)) >= 0
  {
    hide Exact, Calculate, ApplyFill;
  }

  /** The position has what a sale takes, beyond what other resting sales have spoken for. */
  predicate Deliverable(x: Exchange, t: Trade) {
    t.side == SELL ==> t.quantity <= PositionOf(x, t.instrument).quantity - ReservedQuantity(x.resting, t.instrument)
  }

  lemma SettleKeeps(x: Exchange, id: nat, t: Trade, kind: OrderType, price: Money, s: Settlement)
    requires Inv(x) && t.quantity > 0 && Deliverable(x, t) && Settle(x, id, t, kind, price) == Good(s)
    ensures Inv(s.after) && s.after.resting == x.resting && s.after.fees == x.fees
    ensures s.after.nextOrderId == x.nextOrderId
  {
    hide Settle, ApplyFill, Calculate, ReservedIn, ReservedQuantity;
    SettleMoves(x, id, t, kind, price, s);
    FillConserves(PositionOf(x, t.instrument), PositionFill(t.side, price, t.quantity, s.fill.fee));
    hide CashFlow;
    assert forall i | i != t.instrument :: PositionOf(s.after, i) == PositionOf(x, i);
    SameOrders(x, s.after);
    hide SoundOrder;
  }

  /** The wallet can pay for a trade, fee included. */
  predicate Payable(x: Exchange, t: Trade, price: Money) {
    t.side == BUY ==>
      && t.instrument.market in x.fees
      && OrderCost(x.fees[t.instrument.market], BUY, price, t.quantity).Good?
      && OrderCost(x.fees[t.instrument.market], BUY, price, t.quantity).value
         <= Lookup(x.cash, CurrencyFor(t.instrument.market))
  }

  /**
    A paid-for settlement would go negative only for a sale whose fee exceeds what it earns and
    all the cash there is.
   */
  lemma NegativeOnlyBelowFee(x: Exchange, id: nat, t: Trade, kind: OrderType, price: Money)
    requires CashSound(x) && Payable(x, t, price) && Settle(x, id, t, kind, price) == Thrown(NegativeBalance)
    ensures t.side == SELL && t.instrument.market in x.fees
    ensures var fee := Calculate(x.fees[t.instrument.market], SELL, price, t.quantity);
            && fee.Ok?
            && Lookup(x.cash, CurrencyFor(t.instrument.market)) + price * t.quantity < fee.value
            && Overcharges(x.fees[t.instrument.market], price, t.quantity)
  {
    hide Exact, Calculate, ReservedIn;
  }

  /** A sale is charged more than it earns, by an amount the account could record. */
  predicate Overcharges(model: PublishedSchedule, price: Money, quantity: int) {
    var fee := Calculate(model, SELL, price, quantity);
    fee.Ok? && price * quantity < fee.value && Exact(price * quantity - fee.value)
  }

  ghost predicate SaleFeesCovered(fees: map<Market, PublishedSchedule>) {
    forall m, price, quantity | m in fees :: !Overcharges(fees[m], price, quantity)
  }

  /** It follows from the schedules alone: from their rates, rounding modes and units. */
  lemma SchedulesCoverSales(fees: map<Market, PublishedSchedule>)
    requires forall m | m in fees :: FeesCovered(fees[m], SELL)
    ensures SaleFeesCovered(fees)
  {
    hide Calculate, FeeOn, FeesCovered, Exact;
    forall m, price, quantity | m in fees ensures !Overcharges(fees[m], price, quantity) {
      if Calculate(fees[m], SELL, price, quantity).Ok? {
        CalculateIsFeeOn(fees[m], SELL, price, quantity);
        CoveredCharge(fees[m], SELL, price * quantity);
      }
    }
  }

  // ---- Matching ----

  /** The orders still to be looked at are on the book, each once. */
  ghost predicate Snapshot(x: Exchange, orders: seq<Resting>) {
    && Distinct(orders)
    && forall k | 0 <= k < |orders| :: orders[k] in x.resting
  }

  lemma RestingFillReady(x: Exchange, k: nat, released: Exchange)
    requires Inv(x) && k < |x.resting| && ReleaseCash(x, x.resting[k]) == Good(released)
    ensures var order := x.resting[k];
            var after := released.(resting := Drop(released.resting, order.id));
            var t := Trade(order.instrument, order.side, order.quantity);
            Inv(after) && Deliverable(after, t) && Payable(after, t, order.limitPrice) && t.quantity > 0
  {
    ReleaseKeeps(x, k, released);
    var order := x.resting[k];
    assert SoundOrder(x, order);
    var after := released.(resting := Drop(released.resting, order.id));
    assert order.side == SELL ==> ReservedQuantity([order], order.instrument) == order.quantity by {
      assert [order][1..] == [];
    }
    hide Drop, ReleaseCash, OrderCost, ReservedIn;
  }

  lemma FillRestingKeeps(x: Exchange, k: nat, s: Settlement)
    requires Inv(x) && k < |x.resting| && FillResting(x, x.resting[k]) == Good(s)
    ensures Inv(s.after) && s.after.fees == x.fees && s.after.resting == x.resting[..k] + x.resting[k + 1..]
  {
    var order := x.resting[k];
    var released := ReleaseCash(x, order).value;
    var ready := released.(resting := Drop(released.resting, order.id));
    hide Settle, Inv, ReleaseCash;
    RestingFillReady(x, k, released);
    ReleaseKeeps(x, k, released);
    SettleKeeps(ready, order.id, Trade(order.instrument, order.side, order.quantity), LIMIT, order.limitPrice, s);
  }

  lemma SnapshotShrinks(x: Exchange, orders: seq<Resting>, k: nat, after: Exchange)
    requires orders != [] && Snapshot(x, orders) && k < |x.resting| && x.resting[k] == orders[0] && Distinct(x.resting)
    requires after.resting == x.resting[..k] + x.resting[k + 1..]
    ensures Snapshot(after, orders[1..])
  {
    forall j | 0 <= j < |orders[1..]| ensures orders[1..][j] in after.resting {
      var i :| 0 <= i < |x.resting| && x.resting[i] == orders[j + 1];
      assert i != k;
      assert x.resting[i] == after.resting[if i < k then i else i - 1];
    }
  }

  lemma {:induction false} MatchKeeps(x: Exchange, orders: seq<Resting>, tick: Tick)
    requires Inv(x) && Snapshot(x, orders)
    ensures var m := Match(x, orders, tick);
            && (m.Good? ==> Inv(m.value.after) && m.value.after.fees == x.fees)
            && (SaleFeesCovered(x.fees) ==> m != Thrown(NegativeBalance))
    decreases |orders|
  {
    hide FillResting, SaleFeesCovered, Hit;
    if orders != [] {
      if !Hit(orders[0], tick) {
        assert Snapshot(x, orders[1..]);
        MatchKeeps(x, orders[1..], tick);
      } else {
        var k :| 0 <= k < |x.resting| && x.resting[k] == orders[0];
        var first := FillResting(x, orders[0]);
        if first.Good? {
          FillRestingKeeps(x, k, first.value);
          SnapshotShrinks(x, orders, k, first.value.after);
          hide Inv, Snapshot;
          MatchKeeps(first.value.after, orders[1..], tick);
        } else if SaleFeesCovered(x.fees) {
          FillRestingCovered(x, k);
        }
      }
    }
  }

  lemma FillRestingCovered(x: Exchange, k: nat)
    requires Inv(x) && k < |x.resting| && SaleFeesCovered(x.fees)
    ensures FillResting(x, x.resting[k]) != Thrown(NegativeBalance)
  {
    hide Settle;
    var order := x.resting[k];
    var released := ReleaseCash(x, order);
    if released.Good? {
      RestingFillReady(x, k, released.value);
      var ready := released.value.(resting := Drop(released.value.resting, order.id));
      CoveredSettle(ready, order.id, Trade(order.instrument, order.side, order.quantity), LIMIT, order.limitPrice);
    }
  }

  lemma CoveredSettle(x: Exchange, id: nat, t: Trade, kind: OrderType, price: Money)
    requires CashSound(x) && Payable(x, t, price) && SaleFeesCovered(x.fees)
    ensures Settle(x, id, t, kind, price) != Thrown(NegativeBalance)
  {
    hide Settle, Calculate;
    if Settle(x, id, t, kind, price) == Thrown(NegativeBalance) {
      NegativeOnlyBelowFee(x, id, t, kind, price);
    }
  }

  // ---- Submitting ----

  /** The price an accepted order trades at, and whether it trades now. */
  function PriceOf(intent: Intent, tick: Tick): Money {
    if intent.kind == LIMIT && intent.limitPrice.Some? then intent.limitPrice.value else Touch(intent.trade.side, tick)
  }

  predicate TradesNow(intent: Intent, tick: Tick) {
    intent.kind == LIMIT && intent.limitPrice.Some? ==> Reaches(intent.trade.side, PriceOf(intent, tick), tick)
  }

  predicate Accepted(x: Exchange, intent: Intent, tick: Tick) {
    var t := intent.trade;
    && t.instrument.market in x.fees && (intent.kind == MARKET || intent.kind == LIMIT)
    && Deliverable(x, t) && Payable(x, t, PriceOf(intent, tick))
    && OrderCost(x.fees[t.instrument.market], t.side, PriceOf(intent, tick), t.quantity).Good?
  }

  function Numbered(x: Exchange): Exchange {
    x.(nextOrderId := x.nextOrderId + 1)
  }

  /** The order an accepted intent leaves resting. */
  function RestingOrder(x: Exchange, intent: Intent, tick: Tick): Resting
    requires Accepted(x, intent, tick)
  {
    var t := intent.trade;
    Resting(x.nextOrderId, t.instrument, t.side, t.quantity, PriceOf(intent, tick),
            if t.side == BUY
            then Some(OrderCost(x.fees[t.instrument.market], BUY, PriceOf(intent, tick), t.quantity).value) else None)
  }

  /** An intent that is not accepted has no effect; an accepted one is settled at once or put to rest. */
  lemma SubmitCases(x: Exchange, intent: Intent, tick: Tick)
    ensures var s := Submit(x, intent, tick);
            if !Accepted(x, intent, tick) then
              if s.Good? then s.value.after == x && s.value.outcome.Rejected? else s.fault.Refused?
            else if TradesNow(intent, tick) then
              var settled := Settle(Numbered(x), x.nextOrderId, intent.trade, intent.kind, PriceOf(intent, tick));
              if settled.Good?
              then s == Good(Submission(settled.value.after, Filled(x.nextOrderId, settled.value.fill)))
              else s == Thrown(settled.fault)
            else
              var order := RestingOrder(x, intent, tick);
              var rested := ReserveCash(Numbered(x).(resting := x.resting + [order]), order,
                                        CurrencyFor(order.instrument.market));
              if rested.Good? then s == Good(Submission(rested.value, Rests(x.nextOrderId)))
              else s == Thrown(rested.fault)
  {
    hide Settle, ReserveCash, ReservedQuantity, Calculate, Exact, Reaches;
    var s := Submit(x, intent, tick);
    var t := intent.trade;
    if t.instrument.market in x.fees && (intent.kind == MARKET || intent.kind == LIMIT) {
      var model := x.fees[t.instrument.market];
      var price := PriceOf(intent, tick);
      var cost := OrderCost(model, t.side, price, t.quantity);
      if Deliverable(x, t) && cost.Good? {
        assert Payable(x, t, price)
          <==> !(t.side == BUY && Lookup(x.cash, CurrencyFor(t.instrument.market)) < cost.value);
        assert !Accepted(x, intent, tick) ==> s == Good(Submission(x, Rejected(INSUFFICIENT_CASH)));
      } else if Deliverable(x, t) {
        CostRefused(model, t.side, price, t.quantity);
        assert s == Thrown(cost.fault);
      } else {
        assert s == Good(Submission(x, Rejected(INSUFFICIENT_AVAILABLE_POSITION)));
      }
    }
  }

  lemma CostRefused(model: PublishedSchedule, side: Side, price: Money, quantity: int)
    requires OrderCost(model, side, price, quantity).Thrown?
    ensures OrderCost(model, side, price, quantity).fault.Refused?
  {
    hide Calculate, Exact;
  }

  lemma RestKeeps(x: Exchange, order: Resting, after: Exchange)
    requires Inv(x) && order.id == x.nextOrderId && order.quantity > 0 && order.instrument.market in x.fees
    requires Deliverable(x, Trade(order.instrument, order.side, order.quantity))
    requires order.side == SELL ==> order.reservedCash.None?
    requires order.side == BUY ==>
               && OrderCost(x.fees[order.instrument.market], BUY, order.limitPrice, order.quantity).Good?
               && order.reservedCash
                  == Some(OrderCost(x.fees[order.instrument.market], BUY, order.limitPrice, order.quantity).value)
               && order.reservedCash.value <= Lookup(x.cash, CurrencyFor(order.instrument.market))
    requires ReserveCash(Numbered(x).(resting := x.resting + [order]), order,
                         CurrencyFor(order.instrument.market)) == Good(after)
    ensures Inv(after) && after.fees == x.fees
  {
    hide ReserveCash, OrderCost, ReservedIn, ReservedQuantity, ReservedBy;
    var booked := Numbered(x).(resting := x.resting + [order]);
    ReserveMoves(booked, order, after);
    AppendAll(x.resting, order);
    assert SoundOrder(booked, order);
    OneReserves(booked, order);
    ReservesAtMost(x, order);
    assert forall k | 0 <= k < |x.resting| :: SoundOrder(x, x.resting[k]);
    assert forall k | 0 <= k < |after.resting| :: SoundOrder(booked, after.resting[k]);
    assert Distinct(after.resting);
    hide SoundOrder;
    SameOrders(booked, after);
    assert forall c :: Lookup(booked.cash, c) == Lookup(x.cash, c);
    assert CashSound(after);
    assert PositionsSound(after) by {
      forall i ensures ReservedQuantity(after.resting, i) <= PositionOf(after, i).quantity {
        assert ReservedQuantity(after.resting, i) == ReservedQuantity(x.resting, i) + ReservedQuantity([order], i);
      }
    }
    assert forall i :: PositionOf(after, i) == PositionOf(x, i);
  }

  lemma ReserveMoves(x: Exchange, order: Resting, after: Exchange)
    requires ReserveCash(x, order, CurrencyFor(order.instrument.market)) == Good(after)
    ensures after == x.(cash := after.cash, reservedCash := after.reservedCash)
    ensures forall c :: Lookup(after.cash, c) == Lookup(x.cash, c) - ReservedBy(order, c)
    ensures forall c :: Lookup(after.reservedCash, c) == Lookup(x.reservedCash, c) + ReservedBy(order, c)
  {
    hide Exact;
  }

  lemma AppendAll(resting: seq<Resting>, order: Resting)
    ensures forall c :: ReservedIn(resting + [order], c) == ReservedIn(resting, c) + ReservedBy(order, c)
    ensures forall i :: ReservedQuantity(resting + [order], i)
                     == ReservedQuantity(resting, i) + ReservedQuantity([order], i)
  {
    hide ReservedIn, ReservedQuantity, ReservedBy;
    forall c ensures ReservedIn(resting + [order], c) == ReservedIn(resting, c) + ReservedBy(order, c) {
      AppendSums(resting, order, c, order.instrument);
    }
    forall i ensures ReservedQuantity(resting + [order], i)
                  == ReservedQuantity(resting, i) + ReservedQuantity([order], i)
    {
      AppendSums(resting, order, KRW, i);
    }
  }

  lemma ReservesAtMost(x: Exchange, order: Resting)
    requires forall c :: Lookup(x.cash, c) >= 0
    requires order.reservedCash.Some? ==>
               order.reservedCash.value <= Lookup(x.cash, CurrencyFor(order.instrument.market))
    ensures forall c :: ReservedBy(order, c) <= Lookup(x.cash, c)
  {
  }

  lemma SubmitKeeps(x: Exchange, intent: Intent, tick: Tick)
    requires Inv(x) && intent.Valid()
    ensures var s := Submit(x, intent, tick);
            && (s.Good? ==> Inv(s.value.after) && s.value.after.fees == x.fees)
            && (SaleFeesCovered(x.fees) ==> s != Thrown(NegativeBalance))
  {
    hide Submit, Settle, OrderCost, SaleFeesCovered, Deliverable, ReserveCash;
    SubmitCases(x, intent, tick);
    var t, price := intent.trade, PriceOf(intent, tick);
    NumberedSound(x);
    if Accepted(x, intent, tick) && TradesNow(intent, tick) {
      DeliverableNumbered(x, t);
      var settled := Settle(Numbered(x), x.nextOrderId, t, intent.kind, price);
      if settled.Good? {
        SettleKeeps(Numbered(x), x.nextOrderId, t, intent.kind, price, settled.value);
      }
      if SaleFeesCovered(x.fees) {
        CoveredSettle(Numbered(x), x.nextOrderId, t, intent.kind, price);
      }
    } else if Accepted(x, intent, tick) {
      var order := RestingOrder(x, intent, tick);
      var rested := ReserveCash(Numbered(x).(resting := x.resting + [order]), order,
                                CurrencyFor(order.instrument.market));
      assert Trade(order.instrument, order.side, order.quantity) == t;
      if rested.Good? {
        RestKeeps(x, order, rested.value);
      } else {
        RestRefused(Numbered(x).(resting := x.resting + [order]), order);
      }
    }
    hide Inv;
  }

  lemma RestRefused(x: Exchange, order: Resting)
    requires ReserveCash(x, order, CurrencyFor(order.instrument.market)).Thrown?
    ensures ReserveCash(x, order, CurrencyFor(order.instrument.market)).fault.Refused?
  {
    hide Exact;
  }

  lemma NumberedSound(x: Exchange)
    requires Inv(x)
    ensures Inv(Numbered(x))
  {
    hide OrderCost, ReservedIn, ReservedQuantity;
    var after := Numbered(x);
    assert forall k | 0 <= k < |x.resting| :: SoundOrder(x, x.resting[k]);
    assert forall i :: PositionOf(after, i) == PositionOf(x, i);
  }

  lemma DeliverableNumbered(x: Exchange, t: Trade)
    ensures Deliverable(Numbered(x), t) <==> Deliverable(x, t)
  {
  }

  lemma {:induction false} FindIsThere(resting: seq<Resting>, id: nat) returns (k: nat)
    requires Find(resting, id).Some?
    ensures k < |resting| && resting[k] == Find(resting, id).value && resting[k].id == id
  {
    if resting[0].id == id {
      k := 0;
    } else {
      var j := FindIsThere(resting[1..], id);
      k := j + 1;
    }
  }

  lemma CancelKeeps(x: Exchange, id: nat)
    requires Inv(x)
    ensures var r := Cancel(x, id);
            && (r.Good? ==> Inv(r.value.after) && r.value.after.fees == x.fees)
            && r != Thrown(NegativeBalance)
  {
    if Find(x.resting, id).Some? {
      var k := FindIsThere(x.resting, id);
      var released := ReleaseCash(x, x.resting[k]);
      if released.Good? {
        ReleaseKeeps(x, k, released.value);
      }
      hide Inv, Find, Drop;
    }
  }

  // ---- Every replay ----

  predicate ValidCommand(c: Command) {
    c.Submits? ==> c.intent.Valid()
  }

  lemma StepKeeps(x: Exchange, c: Command)
    requires Inv(x) && ValidCommand(c)
    ensures Step(x, c).Good? ==> Inv(Step(x, c).value) && Step(x, c).value.fees == x.fees
    ensures SaleFeesCovered(x.fees) ==> Step(x, c) != Thrown(NegativeBalance)
  {
    hide Inv, Submit, Match, Cancel, SaleFeesCovered;
    match c
    case Submits(intent, tick) => SubmitKeeps(x, intent, tick);
    case Ticks(tick) =>
      WholeBook(x);
      MatchKeeps(x, x.resting, tick);
    case Cancels(id) => CancelKeeps(x, id);
  }

  lemma WholeBook(x: Exchange)
    requires Inv(x)
    ensures Snapshot(x, x.resting)
  {
  }

  /**
    In every replay: cash is never negative, reserved cash is the sum of the resting buys' costs,
    resting sales never exceed the position, and, when no sale is charged more than it earns, the
    negative-balance check never fires.
   */
  lemma {:induction false} ReplayKeeps(x: Exchange, commands: seq<Command>)
    requires Inv(x) && forall i | 0 <= i < |commands| :: ValidCommand(commands[i])
    ensures Replay(x, commands).Good? ==> Inv(Replay(x, commands).value)
    ensures SaleFeesCovered(x.fees) ==> Replay(x, commands) != Thrown(NegativeBalance)
    decreases |commands|
  {
    hide Inv, Step, SaleFeesCovered;
    if commands != [] {
      StepKeeps(x, commands[0]);
      if Step(x, commands[0]).Good? {
        ReplayKeeps(Step(x, commands[0]).value, commands[1..]);
      }
    }
  }

  // ---- Conservation ----

  /** What a position still owes the account: its cost basis less the profit already realised. */
  function Basis(i: Instrument, p: PositionCost, c: Currency): Money {
    if CurrencyFor(i.market) == c then p.totalCost - p.realizedPnl else 0
  }

  ghost function BasisIn(positions: map<Instrument, PositionCost>, c: Currency): Money
    decreases |positions|
  {
    if positions == map[] then 0 else
      var i :| i in positions;
      Basis(i, positions[i], c) + BasisIn(positions - {i}, c)
  }

  lemma {:induction false} BasisRemove(positions: map<Instrument, PositionCost>, c: Currency, i: Instrument)
    requires i in positions
    ensures BasisIn(positions, c) == Basis(i, positions[i], c) + BasisIn(positions - {i}, c)
    decreases |positions|
  {
    var first :| first in positions
                 && BasisIn(positions, c) == Basis(first, positions[first], c) + BasisIn(positions - {first}, c);
    if first != i {
      BasisRemove(positions - {first}, c, i);
      BasisRemove(positions - {i}, c, first);
      assert positions - {first} - {i} == positions - {i} - {first};
    }
  }

  lemma BasisUpdate(positions: map<Instrument, PositionCost>, c: Currency, i: Instrument, p: PositionCost)
    ensures BasisIn(positions[i := p], c)
         == BasisIn(positions, c) + Basis(i, p, c) - (if i in positions then Basis(i, positions[i], c) else 0)
  {
    var after := positions[i := p];
    BasisRemove(after, c, i);
    assert after - {i} == positions - {i};
    if i in positions {
      BasisRemove(positions, c, i);
    } else {
      assert positions - {i} == positions;
    }
  }

  /** Cash, reserved cash and cost basis of a currency, less realised profit. */
  ghost function Wealth(x: Exchange, c: Currency): Money {
    Lookup(x.cash, c) + Lookup(x.reservedCash, c) + BasisIn(x.positions, c)
  }

  lemma SettleConserves(x: Exchange, id: nat, t: Trade, kind: OrderType, price: Money, s: Settlement, c: Currency)
    requires Settle(x, id, t, kind, price) == Good(s)
    ensures Wealth(s.after, c) == Wealth(x, c)
  {
    hide Settle, ApplyFill, Calculate, BasisIn;
    SettleMoves(x, id, t, kind, price, s);
    FillConserves(PositionOf(x, t.instrument), PositionFill(t.side, price, t.quantity, s.fill.fee));
    BasisUpdate(x.positions, c, t.instrument, PositionOf(s.after, t.instrument));
    hide CashFlow;
    assert Basis(t.instrument, EMPTY, c) == 0;
  }

  lemma FillRestingConserves(x: Exchange, order: Resting, s: Settlement, c: Currency)
    requires FillResting(x, order) == Good(s)
    ensures Wealth(s.after, c) == Wealth(x, c)
  {
    hide Settle, BasisIn, ReleaseCash;
    var released := ReleaseCash(x, order).value;
    ReleaseMoves(x, order, released);
    SettleConserves(released.(resting := Drop(released.resting, order.id)), order.id,
                    Trade(order.instrument, order.side, order.quantity), LIMIT, order.limitPrice, s, c);
  }

  lemma {:induction false} MatchConserves(x: Exchange, orders: seq<Resting>, tick: Tick, c: Currency)
    requires Match(x, orders, tick).Good?
    ensures Wealth(Match(x, orders, tick).value.after, c) == Wealth(x, c)
    decreases |orders|
  {
    hide FillResting, Wealth, Hit;
    if orders != [] {
      if !Hit(orders[0], tick) {
        MatchConserves(x, orders[1..], tick, c);
      } else {
        var first := FillResting(x, orders[0]).value;
        FillRestingConserves(x, orders[0], first, c);
        MatchConserves(first.after, orders[1..], tick, c);
      }
    }
  }

  lemma SubmitConserves(x: Exchange, intent: Intent, tick: Tick, c: Currency)
    requires Submit(x, intent, tick).Good?
    ensures Wealth(Submit(x, intent, tick).value.after, c) == Wealth(x, c)
  {
    hide Submit, Settle, ReserveCash, BasisIn, OrderCost;
    SubmitCases(x, intent, tick);
    if Accepted(x, intent, tick) && TradesNow(intent, tick) {
      var settled := Settle(Numbered(x), x.nextOrderId, intent.trade, intent.kind, PriceOf(intent, tick)).value;
      SettleConserves(Numbered(x), x.nextOrderId, intent.trade, intent.kind, PriceOf(intent, tick), settled, c);
    } else if Accepted(x, intent, tick) {
      var order := RestingOrder(x, intent, tick);
      var booked := Numbered(x).(resting := x.resting + [order]);
      ReserveMoves(booked, order, ReserveCash(booked, order, CurrencyFor(order.instrument.market)).value);
    }
    hide Accepted, TradesNow;
  }

  lemma CancelConserves(x: Exchange, id: nat, c: Currency)
    requires Cancel(x, id).Good?
    ensures Wealth(Cancel(x, id).value.after, c) == Wealth(x, c)
  {
    hide ReleaseCash, BasisIn, Find, Drop;
    if Find(x.resting, id).Some? {
      var order := Find(x.resting, id).value;
      ReleaseMoves(x, order, ReleaseCash(x, order).value);
    }
  }

  /**
    No replay makes or loses money: in each currency cash, reserved cash and cost basis, less
    realised profit, are the opening balance to the last unit, whatever was rounded on the way.
   */
  lemma {:induction false} ReplayConserves(x: Exchange, commands: seq<Command>, c: Currency)
    requires Replay(x, commands).Good?
    ensures Wealth(Replay(x, commands).value, c) == Wealth(x, c)
    decreases |commands|
  {
    hide Wealth, Submit, Match, Cancel;
    if commands != [] {
      match commands[0] {
        case Submits(intent, tick) => SubmitConserves(x, intent, tick, c);
        case Ticks(tick) => MatchConserves(x, x.resting, tick, c);
        case Cancels(id) => CancelConserves(x, id, c);
      }
      ReplayConserves(Step(x, commands[0]).value, commands[1..], c);
    }
  }
}
