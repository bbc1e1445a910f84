/** At which prices the simulated exchange trades, and which orders a tick fills. */
module ExchangePrices {
  import opened Types
  import opened ExactMoney
  import opened Fees
  import opened ExchangeModel
  import opened ExchangeInvariants

  /** What a buy pays on a tick: its ask or, without one, its last price. */
  function AskOf(tick: Tick): Money {
    match tick.bestAsk
    case Some(ask) => ask
    case None => tick.price
  }

  /** What a sale gets: its bid or, without one, its last price. */
  function BidOf(tick: Tick): Money {
    match tick.bestBid
    case Some(bid) => bid
    case None => tick.price
  }

  // ---- Submissions ----

  /**
    A market order that is not rejected fills at the quote opposite to it; a limit order fills at its
    limit exactly when the ask is at most the limit of a buy, or the bid at least that of a sale, and
    rests otherwise, a buy with its whole cost reserved.
   */
  lemma SubmissionPrices(x: Exchange, intent: Intent, tick: Tick)
    requires intent.Valid() && Submit(x, intent, tick).Good? && !Submit(x, intent, tick).value.outcome.Rejected?
    ensures intent.kind in {MARKET, LIMIT} && intent.trade.instrument.market in x.fees
    ensures var s := Submit(x, intent, tick).value;
            && s.outcome.orderId == x.nextOrderId && s.after.nextOrderId == x.nextOrderId + 1
            && (s.outcome.Filled? <==>
                  intent.kind == LIMIT ==>
                    (intent.trade.side == BUY ==> AskOf(tick) <= intent.limitPrice.value)
                    && (intent.trade.side == SELL ==> BidOf(tick) >= intent.limitPrice.value))
            && (s.outcome.Filled? ==>
                  && s.outcome.fill.price == (if intent.kind == LIMIT then intent.limitPrice.value
                                              else if intent.trade.side == BUY then AskOf(tick) else BidOf(tick))
                  && s.outcome.fill.trade == intent.trade && s.outcome.fill.kind == intent.kind
                  && s.outcome.fill.orderId == x.nextOrderId
                  && s.after.resting == x.resting && s.after.fills == x.fills + [s.outcome.fill])
    ensures var s := Submit(x, intent, tick).value;
            !s.outcome.Filled? ==>
              var fee := Calculate(x.fees[intent.trade.instrument.market], BUY, intent.limitPrice.value,
                                   intent.trade.quantity);
              && s.after.fills == x.fills && s.after.positions == x.positions
              && (intent.trade.side == BUY ==> fee.Ok?)
              && s.after.resting == x.resting
                   + [Resting(x.nextOrderId, intent.trade.instrument, intent.trade.side, intent.trade.quantity,
                              intent.limitPrice.value,
                              if intent.trade.side == SELL then None
                              else Some(intent.limitPrice.value * intent.trade.quantity + fee.value))]
  {
    hide Submit, Settle, ReserveCash, Calculate, Exact, ReservedQuantity;
    SubmitCases(x, intent, tick);
    if Accepted(x, intent, tick) {
      if TradesNow(intent, tick) {
        var settled := Settle(Numbered(x), x.nextOrderId, intent.trade, intent.kind, PriceOf(intent, tick)).value;
        SettleMoves(Numbered(x), x.nextOrderId, intent.trade, intent.kind, PriceOf(intent, tick), settled);
      } else {
        var order := RestingOrder(x, intent, tick);
        var booked := Numbered(x).(resting := x.resting + [order]);
        ReserveMoves(booked, order, ReserveCash(booked, order, CurrencyFor(order.instrument.market)).value);
      }
    }
  }

  /**
    An intent is rejected exactly for a kind the exchange does not simulate, a sale of more than the
    position holds beyond the resting sales, or a buy whose cost, fee included, is more than the cash.
   */
  lemma RejectedExactly(x: Exchange, intent: Intent, tick: Tick)
    requires intent.Valid() && Submit(x, intent, tick).Good?
    ensures intent.trade.instrument.market in x.fees
    ensures var t := intent.trade;
            var price := if intent.kind == LIMIT then intent.limitPrice.value
                         else if t.side == BUY then AskOf(tick) else BidOf(tick);
            var outcome := Submit(x, intent, tick).value.outcome;
            if intent.kind !in {MARKET, LIMIT} then outcome == Rejected(UNSUPPORTED_ORDER_TYPE)
            else if t.side == SELL then
              if PositionOf(x, t.instrument).quantity < t.quantity + ReservedQuantity(x.resting, t.instrument)
              then outcome == Rejected(INSUFFICIENT_AVAILABLE_POSITION) else !outcome.Rejected?
            else
              var fee := Calculate(x.fees[t.instrument.market], BUY, price, t.quantity);
              && fee.Ok?
              && if Lookup(x.cash, CurrencyFor(t.instrument.market)) < price * t.quantity + fee.value
                 then outcome == Rejected(INSUFFICIENT_CASH) else !outcome.Rejected?
  {
    hide Settle, ReserveCash, Calculate, Exact, ReservedQuantity;
  }

  // ---- Cancellations ----

  /**
    A cancellation finds its order exactly when an order of that id rests; it takes that one order off
    the book and moves what it had reserved back to the cash. Otherwise nothing changes.
   */
  lemma CancelsExactly(x: Exchange, id: nat)
    requires Distinct(x.resting) && Cancel(x, id).Good?
    ensures Cancel(x, id).value.found <==> exists k :: 0 <= k < |x.resting| && x.resting[k].id == id
    ensures !Cancel(x, id).value.found ==> Cancel(x, id).value.after == x
    ensures forall k | 0 <= k < |x.resting| && x.resting[k].id == id ::
              var after := Cancel(x, id).value.after;
              && after.resting == x.resting[..k] + x.resting[k + 1..]
              && after == x.(cash := after.cash, reservedCash := after.reservedCash, resting := after.resting)
              && (forall c :: Lookup(after.cash, c) == Lookup(x.cash, c) + ReservedBy(x.resting[k], c))
              && (forall c :: Lookup(after.reservedCash, c) == Lookup(x.reservedCash, c) - ReservedBy(x.resting[k], c))
  {
    hide ReleaseCash, ReservedBy;
    if Find(x.resting, id).Some? {
      var j := FindIsThere(x.resting, id);
      ReleaseMoves(x, x.resting[j], ReleaseCash(x, x.resting[j]).value);
      DropAll(x.resting, j);
    } else {
      FindMissesNothing(x.resting, id);
    }
  }

  lemma {:induction false} FindMissesNothing(resting: seq<Resting>, id: nat)
    requires Find(resting, id).None?
    ensures forall k | 0 <= k < |resting| :: resting[k].id != id
  {
    if resting != [] {
      FindMissesNothing(resting[1..], id);
      assert forall k | 1 <= k < |resting| :: resting[k] == resting[1..][k - 1];
    }
  }

  // ---- Ticks ----

  /** The tick is of the order's instrument, and its opposite quote has come to the limit. */
  predicate Crossed(order: Resting, tick: Tick) {
    && order.instrument == tick.instrument
    && (order.side == BUY ==> AskOf(tick) <= order.limitPrice)
    && (order.side == SELL ==> BidOf(tick) >= order.limitPrice)
  }

  function CrossedOf(orders: seq<Resting>, tick: Tick): seq<Resting> {
    if orders == [] then []
    else if Crossed(orders[0], tick) then [orders[0]] + CrossedOf(orders[1..], tick)
    else CrossedOf(orders[1..], tick)
  }

  function Uncrossed(orders: seq<Resting>, tick: Tick): seq<Resting> {
    if orders == [] then []
    else if Crossed(orders[0], tick) then Uncrossed(orders[1..], tick)
    else [orders[0]] + Uncrossed(orders[1..], tick)
  }

  /** A fill is of a resting order, whole and at its limit. */
  predicate FillOf(fill: SimulatedFill, order: Resting) {
    && fill.orderId == order.id && fill.trade == Trade(order.instrument, order.side, order.quantity)
    && fill.kind == LIMIT && fill.price == order.limitPrice
  }

  predicate FillsOf(fills: seq<SimulatedFill>, orders: seq<Resting>) {
    |fills| == |orders| && forall i | 0 <= i < |fills| :: FillOf(fills[i], orders[i])
  }

  lemma HitIsCrossed(order: Resting, tick: Tick)
    ensures Hit(order, tick) <==> Crossed(order, tick)
  {
  }

  lemma OneFills(x: Exchange, k: nat, s: Settlement)
    requires Inv(x) && k < |x.resting| && FillResting(x, x.resting[k]) == Good(s)
    ensures FillOf(s.fill, x.resting[k]) && s.after.fills == x.fills + [s.fill]
  {
    hide Settle, Inv, ReleaseCash, Drop;
    var order := x.resting[k];
    var released := ReleaseCash(x, order).value;
    ReleaseMoves(x, order, released);
    SettleMoves(released.(resting := Drop(released.resting, order.id)), order.id,
                Trade(order.instrument, order.side, order.quantity), LIMIT, order.limitPrice, s);
  }

  lemma {:induction false} MatchFills(x: Exchange, kept: seq<Resting>, orders: seq<Resting>, tick: Tick)
    requires Inv(x) && x.resting == kept + orders && Match(x, orders, tick).Good?
    ensures var m := Match(x, orders, tick).value;
            && FillsOf(m.filled, CrossedOf(orders, tick))
            && m.after.resting == kept + Uncrossed(orders, tick) && m.after.fills == x.fills + m.filled
    decreases |orders|
  {
    hide FillResting, Inv, Hit, Crossed, FillOf;
    if orders == [] {
      assert x.fills + [] == x.fills;
    } else {
      HitIsCrossed(orders[0], tick);
      if Crossed(orders[0], tick) {
        var k := |kept|;
        assert x.resting[k] == orders[0];
        var first := FillResting(x, orders[0]).value;
        OneFills(x, k, first);
        FillRestingKeeps(x, k, first);
        assert first.after.resting == kept + orders[1..];
        MatchFills(first.after, kept, orders[1..], tick);
      } else {
        assert kept + orders == (kept + [orders[0]]) + orders[1..];
        MatchFills(x, kept + [orders[0]], orders[1..], tick);
        assert kept + [orders[0]] + Uncrossed(orders[1..], tick) == kept + ([orders[0]] + Uncrossed(orders[1..], tick));
      }
    }
  }

  /**
    A tick that does not throw fills exactly the resting orders of its instrument whose limit its
    opposite quote has come to, oldest first, each whole and at its own limit; the others stay, in order.
   */
  lemma TickFillsExactly(x: Exchange, tick: Tick)
    requires Inv(x) && Match(x, x.resting, tick).Good?
    ensures var m := Match(x, x.resting, tick).value;
            && FillsOf(m.filled, CrossedOf(x.resting, tick))
            && m.after.resting == Uncrossed(x.resting, tick) && m.after.fills == x.fills + m.filled
  {
    hide Inv, Match;
    assert [] + x.resting == x.resting;
    MatchFills(x, [], x.resting, tick);
    assert [] + Uncrossed(x.resting, tick) == Uncrossed(x.resting, tick);
  }
}
