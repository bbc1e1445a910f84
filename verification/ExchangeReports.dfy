/** What the simulated exchange reports of a replay: its fills account for everything else it says. */
module ExchangeReports {
  import opened Types
  import opened ExactMoney
  import opened Fees
  import opened Portfolio
  import opened ExchangeModel
  import opened ExchangeInvariants

  // ---- Sums over the fills ----

  function FeesIn(fills: seq<SimulatedFill>, c: Currency): Money {
    if fills == [] then 0 else
      var last := fills[|fills| - 1];
      FeesIn(fills[..|fills| - 1], c) + if CurrencyFor(last.trade.instrument.market) == c then last.fee else 0
  }

  function RealizedOn(fills: seq<SimulatedFill>, i: Instrument): Money {
    if fills == [] then 0 else
      var last := fills[|fills| - 1];
      RealizedOn(fills[..|fills| - 1], i) + if last.trade.instrument == i then last.realizedDelta else 0
  }

  function NetOf(fills: seq<SimulatedFill>, i: Instrument): int {
    if fills == [] then 0 else
      var t := fills[|fills| - 1].trade;
      NetOf(fills[..|fills| - 1], i)
      + if t.instrument != i then 0 else if t.side == BUY then t.quantity else -t.quantity
  }

  lemma SumsAppend(fills: seq<SimulatedFill>, fill: SimulatedFill, c: Currency, i: Instrument)
    ensures FeesIn(fills + [fill], c)
         == FeesIn(fills, c) + if CurrencyFor(fill.trade.instrument.market) == c then fill.fee else 0
    ensures RealizedOn(fills + [fill], i)
         == RealizedOn(fills, i) + if fill.trade.instrument == i then fill.realizedDelta else 0
    ensures NetOf(fills + [fill], i)
         == NetOf(fills, i) + if fill.trade.instrument != i then 0
                              else if fill.trade.side == BUY then fill.trade.quantity else -fill.trade.quantity
  {
    assert (fills + [fill])[..|fills|] == fills;
  }

  /** Each fill was charged the fee of its own trade. */
  ghost predicate Charged(fees: map<Market, PublishedSchedule>, fill: SimulatedFill) {
    && fill.trade.instrument.market in fees
    && Calculate(fees[fill.trade.instrument.market], fill.trade.side, fill.price, fill.trade.quantity) == Ok(fill.fee)
  }

  /**
    The fills account for the rest: the fees paid, the profit realised and the shares held are theirs,
    and each was charged the fee of its own trade.
   */
  ghost predicate Reported(x: Exchange) {
    && (forall c :: Lookup(x.paid, c) == FeesIn(x.fills, c))
    && (forall i :: PositionOf(x, i).realizedPnl == RealizedOn(x.fills, i))
    && (forall i :: PositionOf(x, i).quantity == NetOf(x.fills, i))
    && (forall k | 0 <= k < |x.fills| :: Charged(x.fees, x.fills[k]))
  }

  // ---- Every operation ----

  lemma SettlePays(x: Exchange, id: nat, t: Trade, kind: OrderType, price: Money, s: Settlement)
    requires Settle(x, id, t, kind, price) == Good(s)
    ensures forall c :: Lookup(s.after.paid, c)
                     == Lookup(x.paid, c) + (if c == CurrencyFor(t.instrument.market) then s.fill.fee else 0)
  {
    hide Exact, Calculate, ApplyFill;
  }

  lemma SettleReports(x: Exchange, id: nat, t: Trade, kind: OrderType, price: Money, s: Settlement)
    requires Reported(x) && Settle(x, id, t, kind, price) == Good(s)
    ensures Reported(s.after)
  {
    hide Settle, ApplyFill, Calculate, FeesIn, RealizedOn, NetOf;
    SettleMoves(x, id, t, kind, price, s);
    SettlePays(x, id, t, kind, price, s);
    FillConserves(PositionOf(x, t.instrument), PositionFill(t.side, price, t.quantity, s.fill.fee));
    hide CashFlow;
    forall c ensures Lookup(s.after.paid, c) == FeesIn(s.after.fills, c) {
      SumsAppend(x.fills, s.fill, c, t.instrument);
    }
    forall i ensures PositionOf(s.after, i).realizedPnl == RealizedOn(s.after.fills, i)
                  && PositionOf(s.after, i).quantity == NetOf(s.after.fills, i)
    {
      SumsAppend(x.fills, s.fill, KRW, i);
    }
  }

  lemma SameReport(x: Exchange, after: Exchange)
    requires Reported(x) && after.fees == x.fees
    requires after.paid == x.paid && after.fills == x.fills && after.positions == x.positions
    ensures Reported(after)
  {
    hide FeesIn, RealizedOn, NetOf, Charged;
    assert forall i :: PositionOf(after, i) == PositionOf(x, i);
  }

  lemma FillRestingReports(x: Exchange, order: Resting, s: Settlement)
    requires Reported(x) && FillResting(x, order) == Good(s)
    ensures Reported(s.after)
  {
    hide Settle, ReleaseCash, Reported, Drop;
    var released := ReleaseCash(x, order).value;
    ReleaseMoves(x, order, released);
    var ready := released.(resting := Drop(released.resting, order.id));
    SameReport(x, ready);
    SettleReports(ready, order.id, Trade(order.instrument, order.side, order.quantity), LIMIT, order.limitPrice, s);
  }

  lemma {:induction false} MatchReports(x: Exchange, orders: seq<Resting>, tick: Tick)
    requires Reported(x) && Match(x, orders, tick).Good?
    ensures Reported(Match(x, orders, tick).value.after)
    decreases |orders|
  {
    hide FillResting, Reported, Hit;
    if orders != [] {
      if !Hit(orders[0], tick) {
        MatchReports(x, orders[1..], tick);
      } else {
        var first := FillResting(x, orders[0]).value;
        FillRestingReports(x, orders[0], first);
        MatchReports(first.after, orders[1..], tick);
      }
    }
  }

  lemma SubmitReports(x: Exchange, intent: Intent, tick: Tick)
    requires Reported(x) && Submit(x, intent, tick).Good?
    ensures Reported(Submit(x, intent, tick).value.after)
  {
    hide Submit, Settle, ReserveCash, OrderCost, Reported;
    SubmitCases(x, intent, tick);
    if Accepted(x, intent, tick) && TradesNow(intent, tick) {
      SameReport(x, Numbered(x));
      var settled := Settle(Numbered(x), x.nextOrderId, intent.trade, intent.kind, PriceOf(intent, tick)).value;
      SettleReports(Numbered(x), x.nextOrderId, intent.trade, intent.kind, PriceOf(intent, tick), settled);
    } else if Accepted(x, intent, tick) {
      var order := RestingOrder(x, intent, tick);
      var booked := Numbered(x).(resting := x.resting + [order]);
      var after := ReserveCash(booked, order, CurrencyFor(order.instrument.market)).value;
      ReserveMoves(booked, order, after);
      SameReport(x, after);
    }
    hide Accepted, TradesNow;
  }

  lemma CancelReports(x: Exchange, id: nat)
    requires Reported(x) && Cancel(x, id).Good?
    ensures Reported(Cancel(x, id).value.after)
  {
    hide ReleaseCash, Reported, Find, Drop;
    if Find(x.resting, id).Some? {
      var order := Find(x.resting, id).value;
      ReleaseMoves(x, order, ReleaseCash(x, order).value);
      SameReport(x, Cancel(x, id).value.after);
    }
  }

  // ---- Every replay ----

  lemma {:induction false} RunReports(x: Exchange, commands: seq<Command>)
    requires Reported(x) && Replay(x, commands).Good?
    ensures Reported(Replay(x, commands).value)
    decreases |commands|
  {
    hide Reported, Submit, Match, Cancel;
    if commands != [] {
      match commands[0] {
        case Submits(intent, tick) => SubmitReports(x, intent, tick);
        case Ticks(tick) => MatchReports(x, x.resting, tick);
        case Cancels(id) => CancelReports(x, id);
      }
      RunReports(Step(x, commands[0]).value, commands[1..]);
    }
  }

  /**
    After any replay of an opened exchange the fees it reports are the sum of its fills' fees, a
    position's profit the sum of what its fills realised, its quantity what they bought less what they
    sold, and every fill was charged the fee of its own trade.
   */
  lemma ReplayIsReported(fees: map<Market, PublishedSchedule>, cash: map<Currency, Money>, commands: seq<Command>)
    requires Replay(Opened(fees, cash), commands).Good?
    ensures var end := Replay(Opened(fees, cash), commands).value;
            && (forall c :: Lookup(end.paid, c) == FeesIn(end.fills, c))
            && (forall i :: PositionOf(end, i).realizedPnl == RealizedOn(end.fills, i))
            && (forall i :: PositionOf(end, i).quantity == NetOf(end.fills, i))
            && (forall k | 0 <= k < |end.fills| :: Charged(end.fees, end.fills[k]))
  {
    hide Replay;
    assert Reported(Opened(fees, cash));
    RunReports(Opened(fees, cash), commands);
  }
}
