/** The simulated exchange as the object it is: its account updated in place by submit, match and cancel. */
module SimulatedExchange {
  import opened Types
  import opened ExactMoney
  import opened Fees
  import opened Portfolio
  import opened ExchangeModel
  import opened ExchangeInvariants

  class Simulator {
    const fees: map<Market, PublishedSchedule>
    var cash: map<Currency, Money>
    var reservedCash: map<Currency, Money>
    var positions: map<Instrument, PositionCost>
    var resting: seq<Resting>
    var fills: seq<SimulatedFill>
    var paid: map<Currency, Money>
    var nextOrderId: nat

    function State(): Exchange
      reads this
    {
      Exchange(fees, cash, reservedCash, positions, resting, fills, paid, nextOrderId)
    }

    ghost predicate Valid()
      reads this
    {
      Inv(State())
    }

    constructor (fees: map<Market, PublishedSchedule>, opening: map<Currency, Money>)
      requires forall c | c in opening :: opening[c] >= 0
      ensures Valid() && State() == Opened(fees, opening)
    {
      this.fees := fees;
      cash := opening;
      reservedCash := map c | c in opening :: 0;
      positions, resting, fills := map[], [], [];
      paid := map c | c in opening :: 0;
      nextOrderId := 1;
      new;
      OpenedSound(fees, opening);
    }

    /** `#release`. */
    method Release(order: Resting) returns (r: Try<()>)
      modifies this`cash, this`reservedCash
      ensures r.Good? ==> ReleaseCash(old(State()), order) == Good(State())
      ensures r.Thrown? ==> ReleaseCash(old(State()), order) == Thrown(r.fault)
    {
      hide Exact;
      if order.reservedCash.Some? {
        var model :- FeeModel(State(), order.instrument.market);
        var c := CurrencyFor(order.instrument.market);
        var more :- Kept(Lookup(cash, c) + order.reservedCash.value);
        var less :- Kept(Lookup(reservedCash, c) - order.reservedCash.value);
        cash := cash[c := more];
        reservedCash := reservedCash[c := less];
      }
      r := Good(());
    }

    /** `#reserve`. */
    method Reserve(order: Resting, c: Currency) returns (r: Try<()>)
      modifies this`cash, this`reservedCash
      ensures r.Good? ==> ReserveCash(old(State()), order, c) == Good(State())
      ensures r.Thrown? ==> ReserveCash(old(State()), order, c) == Thrown(r.fault)
    {
      hide Exact;
      if order.reservedCash.Some? {
        var less :- Kept(Lookup(cash, c) - order.reservedCash.value);
        var more :- Kept(Lookup(reservedCash, c) + order.reservedCash.value);
        cash := cash[c := less];
        reservedCash := reservedCash[c := more];
      }
      r := Good(());
    }

    /** `#settle`: the position is stored first, the cash only once it is known not to be negative. */
    method SettleTrade(id: nat, t: Trade, kind: OrderType, price: Money) returns (r: Try<SimulatedFill>)
      modifies this`cash, this`positions, this`paid, this`fills
      ensures r.Good? ==> Settle(old(State()), id, t, kind, price) == Good(Settlement(State(), r.value))
      ensures r.Thrown? ==> Settle(old(State()), id, t, kind, price) == Thrown(r.fault)
    {
      hide Exact, Book;
      var b :- Book(State(), t, price);
      positions := positions[t.instrument := b.position];
      var c := CurrencyFor(t.instrument.market);
      var settled :- Kept(Lookup(cash, c) + CashDelta(t, b));
      if settled < 0 {
        return Thrown(NegativeBalance);
      }
      cash := cash[c := settled];
      var total :- Kept(Lookup(paid, c) + b.fee);
      paid := paid[c := total];
      var fill := SimulatedFill(id, t, kind, price, b.fee, b.realizedDelta);
      fills := fills + [fill];
      r := Good(fill);
    }

    method PutToRest(order: Resting) returns (r: Try<()>)
      modifies this`cash, this`reservedCash, this`resting
      ensures r.Good? ==> ReserveCash(old(State()).(resting := old(resting) + [order]), order,
                                      CurrencyFor(order.instrument.market)) == Good(State())
      ensures r.Thrown? ==> ReserveCash(old(State()).(resting := old(resting) + [order]), order,
                                        CurrencyFor(order.instrument.market)) == Thrown(r.fault)
    {
      hide ReserveCash;
      resting := resting + [order];
      r := Reserve(order, CurrencyFor(order.instrument.market));
    }

    /** One resting order the tick reaches. */
    method FillOne(order: Resting) returns (r: Try<SimulatedFill>)
      modifies this`cash, this`reservedCash, this`resting, this`positions, this`paid, this`fills
      ensures r.Good? ==> FillResting(old(State()), order) == Good(Settlement(State(), r.value))
      ensures r.Thrown? ==> FillResting(old(State()), order) == Thrown(r.fault)
    {
      hide ReleaseCash, Settle, Drop;
      var _ :- Release(order);
      resting := Drop(resting, order.id);
      r := SettleTrade(order.id, Trade(order.instrument, order.side, order.quantity), LIMIT, order.limitPrice);
    }

    /** `submit`. A throw ends the replay: what the account looks like then is not part of the contract. */
    method Submit(intent: Intent, tick: Tick) returns (r: Try<Outcome>)
      requires Valid() && intent.Valid()
      modifies this
      ensures r.Good? ==>
                && Valid()
                && ExchangeModel.Submit(old(State()), intent, tick) == Good(Submission(State(), r.value))
      ensures r.Thrown? ==> ExchangeModel.Submit(old(State()), intent, tick) == Thrown(r.fault)
    {
      hide Inv, Settle, ReserveCash, Decide, SaleFeesCovered;
      SubmitKeeps(State(), intent, tick);
      var t := intent.trade;
      var decision :- Decide(State(), intent, tick);
      if decision.Reject? {
        return Good(Rejected(decision.code));
      }
      var id := nextOrderId;
      nextOrderId := nextOrderId + 1;
      if decision.now {
        var fill :- SettleTrade(id, t, intent.kind, decision.price);
        return Good(Filled(id, fill));
      }
      var order := Resting(id, t.instrument, t.side, t.quantity, decision.price,
                           if t.side == BUY then Some(decision.cost) else None);
      var _ :- PutToRest(order);
      r := Good(Rests(id));
    }

    /** `match`: every resting order the tick reaches, in the order they were submitted. */
    method MatchTick(tick: Tick) returns (r: Try<seq<SimulatedFill>>)
      requires Valid()
      modifies this
      ensures r.Good? ==> Valid() && Match(old(State()), old(resting), tick) == Good(Matched(State(), r.value))
      ensures r.Thrown? ==> Match(old(State()), old(resting), tick) == Thrown(r.fault)
    {
      hide Inv, FillResting, Hit, SaleFeesCovered, Snapshot;
      ghost var before := State();
      WholeBook(before);
      MatchKeeps(before, resting, tick);
      var orders := resting;
      var filled: seq<SimulatedFill> := [];
      var i := 0;
      assert orders[0..] == orders;
      ContinueFromNothing(Match(before, orders, tick));
      while i < |orders|
        invariant 0 <= i <= |orders|
        invariant Match(before, orders, tick) == Continue(filled, Match(State(), orders[i..], tick))
      {
        var order := orders[i];
        assert orders[i..][0] == order && orders[i..][1..] == orders[i + 1..];
        i := i + 1;
        if !Hit(order, tick) {
          continue;
        }
        var fill :- FillOne(order);
        ContinueWith(filled, fill, Match(State(), orders[i..], tick));
        filled := filled + [fill];
      }
      assert orders[i..] == [] && filled + [] == filled;
      r := Good(filled);
    }

    /** `cancel`. */
    method Cancel(id: nat) returns (r: Try<bool>)
      requires Valid()
      modifies this
      ensures r.Good? ==> Valid() && ExchangeModel.Cancel(old(State()), id) == Good(Cancellation(State(), r.value))
      ensures r.Thrown? ==> ExchangeModel.Cancel(old(State()), id) == Thrown(r.fault)
    {
      CancelKeeps(State(), id);
      hide Inv, ReleaseCash, Find, Drop;
      var order := Find(resting, id);
      if order.None? {
        return Good(false);
      }
      var _ :- Release(order.value);
      resting := Drop(resting, id);
      r := Good(true);
    }
  }

  /** What a match amounts to when some fills have been collected already. */
  function Continue(filled: seq<SimulatedFill>, rest: Try<Matched>): Try<Matched> {
    if rest.Thrown? then rest else Good(Matched(rest.value.after, filled + rest.value.filled))
  }

  lemma ContinueFromNothing(rest: Try<Matched>)
    ensures Continue([], rest) == rest
  {
    if rest.Good? {
      assert [] + rest.value.filled == rest.value.filled;
    }
  }

  lemma ContinueWith(filled: seq<SimulatedFill>, fill: SimulatedFill, rest: Try<Matched>)
    ensures Continue(filled, Continue([fill], rest)) == Continue(filled + [fill], rest)
  {
    if rest.Good? {
      assert filled + ([fill] + rest.value.filled) == filled + [fill] + rest.value.filled;
    }
  }
}
