/** The simulated exchange of a backtest: its account as a value, and each of its operations on it. */
module ExchangeModel {
  import opened Types
  import opened ExactMoney
  import opened Fees
  import opened Portfolio

  /** Why a replay is aborted: a value left the exact-money domain, or a wallet would go negative. */
  datatype Fault = Refused(code: ErrorCode) | NegativeBalance

  datatype Try<+T> = Good(value: T) | Thrown(fault: Fault) {
    predicate IsFailure() {
      Thrown?
    }

    function PropagateFailure<U>(): Try<U>
      requires Thrown?
    {
      Thrown(fault)
    }

    function Extract(): T
      requires Good?
    {
      value
    }
  }

  function Lift<T>(r: Result<T>): Try<T> {
    if r.Ok? then Good(r.value) else Thrown(Refused(r.code))
  }

  function Kept(n: Money): Try<Money> {
    Lift(Checked(n))
  }

  datatype Instrument = Instrument(market: Market, symbol: string)

  datatype Resting = Resting(
    id: nat,
    instrument: Instrument,
    side: Side,
    quantity: int,
    limitPrice: Money,
    reservedCash: Option<Money>       // what the fill will cost, None for a sale
  )

  datatype Trade = Trade(instrument: Instrument, side: Side, quantity: int)

  datatype SimulatedFill = SimulatedFill(
    orderId: nat,
    trade: Trade,
    kind: OrderType,
    price: Money,
    fee: Money,
    realizedDelta: Money
  )

  datatype Tick = Tick(instrument: Instrument, price: Money, bestBid: Option<Money>, bestAsk: Option<Money>)

  datatype Intent = Intent(trade: Trade, kind: OrderType, limitPrice: Option<Money>) {
    /** What reading an intent guarantees: a whole positive quantity, and a limit exactly where one belongs. */
    predicate Valid() {
      trade.quantity > 0 && (kind == LIMIT <==> limitPrice.Some?)
    }
  }

  datatype Exchange = Exchange(
    fees: map<Market, PublishedSchedule>,
    cash: map<Currency, Money>,
    reservedCash: map<Currency, Money>,
    positions: map<Instrument, PositionCost>,
    resting: seq<Resting>,
    fills: seq<SimulatedFill>,
    paid: map<Currency, Money>,
    nextOrderId: nat
  )

  function Lookup(m: map<Currency, Money>, c: Currency): Money {
    if c in m then m[c] else 0
  }

  const EMPTY := PositionCost(0, 0, 0)

  function PositionOf(x: Exchange, i: Instrument): PositionCost {
    if i in x.positions then x.positions[i] else EMPTY
  }

  function FeeModel(x: Exchange, market: Market): Try<PublishedSchedule> {
    if market in x.fees then Good(x.fees[market]) else Thrown(Refused(INVARIANT_VIOLATION))
  }

  /** What an order without a limit trades at: the best quote opposite to it or, without one, the last price. */
  function Touch(side: Side, tick: Tick): Money {
    var opposite := if side == BUY then tick.bestAsk else tick.bestBid;
    if opposite.Some? then opposite.value else tick.price
  }

  predicate Reaches(side: Side, limit: Money, tick: Tick) {
    if side == BUY then Touch(side, tick) <= limit else Touch(side, tick) >= limit
  }

  /** The quantity resting sales have spoken for. */
  function ReservedQuantity(resting: seq<Resting>, i: Instrument): int {
    if resting == [] then 0 else
      (if resting[0].side == SELL && resting[0].instrument == i then resting[0].quantity else 0)
      + ReservedQuantity(resting[1..], i)
  }

  function Drop(resting: seq<Resting>, id: nat): seq<Resting> {
    if resting == [] then []
    else if resting[0].id == id then resting[1..]
    else [resting[0]] + Drop(resting[1..], id)
  }

  /** A resting buy moves its whole cost from the cash to the reserve. */
  function ReserveCash(x: Exchange, order: Resting, c: Currency): Try<Exchange> {
    if order.reservedCash.None? then Good(x) else
      var cash :- Kept(Lookup(x.cash, c) - order.reservedCash.value);
      var reserved :- Kept(Lookup(x.reservedCash, c) + order.reservedCash.value);
      Good(x.(cash := x.cash[c := cash], reservedCash := x.reservedCash[c := reserved]))
  }

  function ReleaseCash(x: Exchange, order: Resting): Try<Exchange> {
    if order.reservedCash.None? then Good(x) else
      var model :- FeeModel(x, order.instrument.market);
      var c := CurrencyFor(order.instrument.market);
      var cash :- Kept(Lookup(x.cash, c) + order.reservedCash.value);
      var reserved :- Kept(Lookup(x.reservedCash, c) - order.reservedCash.value);
      Good(x.(cash := x.cash[c := cash], reservedCash := x.reservedCash[c := reserved]))
  }

  datatype Settlement = Settlement(after: Exchange, fill: SimulatedFill)

  /** What a fill costs and what it makes of its position. */
  datatype Booking = Booking(fee: Money, notional: Money, position: PositionCost, realizedDelta: Money)

  function Book(x: Exchange, t: Trade, price: Money): Try<Booking> {
    var model :- FeeModel(x, t.instrument.market);
    var fee :- Lift(Calculate(model, t.side, price, t.quantity));
    var notional :- Kept(price * t.quantity);
    var before := PositionOf(x, t.instrument);
    var after :- Lift(ApplyFill(before, PositionFill(t.side, price, t.quantity, fee)));
    var delta :- Kept(after.realizedPnl - before.realizedPnl);
    Good(Booking(fee, notional, after, delta))
  }

  function CashDelta(t: Trade, b: Booking): Money {
    if t.side == BUY then -(b.notional + b.fee) else b.notional - b.fee
  }

  /** The cash of a fill; the wallet may not go below zero. */
  function Pay(x: Exchange, id: nat, t: Trade, kind: OrderType, price: Money, b: Booking): Try<Settlement> {
    var c := CurrencyFor(t.instrument.market);
    var settled :- Kept(Lookup(x.cash, c) + CashDelta(t, b));
    if settled < 0 then Thrown(NegativeBalance) else
      var paid :- Kept(Lookup(x.paid, c) + b.fee);
      var fill := SimulatedFill(id, t, kind, price, b.fee, b.realizedDelta);
      Good(Settlement(x.(cash := x.cash[c := settled], paid := x.paid[c := paid], fills := x.fills + [fill]), fill))
  }

  /** `#settle`: a fill moves the position, the cash and the fee total. */
  function Settle(x: Exchange, id: nat, t: Trade, kind: OrderType, price: Money): Try<Settlement> {
    var b :- Book(x, t, price);
    Pay(x.(positions := x.positions[t.instrument := b.position]), id, t, kind, price, b)
  }

  datatype Outcome = Filled(orderId: nat, fill: SimulatedFill) | Rests(orderId: nat) | Rejected(code: ErrorCode)

  datatype Submission = Submission(after: Exchange, outcome: Outcome)

  /** What the order costs when it settles: the fee included for a buy. */
  function OrderCost(model: PublishedSchedule, side: Side, price: Money, quantity: int): Try<Money> {
    var notional :- Kept(price * quantity);
    if side == SELL then Good(notional) else
      var fee :- Lift(Calculate(model, BUY, price, quantity));
      Kept(notional + fee)
  }

  /** What becomes of an intent: rejected, or taken at a price, now or when a tick reaches it. */
  datatype Decision = Reject(code: ErrorCode) | Take(price: Money, now: bool, cost: Money)

  function Decide(x: Exchange, intent: Intent, tick: Tick): Try<Decision> {
    var t := intent.trade;
    var model :- FeeModel(x, t.instrument.market);
    if intent.kind != MARKET && intent.kind != LIMIT then Good(Reject(UNSUPPORTED_ORDER_TYPE)) else
      var limited := intent.kind == LIMIT && intent.limitPrice.Some?;
      var price := if limited then intent.limitPrice.value else Touch(t.side, tick);
      var now := limited ==> Reaches(t.side, price, tick);
      var held := PositionOf(x, t.instrument).quantity - ReservedQuantity(x.resting, t.instrument);
      if t.side == SELL && held < t.quantity then Good(Reject(INSUFFICIENT_AVAILABLE_POSITION)) else
        var cost :- OrderCost(model, t.side, price, t.quantity);
        if t.side == BUY && Lookup(x.cash, CurrencyFor(t.instrument.market)) < cost then Good(Reject(INSUFFICIENT_CASH))
        else Good(Take(price, now, cost))
  }

  /** `submit`. */
  function Submit(x: Exchange, intent: Intent, tick: Tick): Try<Submission> {
    var decision :- Decide(x, intent, tick);
    match decision
    case Reject(code) => Good(Submission(x, Rejected(code)))
    case Take(price, now, cost) =>
      var t, id := intent.trade, x.nextOrderId;
      var numbered := x.(nextOrderId := id + 1);
      if now then
        var s :- Settle(numbered, id, t, intent.kind, price);
        Good(Submission(s.after, Filled(id, s.fill)))
      else
        var order := Resting(id, t.instrument, t.side, t.quantity, price, if t.side == BUY then Some(cost) else None);
        var after :- ReserveCash(numbered.(resting := numbered.resting + [order]), order,
                                 CurrencyFor(t.instrument.market));
        Good(Submission(after, Rests(id)))
  }

  datatype Matched = Matched(after: Exchange, filled: seq<SimulatedFill>)

  /** One resting order the tick reaches: released, taken off the book, settled at its own limit. */
  function FillResting(x: Exchange, order: Resting): Try<Settlement> {
    var released :- ReleaseCash(x, order);
    Settle(released.(resting := Drop(released.resting, order.id)), order.id,
           Trade(order.instrument, order.side, order.quantity), LIMIT, order.limitPrice)
  }

  predicate Hit(order: Resting, tick: Tick) {
    order.instrument == tick.instrument && Reaches(order.side, order.limitPrice, tick)
  }

  /** `match`, over the orders that were resting when it began. */
  function Match(x: Exchange, orders: seq<Resting>, tick: Tick): Try<Matched>
    decreases |orders|
  {
    if orders == [] then Good(Matched(x, []))
    else if !Hit(orders[0], tick) then Match(x, orders[1..], tick)
    else
      var first :- FillResting(x, orders[0]);
      var rest :- Match(first.after, orders[1..], tick);
      Good(Matched(rest.after, [first.fill] + rest.filled))
  }

  /** The first resting order with an id. */
  function Find(resting: seq<Resting>, id: nat): Option<Resting> {
    if resting == [] then None
    else if resting[0].id == id then Some(resting[0])
    else Find(resting[1..], id)
  }

  datatype Cancellation = Cancellation(after: Exchange, found: bool)

  /** `cancel`. */
  function Cancel(x: Exchange, id: nat): Try<Cancellation> {
    var order := Find(x.resting, id);
    if order.None? then Good(Cancellation(x, false)) else
      var released :- ReleaseCash(x, order.value);
      Good(Cancellation(released.(resting := Drop(released.resting, id)), true))
  }

  // ---- Runs ----

  datatype Command = Submits(intent: Intent, tick: Tick) | Ticks(tick: Tick) | Cancels(id: nat)

  function Step(x: Exchange, c: Command): Try<Exchange> {
    match c
    case Submits(intent, tick) =>
      var s :- Submit(x, intent, tick);
      Good(s.after)
    case Ticks(tick) =>
      var m :- Match(x, x.resting, tick);
      Good(m.after)
    case Cancels(id) =>
      var c :- Cancel(x, id);
      Good(c.after)
  }

  /** A replay: it stops at the first throw. */
  function Replay(x: Exchange, commands: seq<Command>): Try<Exchange>
    decreases |commands|
  {
    if commands == [] then Good(x) else
      var next :- Step(x, commands[0]);
      Replay(next, commands[1..])
  }

  function Opened(fees: map<Market, PublishedSchedule>, cash: map<Currency, Money>): Exchange {
    Exchange(fees, cash, map c | c in cash :: 0, map[], [], [], map c | c in cash :: 0, 1)
  }
}
