/** What a book or a trade does with one order of the matcher, in the order's own fields. */
module EngineOrders {
  import opened Types
  import opened Fees
  import opened Execution
  import opened Engine

  /**
    The status a match leaves, for every kind of order: FILLED when nothing is left, CANCELLED for what
    is left of an order that may not rest, and otherwise what this match crossed.
   */
  lemma StatusExactly(order: PaperOrder, book: Book, market: Market, schedule: FeeSchedule)
    requires schedule.Valid() && MatchOrder(order, book, market, schedule).Ok?
    ensures var m := MatchOrder(order, book, market, schedule).value;
            m.nextStatus ==
              if m.filled == order.quantity then FILLED
              else if order.kind == MARKET || (order.kind in {STOP, TAKE_PROFIT} && order.limitPrice.None?)
              then CANCELLED
              else if m.filled == order.filled then OPEN
              else PARTIALLY_FILLED
  {
    var protection := Protection(ReferencePrice(book), MAX_DEVIATION_BPS);
    ExecutionConserves(order.ForExecution(), book.bids, book.asks, market, schedule, protection);
    ExecutionMaximal(order.ForExecution(), book.bids, book.asks, market, schedule, protection);
    hide Execute, FeeOn;
  }

  /** The order as a match leaves it. */
  function Matched(order: PaperOrder, m: OrderMatch): PaperOrder {
    PaperOrder(order.symbol, order.side, order.kind, order.quantity, order.limitPrice, order.stopPrice, m.filled,
               m.nextStatus, order.version + 1)
  }

  /**
    A book whose fills commit changes an order exactly when it is of the book's symbol, open or partly
    filled, and the match finds something to fill or another status; then it is the match that counts.
   */
  lemma BookChangesExactly(s: State, id: OrderId, book: Book, market: Market, schedule: FeeSchedule)
    requires schedule.Valid() && id in s.orders
    ensures var order, m := s.orders[id], MatchOrder(s.orders[id], book, market, schedule);
            var pass := MatchPass(s, [id], book, market, schedule, [Committed]);
            if order.symbol == book.symbol && order.status in {OPEN, PARTIALLY_FILLED} then
              if m.Err? then pass == (s, Err(m.code))
              else if m.value.filled == order.filled && m.value.nextStatus == order.status then pass == (s, Ok(()))
              else pass == (s.(orders := s.orders[id := Matched(order, m.value)]), Ok(()))
            else pass == (s, Ok(()))
  {
    var order, m := s.orders[id], MatchOrder(s.orders[id], book, market, schedule);
    if m.Ok? {
      var protection := Protection(ReferencePrice(book), MAX_DEVIATION_BPS);
      ExecutionConserves(order.ForExecution(), book.bids, book.asks, market, schedule, protection);
    }
    hide Execute, FeeOn;
    assert [id][1..] == [] && [Committed][1..] == [];
  }

  /** A stop buys at or above its price and sells at or below it; a take-profit the other way round. */
  predicate Reached(order: PaperOrder, price: Money)
    requires order.stopPrice.Some?
  {
    || (order.kind == STOP && order.side == BUY && price >= order.stopPrice.value)
    || (order.kind == STOP && order.side == SELL && price <= order.stopPrice.value)
    || (order.kind == TAKE_PROFIT && order.side == BUY && price <= order.stopPrice.value)
    || (order.kind == TAKE_PROFIT && order.side == SELL && price >= order.stopPrice.value)
  }

  /**
    A trade triggers an order exactly when the order waits for its trigger, is of the traded symbol,
    and the price has reached its own; an order without a positive trigger price is an error.
   */
  lemma TradeTriggersExactly(s: State, id: OrderId, symbol: string, price: Money)
    requires id in s.conditional && s.conditional[id].kind in {STOP, TAKE_PROFIT}
    ensures var order, pass := s.conditional[id], TradePass(s, [id], symbol, price, [true], 0);
            var triggered := order.(status := TRIGGERED);
            if order.symbol == symbol && order.status == PENDING_TRIGGER then
              if order.stopPrice.None? || order.stopPrice.value <= 0 || price < 0 then pass == (s, Err(INVALID_PRICE))
              else if Reached(order, price)
              then pass == (State(s.orders[id := triggered], s.conditional[id := triggered], s.latest), Ok(()))
              else pass == (s, Ok(()))
            else pass == (s, Ok(()))
  {
    assert [id][1..] == [] && [true][1..] == [];
  }
}
