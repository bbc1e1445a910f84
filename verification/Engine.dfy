/** The in-memory matcher of one market: which orders a book fills, and what a failed persistence undoes. */
module Engine {
  import opened Types
  import opened Fees
  import opened Execution

  type OrderId = nat

  datatype PaperOrder = PaperOrder(
    symbol: string,
    side: Side,
    kind: OrderType,
    quantity: int,
    limitPrice: Option<Money>,
    stopPrice: Option<Money>,
    filled: int,
    status: OrderStatus,
    version: nat
  ) {
    function ForExecution(): Order {
      Order(side, kind, quantity, filled, limitPrice)
    }

    predicate Matchable() {
      status == OPEN || status == PARTIALLY_FILLED
    }
  }

  datatype Book = Book(symbol: string, bids: seq<Level>, asks: seq<Level>)

  datatype OrderMatch = OrderMatch(execution: ExecutionResult, nextStatus: OrderStatus, filled: int)

  const MAX_DEVIATION_BPS := 10_000

  function ReferencePrice(book: Book): Money {
    if book.asks != [] then book.asks[0].price
    else if book.bids != [] then book.bids[0].price
    else 0
  }

  /** `matchOrder`. */
  function MatchOrder(order: PaperOrder, book: Book, market: Market, schedule: FeeSchedule): Result<OrderMatch>
    requires schedule.Valid()
  {
    var execution :- Execute(order.ForExecution(), book.bids, book.asks, market, schedule,
                             Protection(ReferencePrice(book), MAX_DEVIATION_BPS));
    var filled := order.filled + execution.filledQuantity;
    var nextStatus :=
      if filled >= order.quantity then FILLED
      else if execution.terminalReason.Some? || order.kind == MARKET then CANCELLED
      else if execution.filledQuantity == 0 then OPEN
      else PARTIALLY_FILLED;
    Ok(OrderMatch(execution, nextStatus, filled))
  }

  /** What a match says about the order, whatever the book. */
  predicate SoundMatch(order: PaperOrder, m: OrderMatch) {
    && m.filled == order.filled + QuantityOf(m.execution.fills)
    && order.filled <= m.filled <= order.quantity
    && m.nextStatus in {OPEN, PARTIALLY_FILLED, FILLED, CANCELLED}
    && (m.nextStatus == FILLED <==> m.filled == order.quantity)
    && (order.kind == MARKET ==> IsTerminal(m.nextStatus))
    && forall i | 0 <= i < |m.execution.fills| ::
         m.execution.fills[i].price > 0 && m.execution.fills[i].quantity > 0 && m.execution.fills[i].fee >= 0
  }

  /**
    A match never overfills and never takes quantity back; it is FILLED exactly when nothing is
    left, and a market order never rests.
   */
  lemma MatchIsSound(order: PaperOrder, book: Book, market: Market, schedule: FeeSchedule)
    requires schedule.Valid() && MatchOrder(order, book, market, schedule).Ok?
    ensures SoundMatch(order, MatchOrder(order, book, market, schedule).value)
  {
    hide Execute;
    var protection := Protection(ReferencePrice(book), MAX_DEVIATION_BPS);
    ExecutionConserves(order.ForExecution(), book.bids, book.asks, market, schedule, protection);
    hide FeeOn;
  }

  /** The status a match leaves can go back from PARTIALLY_FILLED to OPEN: it follows what this match crossed. */
  lemma StatusFollowsThisMatchOnly(order: PaperOrder, book: Book, market: Market, schedule: FeeSchedule)
    requires schedule.Valid() && MatchOrder(order, book, market, schedule).Ok?
    requires order.kind == LIMIT
    ensures var m := MatchOrder(order, book, market, schedule).value;
            m.nextStatus == if m.filled == order.quantity then FILLED
                            else if m.filled == order.filled then OPEN
                            else PARTIALLY_FILLED
  {
    var protection := Protection(ReferencePrice(book), MAX_DEVIATION_BPS);
    ExecutionConserves(order.ForExecution(), book.bids, book.asks, market, schedule, protection);
    ExecutionMaximal(order.ForExecution(), book.bids, book.asks, market, schedule, protection);
    hide Execute;
  }

  // ---- Conditional orders ----

  /** `evaluateConditional`: whether a trade at this price crosses the order. */
  function EvaluateConditional(order: PaperOrder, reference: Money): Result<bool> {
    var _ :- Check(order.stopPrice.Some? && order.stopPrice.value > 0 && reference >= 0, INVALID_PRICE);
    var upward := if order.side == BUY then order.kind == STOP else order.kind != STOP;
    Ok(if upward then reference >= order.stopPrice.value else reference <= order.stopPrice.value)
  }

  /**
    One price crosses the stop and the take-profit of a pair at once exactly when it lies between
    thresholds that are inverted, or on both: with the stop on its losing side that never happens.
   */
  lemma BothCrossedExactly(stop: PaperOrder, takeProfit: PaperOrder, price: Money)
    requires stop.kind == STOP && takeProfit.kind == TAKE_PROFIT && stop.side == takeProfit.side
    requires EvaluateConditional(stop, price).Ok? && EvaluateConditional(takeProfit, price).Ok?
    ensures var low, high := if stop.side == SELL then takeProfit.stopPrice.value else stop.stopPrice.value,
                             if stop.side == SELL then stop.stopPrice.value else takeProfit.stopPrice.value;
            EvaluateConditional(stop, price).value && EvaluateConditional(takeProfit, price).value
            <==> low <= price <= high
  {
  }

  // ---- The engine's state ----

  /** The version of a market-data envelope, compared lexicographically. */
  datatype Envelope = Envelope(recoveryEpoch: nat, token: nat, version: nat)

  predicate Newer(a: Envelope, b: Envelope) {
    || a.recoveryEpoch > b.recoveryEpoch
    || (a.recoveryEpoch == b.recoveryEpoch && a.token > b.token)
    || (a.recoveryEpoch == b.recoveryEpoch && a.token == b.token && a.version > b.version)
  }

  datatype State = State(
    orders: map<OrderId, PaperOrder>,
    conditional: map<OrderId, PaperOrder>,
    latest: map<string, Envelope>
  )

  /** How the persistence of a fill or a trigger ended, as the engine sees it. */
  datatype Persisted = Committed | AlreadyTerminal(status: OrderStatus) | Refused

  /** A match that changes nothing is not persisted. */
  predicate Idle(order: PaperOrder, m: OrderMatch) {
    m.execution.filledQuantity == 0 && m.nextStatus == order.status
  }

  function Updated(order: PaperOrder, m: OrderMatch): PaperOrder {
    order.(filled := m.filled, status := m.nextStatus, version := order.version + 1)
  }

  /** What the engine holds once the persistence of a match has ended. */
  function Settled(order: PaperOrder, m: OrderMatch, persisted: Persisted): PaperOrder {
    match persisted
    case Committed => Updated(order, m)
    case AlreadyTerminal(status) =>
      var terminal := if IsTerminal(status) then status else CANCELLED;
      order.(status := terminal,
             filled := if terminal == FILLED then order.quantity else order.filled,
             version := order.version + 1)
    case Refused => order
  }

  function CancelledInEngine(order: PaperOrder): PaperOrder {
    if IsTerminal(order.status) then order else order.(status := CANCELLED, version := order.version + 1)
  }

  /** An order enters, and waits for its trigger if it is still pending: `restoreOrder`. */
  function Registered(s: State, id: OrderId, order: PaperOrder): State {
    s.(orders := s.orders[id := order],
       conditional := if order.status == PENDING_TRIGGER then s.conditional[id := order] else s.conditional)
  }

  /** Both maps hold the same conditional order. */
  function Marked(s: State, id: OrderId, order: PaperOrder): State {
    s.(orders := s.orders[id := order], conditional := s.conditional[id := order])
  }

  /** A cancellation reaches the order map only. */
  function Cancelled(s: State, id: OrderId): State {
    if id in s.orders then s.(orders := s.orders[id := CancelledInEngine(s.orders[id])]) else s
  }

  /** The orders a book is matched against. */
  predicate Matches(s: State, id: OrderId, book: Book) {
    id in s.orders && s.orders[id].symbol == book.symbol && s.orders[id].Matchable()
  }

  /**
    One pass of a book over some orders, each with how its persistence would end: an execution error
    or a refused persistence stops it.
   */
  function MatchPass(s: State, ids: seq<OrderId>, book: Book, market: Market, schedule: FeeSchedule,
                     outcomes: seq<Persisted>): (r: (State, Result<()>))
    requires schedule.Valid() && |outcomes| == |ids|
    decreases |ids|
  {
    if ids == [] then (s, Ok(())) else
      var id := ids[0];
      if !Matches(s, id, book) then MatchPass(s, ids[1..], book, market, schedule, outcomes[1..])
      else
        var m := MatchOrder(s.orders[id], book, market, schedule);
        if m.Err? then (s, Err(m.code))
        else if Idle(s.orders[id], m.value) then MatchPass(s, ids[1..], book, market, schedule, outcomes[1..])
        else
          var next := s.(orders := s.orders[id := Settled(s.orders[id], m.value, outcomes[0])]);
          if outcomes[0].Refused? then (next, Err(SERVICE_UNAVAILABLE))
          else MatchPass(next, ids[1..], book, market, schedule, outcomes[1..])
  }

  /** The orders a trade may trigger. */
  predicate Waits(s: State, id: OrderId, symbol: string) {
    id in s.conditional && s.conditional[id].symbol == symbol && s.conditional[id].status == PENDING_TRIGGER
  }

  /**
    One trade over some conditional orders, each with whether its persistence would go through: a
    failed one is put back and the others are still evaluated; the failures are reported at the end.
   */
  function TradePass(s: State, ids: seq<OrderId>, symbol: string, price: Money, outcomes: seq<bool>, failures: nat)
      : (r: (State, Result<()>))
    requires |outcomes| == |ids|
    decreases |ids|
  {
    if ids == [] then (s, if failures == 0 then Ok(()) else Err(SERVICE_UNAVAILABLE)) else
      var id := ids[0];
      if !Waits(s, id, symbol) then TradePass(s, ids[1..], symbol, price, outcomes[1..], failures)
      else
        var order := s.conditional[id];
        var crossed := EvaluateConditional(order, price);
        if crossed.Err? then (s, Err(crossed.code))
        else if !crossed.value then TradePass(s, ids[1..], symbol, price, outcomes[1..], failures)
        else if outcomes[0] then
          TradePass(Marked(s, id, order.(status := TRIGGERED)), ids[1..], symbol, price, outcomes[1..], failures)
        else TradePass(Marked(s, id, order), ids[1..], symbol, price, outcomes[1..], failures + 1)
  }

  /** A book pass leaves alone every order it does not match, and a conditional order until it is triggered. */
  lemma {:induction false} PassTouchesOnly(s: State, ids: seq<OrderId>, book: Book, market: Market,
                                           schedule: FeeSchedule, outcomes: seq<Persisted>)
    requires schedule.Valid() && |outcomes| == |ids|
    ensures var after := MatchPass(s, ids, book, market, schedule, outcomes).0;
            && after.conditional == s.conditional && after.latest == s.latest && after.orders.Keys == s.orders.Keys
            && forall id | id in s.orders && (id !in ids || !Matches(s, id, book)) :: after.orders[id] == s.orders[id]
    decreases |ids|
  {
    hide MatchOrder, Idle, Settled;
    if ids != [] {
      var id := ids[0];
      assert forall k | k in s.orders && k !in ids :: k !in ids[1..];
      if !Matches(s, id, book) {
        PassTouchesOnly(s, ids[1..], book, market, schedule, outcomes[1..]);
      } else {
        var m := MatchOrder(s.orders[id], book, market, schedule);
        if m.Ok? {
          if Idle(s.orders[id], m.value) {
            PassTouchesOnly(s, ids[1..], book, market, schedule, outcomes[1..]);
          } else {
            var next := s.(orders := s.orders[id := Settled(s.orders[id], m.value, outcomes[0])]);
            assert forall k | k in s.orders && k != id :: Matches(next, k, book) == Matches(s, k, book);
            if !outcomes[0].Refused? {
              PassTouchesOnly(next, ids[1..], book, market, schedule, outcomes[1..]);
            }
          }
        }
      }
    }
  }

  /**
    A conditional order just registered is matched by no book, and a trade that fails to persist its
    trigger leaves it registered as it was, to be evaluated again.
   */
  lemma RegisteredUntilTriggered(s: State, id: OrderId, order: PaperOrder, ids: seq<OrderId>, book: Book,
                                 market: Market, schedule: FeeSchedule, outcomes: seq<Persisted>, price: Money)
    requires schedule.Valid() && |outcomes| == |ids| && order.status == PENDING_TRIGGER
    ensures var after := MatchPass(Registered(s, id, order), ids, book, market, schedule, outcomes).0;
            && id in after.orders && after.orders[id] == order
            && Waits(after, id, order.symbol) && after.conditional[id] == order
            && TradePass(after, [id], order.symbol, price, [false], 0).0 == after
            && (EvaluateConditional(order, price) == Ok(true) ==>
                  var done := TradePass(after, [id], order.symbol, price, [true], 0).0;
                  id in done.orders && done.orders[id].status == TRIGGERED && !Waits(done, id, order.symbol))
  {
    hide MatchPass, EvaluateConditional;
    PassTouchesOnly(Registered(s, id, order), ids, book, market, schedule, outcomes);
    var after := MatchPass(Registered(s, id, order), ids, book, market, schedule, outcomes).0;
    assert after.orders[id] == order;
    assert Marked(after, id, order) == after;
  }

  class PaperEngine {
    const market: Market
    const schedule: FeeSchedule
    var orders: map<OrderId, PaperOrder>
    var conditional: map<OrderId, PaperOrder>
    var latest: map<string, Envelope>

    function Contents(): State
      reads this
    {
      State(orders, conditional, latest)
    }

    constructor (market: Market, schedule: FeeSchedule)
      ensures Contents() == State(map[], map[], map[])
      ensures this.market == market && this.schedule == schedule
    {
      this.market, this.schedule := market, schedule;
      orders, conditional, latest := map[], map[], map[];
    }

    /** `#rememberEnvelope`: an envelope is taken only if it is newer than every one taken before. */
    method RememberEnvelope(symbol: string, envelope: Envelope) returns (taken: bool)
      modifies this`latest
      ensures symbol !in old(latest) ==> taken
      ensures symbol in old(latest) ==>
                var last := old(latest)[symbol];
                taken <==>
                  && last.recoveryEpoch <= envelope.recoveryEpoch
                  && (last.recoveryEpoch == envelope.recoveryEpoch ==>
                        && last.token <= envelope.token
                        && (last.token == envelope.token ==> last.version < envelope.version))
      ensures latest == if taken then old(latest)[symbol := envelope] else old(latest)
    {
      if symbol in latest {
        var previous := latest[symbol];
        if envelope.recoveryEpoch < previous.recoveryEpoch
           || (envelope.recoveryEpoch == previous.recoveryEpoch && envelope.token < previous.token)
           || (envelope.recoveryEpoch == previous.recoveryEpoch && envelope.token == previous.token
               && envelope.version <= previous.version)
        {
          return false;
        }
      }
      latest := latest[symbol := envelope];
      return true;
    }

    /** `#matchBook`: each order is matched, updated, persisted, and put back if the persistence fails. */
    method MatchBook(ids: seq<OrderId>, book: Book, outcomes: seq<Persisted>) returns (r: Result<()>)
      requires schedule.Valid() && |outcomes| == |ids|
      modifies this`orders
      ensures (Contents(), r) == MatchPass(old(Contents()), ids, book, market, schedule, outcomes)
    {
      hide MatchOrder, Idle;
      var i := 0;
      while i < |ids|
        invariant 0 <= i <= |ids| && conditional == old(conditional) && latest == old(latest)
        invariant MatchPass(old(Contents()), ids, book, market, schedule, outcomes)
               == MatchPass(Contents(), ids[i..], book, market, schedule, outcomes[i..])
      {
        var id, persisted := ids[i], outcomes[i];
        assert ids[i..][0] == id && ids[i..][1..] == ids[i + 1..];
        assert outcomes[i..][0] == persisted && outcomes[i..][1..] == outcomes[i + 1..];
        i := i + 1;
        if id !in orders || orders[id].symbol != book.symbol || !orders[id].Matchable() {
          continue;
        }
        var order := orders[id];
        var m := MatchOrder(order, book, market, schedule);
        if m.Err? {
          return Err(m.code);
        }
        if Idle(order, m.value) {
          continue;
        }
        ghost var before := orders;
        orders := orders[id := Updated(order, m.value)];
        match persisted {
          case Committed =>
          case AlreadyTerminal(status) =>
            var terminal := if IsTerminal(status) then status else CANCELLED;
            orders := orders[id := order.(status := terminal,
                                          filled := if terminal == FILLED then order.quantity else order.filled,
                                          version := order.version + 1)];
          case Refused =>
            orders := orders[id := order];
            assert orders == before[id := Settled(order, m.value, persisted)];
            return Err(SERVICE_UNAVAILABLE);
        }
        assert orders == before[id := Settled(order, m.value, persisted)];
      }
      return Ok(());
    }

    /** `onTrade`: each crossed conditional order is marked, persisted, and put back if the persistence throws. */
    method OnTrade(ids: seq<OrderId>, symbol: string, price: Money, outcomes: seq<bool>) returns (r: Result<()>)
      requires |outcomes| == |ids|
      modifies this`orders, this`conditional
      ensures (Contents(), r) == TradePass(old(Contents()), ids, symbol, price, outcomes, 0)
    {
      hide EvaluateConditional;
      var failures := 0;
      var i := 0;
      while i < |ids|
        invariant 0 <= i <= |ids| && latest == old(latest)
        invariant TradePass(old(Contents()), ids, symbol, price, outcomes, 0)
               == TradePass(Contents(), ids[i..], symbol, price, outcomes[i..], failures)
      {
        var id := ids[i];
        assert ids[i..][0] == id && ids[i..][1..] == ids[i + 1..];
        assert outcomes[i..][0] == outcomes[i] && outcomes[i..][1..] == outcomes[i + 1..];
        i := i + 1;
        if id !in conditional || conditional[id].symbol != symbol || conditional[id].status != PENDING_TRIGGER {
          continue;
        }
        var order := conditional[id];
        var crossed := EvaluateConditional(order, price);
        if crossed.Err? {
          return Err(crossed.code);
        }
        if !crossed.value {
          continue;
        }
        ghost var before := Contents();
        conditional := conditional[id := order.(status := TRIGGERED)];
        orders := orders[id := order.(status := TRIGGERED)];
        assert Contents() == Marked(before, id, order.(status := TRIGGERED));
        if !outcomes[i - 1] {
          conditional := conditional[id := order];
          orders := orders[id := order];
          assert Contents() == Marked(before, id, order);
          failures := failures + 1;
        }
      }
      return if failures == 0 then Ok(()) else Err(SERVICE_UNAVAILABLE);
    }

    /** `cancelOrder`: the conditional map is not touched. */
    method CancelOrder(id: OrderId)
      modifies this`orders
      ensures Contents() == Cancelled(old(Contents()), id)
    {
      if id !in orders || IsTerminal(orders[id].status) {
        assert id in orders ==> orders[id := orders[id]] == orders;
        return;
      }
      orders := orders[id := orders[id].(status := CANCELLED, version := orders[id].version + 1)];
    }

    method RegisterConditionalOrder(id: OrderId, order: PaperOrder)
      modifies this`orders, this`conditional
      ensures Contents() == Marked(old(Contents()), id, order)
    {
      conditional := conditional[id := order];
      orders := orders[id := order];
    }

    /** `restoreOrder`: an order of a previous leader, kept as its row has it. */
    method RestoreOrder(id: OrderId, order: PaperOrder)
      modifies this`orders, this`conditional
      ensures Contents() == Registered(old(Contents()), id, order)
    {
      if order.status == PENDING_TRIGGER {
        RegisterConditionalOrder(id, order);
        return;
      }
      orders := orders[id := order];
    }
  }

  // ---- Envelopes ----

  lemma NewerOrder(a: Envelope, b: Envelope, c: Envelope)
    ensures !Newer(a, a)
    ensures Newer(a, b) && Newer(b, c) ==> Newer(a, c)
    ensures a == b || Newer(a, b) || Newer(b, a)
  {
  }

  /** The envelopes taken out of any stream, each compared with the last one taken. */
  function Taken(last: Option<Envelope>, stream: seq<Envelope>): seq<Envelope>
    decreases |stream|
  {
    if stream == [] then []
    else if last.Some? && !Newer(stream[0], last.value) then Taken(last, stream[1..])
    else [stream[0]] + Taken(Some(stream[0]), stream[1..])
  }

  /** The last envelope taken, or the one the stream began behind. */
  function LastTaken(last: Option<Envelope>, stream: seq<Envelope>): Option<Envelope> {
    var taken := Taken(last, stream);
    if taken == [] then last else Some(taken[|taken| - 1])
  }

  lemma {:induction false} TakenOneMore(last: Option<Envelope>, stream: seq<Envelope>, e: Envelope)
    ensures var p := LastTaken(last, stream);
            Taken(last, stream + [e]) == Taken(last, stream) + if p.Some? && !Newer(e, p.value) then [] else [e]
    decreases |stream|
  {
    hide Newer;
    if stream == [] {
      assert [] + [e] == [e] && [e][1..] == [];
    } else {
      assert (stream + [e])[0] == stream[0] && (stream + [e])[1..] == stream[1..] + [e];
      TakenOneMore(if last.Some? && !Newer(stream[0], last.value) then last else Some(stream[0]), stream[1..], e);
    }
  }

  /**
    Whatever the stream, the next envelope is taken exactly when nothing was taken before it, its
    epoch is newer than the last taken one's, its token is newer within that epoch, or its version is
    newer within that token.
   */
  lemma TakenExactly(last: Option<Envelope>, stream: seq<Envelope>, e: Envelope)
    ensures var p := LastTaken(last, stream);
            Taken(last, stream + [e]) == Taken(last, stream) +
              if || p.None?
                 || p.value.recoveryEpoch < e.recoveryEpoch
                 || (p.value.recoveryEpoch == e.recoveryEpoch && p.value.token < e.token)
                 || (p.value.recoveryEpoch == e.recoveryEpoch && p.value.token == e.token
                     && p.value.version < e.version)
              then [e] else []
  {
    TakenOneMore(last, stream, e);
  }

  /**
    Taken envelopes never go back: epochs do not decrease, tokens do not within an epoch, and within
    a token versions strictly increase. Nothing is ever matched twice or out of order.
   */
  lemma TakenAdvance(last: Option<Envelope>, stream: seq<Envelope>, i: nat, j: nat)
    requires i < j < |Taken(last, stream)|
    ensures var a, b := Taken(last, stream)[i], Taken(last, stream)[j];
            && a.recoveryEpoch <= b.recoveryEpoch
            && (a.recoveryEpoch == b.recoveryEpoch ==> a.token <= b.token)
            && (a.recoveryEpoch == b.recoveryEpoch && a.token == b.token ==> a.version < b.version)
    decreases |stream|
  {
    TakenNewer(last, stream, i, j);
  }

  lemma {:induction false} TakenNewer(last: Option<Envelope>, stream: seq<Envelope>, i: nat, j: nat)
    requires i < j < |Taken(last, stream)|
    ensures Newer(Taken(last, stream)[j], Taken(last, stream)[i])
    decreases |stream|
  {
    var first := stream[0];
    if last.Some? && !Newer(first, last.value) {
      TakenNewer(last, stream[1..], i, j);
    } else if i > 0 {
      TakenNewer(Some(first), stream[1..], i - 1, j - 1);
    } else {
      TakenAfter(first, stream[1..], j - 1);
    }
  }

  lemma {:induction false} TakenAfter(last: Envelope, stream: seq<Envelope>, k: nat)
    requires k < |Taken(Some(last), stream)|
    ensures Newer(Taken(Some(last), stream)[k], last)
    decreases |stream|
  {
    var first := stream[0];
    if !Newer(first, last) {
      TakenAfter(last, stream[1..], k);
    } else if k > 0 {
      TakenAfter(first, stream[1..], k - 1);
      NewerOrder(Taken(Some(first), stream[1..])[k - 1], first, last);
    }
  }
}
