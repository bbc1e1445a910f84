/**
  A tenure in which the result of a committed partial fill is lost: the engine goes back to what it
  held before, fills the order again, and the ledger ends up with more shares sold than were ordered.
 */
module TenureLoss {
  import opened Types
  import opened ExactMoney
  import opened Fees
  import opened Execution
  import opened LedgerModel
  import opened LedgerInvariants
  import opened LedgerRuns
  import opened Tenure
  import Engine
  import Settlement

  const SHARES := Position(0, KR, "005930")
  const PROCEEDS := Wallet(0, KRW)

  /** A sale of two shares at one unit, as the engine and as the ledger have it. */
  const HELD := Engine.PaperOrder("005930", SELL, LIMIT, 2, Some(1), None, 0, OPEN, 0)
  const ROW := OrderRow(0, KR, "005930", LIMIT, SELL, Some(1), 2, 0, OPEN, None, false)

  /** Some shares bid for at one unit. */
  function Bid(volume: int): Engine.Book {
    Engine.Book("005930", [Level(1, volume)], [Level(2, 1)])
  }

  function Sold(quantity: int): FillRow {
    RowOf(1, ROW, Fill(1, quantity, 0), 1)
  }

  /** The ledger with the order, its reservation and both accounts as they are after some of its fills. */
  function Ledger(row: OrderRow, position: Settlement.Balance, held: Money, released: bool, cash: Money,
                  fills: seq<FillRow>)
      : Tables {
    Tables(map[0 := true], map[], map[SHARES := position, PROCEEDS := Settlement.Balance(cash, cash, 0)], map[], map[],
           map[1 := row], map[0 := ReservationRow(OfOrder(1), SHARES, held, released)], fills, map[KR := 1])
  }

  /** Three shares, two of them reserved for the order. */
  function Before(): Tables {
    Ledger(ROW, Settlement.Balance(3, 1, 2), 2, false, 0, [])
  }

  function Between(): Tables {
    Ledger(ROW.(filled := 1, status := PARTIALLY_FILLED), Settlement.Balance(2, 1, 1), 1, false, 1, [Sold(1)])
  }

  function Afterwards(): Tables {
    Ledger(ROW.(filled := 2, status := FILLED), Settlement.Balance(0, 0, 0), 0, true, 3, [Sold(1), Sold(2)])
  }

  lemma SmallExact(n: int)
    requires -10 < n < 10
    ensures Exact(n)
  {
    Pow10Mono(1, PRECISION);
    assert Pow10(1) == 10;
    SmallFits(n, PRECISION);
  }

  lemma AllExact()
    ensures forall n | -10 < n < 10 :: Exact(n)
  {
    forall n | -10 < n < 10 ensures Exact(n) {
      SmallExact(n);
    }
  }

  // ---- The matches ----

  lemma BidValid(volume: int)
    requires volume in {1, 2}
    ensures Validate(HELD.ForExecution(), Bid(volume).bids, Bid(volume).asks, KR, FREE,
                     Protection(2, Engine.MAX_DEVIATION_BPS)).Ok?
  {
    AllExact();
    hide Exact;
    assert Bid(volume).bids[1..] == [] && Bid(volume).asks[1..] == [];
  }

  lemma BidConsumed(volume: int)
    requires volume in {1, 2}
    ensures Consume(HELD.ForExecution(), FREE, Level(1, volume), Start(HELD.ForExecution()))
         == Ok(WalkState(2 - volume, volume, 0, [Fill(1, volume, 0)], false))
  {
    AllExact();
    FreeOfCharge(SELL, 1, volume);
    hide Exact, Calculate;
    assert [] + [Fill(1, volume, 0)] == [Fill(1, volume, 0)];
  }

  lemma BidWalks(volume: int)
    requires volume in {1, 2}
    ensures WalkLevels(HELD.ForExecution(), FREE, Protection(2, Engine.MAX_DEVIATION_BPS), Bid(volume).bids,
                       Start(HELD.ForExecution()))
         == Ok(WalkState(2 - volume, volume, 0, [Fill(1, volume, 0)], false))
  {
    hide Consume, WithinProtection;
    BidConsumed(volume);
    assert Bid(volume).bids[1..] == [];
  }

  lemma BidMatches(volume: int)
    requires volume in {1, 2}
    ensures var m := Engine.MatchOrder(HELD, Bid(volume), KR, FREE);
            && m.Ok? && m.value.execution.fills == [Fill(1, volume, 0)] && m.value.execution.filledQuantity == volume
            && m.value.filled == volume && m.value.nextStatus == (if volume == 2 then FILLED else PARTIALLY_FILLED)
  {
    hide Exact, Validate, WalkLevels;
    SmallExact(1);
    SmallExact(2);
    SmallExact(4);
    BidValid(volume);
    BidWalks(volume);
  }

  // ---- The transactions ----

  function Persisting(filledAfter: int, status: OrderStatus, quantity: int): FillCommand {
    FillCommand(1, filledAfter, status, [Fill(1, quantity, 0)], 1, FREE)
  }

  lemma OneFill(quantity: int)
    requires quantity in {1, 2}
    ensures SumFills([Fill(1, quantity, 0)], -1, 0) == Ok(quantity) && QuantityOf([Fill(1, quantity, 0)]) == quantity
  {
    AllExact();
    hide Exact;
    assert [Fill(1, quantity, 0)][..0] == [];
  }

  lemma OnlyReservation(t: Tables)
    requires t.reservations.Keys == {0} && t.reservations[0].owner == OfOrder(1) && !t.reservations[0].released
    ensures LockReservation(t, OfOrder(1)) == Some(0)
  {
    assert OpenFor(t, OfOrder(1), 0);
  }

  /** The settlements of the two fills: from the reservation, then from what the account holds beside it. */
  lemma FirstSettles(shortage: ErrorCode)
    ensures Settlement.Settle(Settlement.Request(Settlement.Balance(3, 1, 2), 2, 1, false, Some(1)), shortage)
         == Ok(Settlement.Plan(Settlement.Balance(2, 1, 1), 1, false))
  {
    SmallExact(0);
    SmallExact(1);
    SmallExact(2);
    SmallExact(3);
    hide Exact;
  }

  lemma SecondSettles(shortage: ErrorCode)
    ensures Settlement.Settle(Settlement.Request(Settlement.Balance(2, 1, 1), 1, 2, true, None), shortage)
         == Ok(Settlement.Plan(Settlement.Balance(0, 0, 0), 0, true))
  {
    SmallExact(0);
    SmallExact(1);
    SmallExact(2);
    hide Exact;
  }

  predicate OnlyOrder(t: Tables, row: OrderRow) {
    && 1 in t.orders && t.orders[1] == row && row.session in t.sessions && !IsTerminal(row.status)
    && row.side == SELL && row.group.None? && Fenced(t, row.market, 1)
    && t.reservations.Keys == {0} && t.reservations[0].owner == OfOrder(1) && !t.reservations[0].released
    && row.Funding() in t.balances && row.Receiving() in t.balances
  }

  /** The tables once a fill of some shares at one unit has been settled as planned. */
  function Written(t: Tables, row: OrderRow, c: FillCommand, quantity: nat, plan: Settlement.Plan): Tables
    requires OnlyOrder(t, row)
  {
    var cash := t.balances[row.Receiving()];
    t.(orders := t.orders[1 := row.(filled := c.filledAfter, status := c.nextStatus)],
       fills := t.fills + [RowOf(1, row, Fill(1, quantity, 0), 1)],
       balances := t.balances[row.Funding() := plan.balance]
                     [row.Receiving() := Settlement.Balance(cash.total + quantity, cash.available + quantity,
                                                            cash.reserved)],
       reservations := t.reservations[0 := t.reservations[0].(amount := plan.remaining, released := plan.released)])
  }

  lemma Recording(t: Tables, row: OrderRow, c: FillCommand, quantity: nat)
    requires c.order == 1 && c.token == 1 && c.fills == [Fill(1, quantity, 0)]
    ensures RecordFills(t, c, row)
         == t.(orders := t.orders[1 := row.(filled := c.filledAfter, status := c.nextStatus)],
               fills := t.fills + [RowOf(1, row, Fill(1, quantity, 0), 1)])
  {
    assert RowsOf(1, row, c.fills, 1) == [RowOf(1, row, Fill(1, quantity, 0), 1)];
  }

  lemma Debits(t: Tables, row: OrderRow, consumed: Money, terminal: bool, desired: Option<Money>, plan: Settlement.Plan)
    requires row.Funding() in t.balances && row.group.None? && t.reservations.Keys == {0}
    requires t.reservations[0].owner == OfOrder(1) && !t.reservations[0].released
    requires Settlement.Settle(Settlement.Request(t.balances[row.Funding()], t.reservations[0].amount, consumed,
                                                  terminal, desired), Shortage(row.Funding())) == Ok(plan)
    ensures Debit(t, 1, row, consumed, terminal, desired)
         == Ok(WriteReservation(t.(balances := t.balances[row.Funding() := plan.balance]), Some(0), plan))
  {
    OnlyReservation(t);
    hide Settlement.Settle, LockReservation, WriteReservation;
  }

  /** The settlement of a sale, from the tables its debit leaves. */
  lemma SaleSettles(t: Tables, row: OrderRow, quantity: nat, terminal: bool, desired: Option<Money>, debited: Tables,
                    grown: Tables)
    requires row.side == SELL && row.Funding() in t.balances && quantity in {1, 2}
    requires Debit(t, 1, row, quantity, terminal, desired) == Ok(debited)
    requires Credit(debited, row.Receiving(), quantity) == Ok(grown)
    ensures SettleFill(t, 1, row, [Fill(1, quantity, 0)], terminal, desired) == Ok(grown)
  {
    hide Debit, SumFills, Credit, GrowPosition;
    OneFill(quantity);
  }

  /** The fill transaction, past its checks. */
  lemma Persists(t: Tables, c: FillCommand, order: OrderRow, desired: Option<Money>)
    requires c.schedule.Valid() && c.order in t.orders && t.orders[c.order] == order && order.session in t.sessions
    requires !IsTerminal(order.status) && Fenced(t, order.market, c.token)
    requires 0 <= c.filledAfter <= order.quantity && Storable(c.fills)
    requires var terminal := c.nextStatus == FILLED || c.nextStatus == CANCELLED;
             RemainingExposure(order, c.filledAfter, terminal, c.schedule) == Ok(desired)
    ensures PersistFill(t, c)
         == SettleFill(RecordFills(t, c, order), c.order, order, c.fills,
                       c.nextStatus == FILLED || c.nextStatus == CANCELLED, desired)
  {
    hide SettleFill, RecordFills, RemainingExposure, Fenced, Storable;
  }

  lemma SalePersists(t: Tables, row: OrderRow, c: FillCommand, quantity: nat, desired: Option<Money>,
                     plan: Settlement.Plan)
    requires OnlyOrder(t, row) && c.order == 1 && c.token == 1 && c.schedule == FREE && quantity in {1, 2}
    requires c.fills == [Fill(1, quantity, 0)] && 0 <= c.filledAfter <= row.quantity
    requires t.balances[row.Receiving()].total >= 0 && t.balances[row.Receiving()].available >= 0
    requires var terminal := c.nextStatus == FILLED || c.nextStatus == CANCELLED;
             && RemainingExposure(row, c.filledAfter, terminal, FREE) == Ok(desired)
             && Settlement.Settle(Settlement.Request(t.balances[row.Funding()], t.reservations[0].amount, quantity,
                                                     terminal, desired), Shortage(row.Funding())) == Ok(plan)
    ensures PersistFill(t, c) == Ok(Written(t, row, c, quantity, plan))
  {
    hide RemainingExposure, Settlement.Settle, RecordFills, Debit, Fenced, PersistFill, SettleFill;
    var terminal := c.nextStatus == FILLED || c.nextStatus == CANCELLED;
    var recorded := RecordFills(t, c, row);
    Recording(t, row, c, quantity);
    Debits(recorded, row, quantity, terminal, desired, plan);
    var debited := Debit(recorded, 1, row, quantity, terminal, desired).value;
    assert row.Receiving() != row.Funding();
    assert Credit(debited, row.Receiving(), quantity) == Ok(Written(t, row, c, quantity, plan));
    hide Credit, Written;
    SaleSettles(recorded, row, quantity, terminal, desired, debited, Written(t, row, c, quantity, plan));
    Persists(t, c, row, desired);
  }

  lemma OneLeft()
    ensures RemainingExposure(ROW, 1, false, FREE) == Ok(Some(1))
  {
    hide Calculate, Exact;
    SmallExact(1);
  }

  lemma FirstPersists()
    ensures PersistFill(Before(), Persisting(1, PARTIALLY_FILLED, 1)) == Ok(Between())
  {
    hide RemainingExposure, Settlement.Settle, PersistFill;
    OneLeft();
    FirstSettles(Shortage(SHARES));
    var plan := Settlement.Plan(Settlement.Balance(2, 1, 1), 1, false);
    SalePersists(Before(), ROW, Persisting(1, PARTIALLY_FILLED, 1), 1, Some(1), plan);
    assert Written(Before(), ROW, Persisting(1, PARTIALLY_FILLED, 1), 1, plan) == Between();
  }

  lemma SecondPersists()
    ensures PersistFill(Between(), Persisting(2, FILLED, 2)) == Ok(Afterwards())
  {
    hide Settlement.Settle, PersistFill;
    SecondSettles(Shortage(SHARES));
    var row := ROW.(filled := 1, status := PARTIALLY_FILLED);
    var plan := Settlement.Plan(Settlement.Balance(0, 0, 0), 0, true);
    SalePersists(Between(), row, Persisting(2, FILLED, 2), 2, None, plan);
    assert Written(Between(), row, Persisting(2, FILLED, 2), 2, plan) == Afterwards();
  }

  // ---- The run ----

  function At(order: Engine.PaperOrder, flight: Option<Flight>, ledger: Tables): System {
    System(KR, 1, FREE, map[1 := order], map[], flight, ledger)
  }

  lemma OpeningSound()
    ensures Inv(Before()) && RowsMatch(Before()) && Agrees(At(HELD, None, Before()))
  {
    var t := Before();
    forall a: Account ensures SumOpen(t.reservations, a) == if a == SHARES then 2 else 0 {
      SumRemove(t.reservations, a, 0);
      assert t.reservations - {0} == map[];
    }
    hide SumOpen;
  }

  lemma MatchStep(s: System, id: OrderId, book: Engine.Book, m: Engine.OrderMatch)
    requires s.flight.None? && id in s.orders && s.orders[id].Matchable() && s.orders[id].symbol == book.symbol
    requires Engine.MatchOrder(s.orders[id], book, s.market, s.schedule) == Ok(m) && !Engine.Idle(s.orders[id], m)
    ensures Enabled(s, Match(id, book))
    ensures After(s, Match(id, book))
         == s.(orders := s.orders[id := Engine.Updated(s.orders[id], m)],
               flight := Some(FillInFlight(id, s.orders[id], m)))
  {
    hide Engine.MatchOrder, Engine.Idle, Engine.Updated, ElsewhereOnly, FreshFor;
  }

  /** The engine holding the untouched order matches it against shares bid for. */
  lemma Matched(ledger: Tables, volume: int) returns (m: Engine.OrderMatch)
    requires volume in {1, 2}
    ensures Enabled(At(HELD, None, ledger), Match(1, Bid(volume)))
    ensures After(At(HELD, None, ledger), Match(1, Bid(volume)))
         == At(Engine.Updated(HELD, m), Some(FillInFlight(1, HELD, m)), ledger)
    ensures m.execution.fills == [Fill(1, volume, 0)] && m.filled == volume
    ensures m.nextStatus == if volume == 2 then FILLED else PARTIALLY_FILLED
  {
    hide Engine.MatchOrder, Enabled, After;
    BidMatches(volume);
    m := Engine.MatchOrder(HELD, Bid(volume), KR, FREE).value;
    MatchStep(At(HELD, None, ledger), 1, Bid(volume), m);
    assert map[1 := HELD][1 := Engine.Updated(HELD, m)] == map[1 := Engine.Updated(HELD, m)];
  }

  /** The commit of the first fill, whose result is lost: the engine holds the order as before. */
  lemma FirstLands(m: Engine.OrderMatch)
    requires m.execution.fills == [Fill(1, 1, 0)] && m.filled == 1 && m.nextStatus == PARTIALLY_FILLED
    ensures After(At(Engine.Updated(HELD, m), Some(FillInFlight(1, HELD, m)), Before()), Land(Lost))
         == At(HELD, None, Between())
  {
    hide PersistFill, Before, Between;
    FirstPersists();
    var s := At(Engine.Updated(HELD, m), Some(FillInFlight(1, HELD, m)), Before());
    assert FlightCommand(s) == Fills(Persisting(1, PARTIALLY_FILLED, 1));
    assert s.orders[1 := HELD] == map[1 := HELD];
  }

  lemma SecondLands(m: Engine.OrderMatch)
    requires m.execution.fills == [Fill(1, 2, 0)] && m.filled == 2 && m.nextStatus == FILLED
    ensures After(At(Engine.Updated(HELD, m), Some(FillInFlight(1, HELD, m)), Between()), Land(Ran))
         == At(Engine.Updated(HELD, m), None, Afterwards())
  {
    hide PersistFill, Between, Afterwards;
    SecondPersists();
    var s := At(Engine.Updated(HELD, m), Some(FillInFlight(1, HELD, m)), Between());
    assert FlightCommand(s) == Fills(Persisting(2, FILLED, 2));
    assert s.orders[1 := Engine.Updated(HELD, m)] == map[1 := Engine.Updated(HELD, m)];
  }

  lemma OversoldRows()
    ensures var end := Afterwards();
            && 1 in end.orders && end.orders[1].status == FILLED && end.orders[1].filled == end.orders[1].quantity == 2
            && FilledBy(end.fills, 1) == 3 && SHARES in end.balances && end.balances[SHARES].total == 0
  {
    assert [Sold(1), Sold(2)][..1] == [Sold(1)] && [Sold(1)][..0] == [];
  }

  /** Two steps after each other. */
  lemma Twice(s: System, first: Step, middle: System, second: Step, end: System)
    requires Enabled(s, first) && After(s, first) == middle && Enabled(middle, second) && After(middle, second) == end
    ensures Possible(s, [first, second]) && RunFrom(s, [first, second]) == end
  {
    hide Enabled, After;
    OneStep(middle, second);
    FirstStep(s, first, [second]);
    assert [first] + [second] == [first, second];
  }

  /**
    From an engine and a sound ledger in agreement: a first fill of one share commits and its result
    is lost, the engine, which holds the order untouched, fills both its shares, and that commits
    too. The ledger has the order FILLED at two, and has sold three shares under it.
   */
  lemma LostCommitOverfills() returns (steps: seq<Step>)
    ensures Inv(Before()) && RowsMatch(Before()) && Agrees(At(HELD, None, Before()))
    ensures Possible(At(HELD, None, Before()), steps)
    ensures var end := RunFrom(At(HELD, None, Before()), steps).ledger;
            && 1 in end.orders && end.orders[1].status == FILLED && end.orders[1].filled == end.orders[1].quantity == 2
            && FilledBy(end.fills, 1) == 3 && SHARES in end.balances && end.balances[SHARES].total == 0
  {
    hide Enabled, After, Before, Between, Afterwards, FilledBy;
    OpeningSound();
    OversoldRows();
    var first := Matched(Before(), 1);
    FirstLands(first);
    var second := Matched(Between(), 2);
    SecondLands(second);
    var s0, s1 := At(HELD, None, Before()),
                  At(Engine.Updated(HELD, first), Some(FillInFlight(1, HELD, first)), Before());
    var s2, s3 := At(HELD, None, Between()),
                  At(Engine.Updated(HELD, second), Some(FillInFlight(1, HELD, second)), Between());
    LandEnabled(s1, Lost);
    LandEnabled(s3, Ran);
    Twice(s0, Match(1, Bid(1)), s1, Land(Lost), s2);
    Twice(s2, Match(1, Bid(2)), s3, Land(Ran), At(Engine.Updated(HELD, second), None, Afterwards()));
    RunConcat(s0, [Match(1, Bid(1)), Land(Lost)], [Match(1, Bid(2)), Land(Ran)]);
    steps := [Match(1, Bid(1)), Land(Lost)] + [Match(1, Bid(2)), Land(Ran)];
    hide Possible, RunFrom;
  }
}
