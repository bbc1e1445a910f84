/** Exactly which placements the ledger takes, and everything one of them writes. */
module LedgerPlacement {
  import opened Types
  import opened Settlement
  import opened LedgerModel
  import opened LedgerInvariants

  /** An account exists, is composed, and has the amount available. */
  predicate HasAvailable(t: Tables, hold: Hold) {
    && hold.account in t.balances && hold.amount >= 0
    && t.balances[hold.account].total == t.balances[hold.account].available + t.balances[hold.account].reserved
    && t.balances[hold.account].reserved >= 0 && hold.amount <= t.balances[hold.account].available
  }

  function Held(b: Balance, amount: Money): Balance {
    Balance(b.total, b.available - amount, b.reserved + amount)
  }

  lemma ReservesExactly(t: Tables, hold: Hold)
    ensures ReserveIn(t, hold).Ok? <==> HasAvailable(t, hold)
    ensures ReserveIn(t, hold).Ok? ==>
              ReserveIn(t, hold).value
              == t.(balances := t.balances[hold.account := Held(t.balances[hold.account], hold.amount)])
  {
  }

  /** What a placement asks to hold. */
  predicate Asks(t: Tables, hold: Option<Hold>) {
    hold.Some? ==> HasAvailable(t, hold.value)
  }

  /** Reserving in one account leaves another as it was. */
  lemma OtherAccount(t: Tables, hold: Hold, other: Hold)
    requires hold.account != other.account && hold.account in t.balances
    ensures HasAvailable(t.(balances := t.balances[hold.account := Held(t.balances[hold.account], hold.amount)]), other)
       <==> HasAvailable(t, other)
  {
  }

  /** The rows a placement needs free and the rows it names. */
  predicate RowsFit(t: Tables, c: PlaceCommand) {
    && c.id !in t.orders && c.order.quantity > 0 && c.siblings <= t.orders.Keys
    && (c.order.group.Some? ==> c.order.group.value in t.groups && t.groups[c.order.group.value].active)
    && (c.reservation.Some? && (c.cash.Some? || c.position.Some?) ==> c.reservation.value !in t.reservations)
  }

  lemma BothReserve(t: Tables, c: PlaceCommand)
    ensures var first := ReserveOptional(t, c.Cash());
            (first.Ok? && ReserveOptional(first.value, c.Shares()).Ok?) <==> Asks(t, c.Cash()) && Asks(t, c.Shares())
  {
    hide ReserveIn, HasAvailable;
    if c.cash.Some? {
      ReservesExactly(t, c.Cash().value);
    }
    if c.position.Some? {
      ReservesExactly(t, c.Shares().value);
    }
    if c.cash.Some? && c.position.Some? && ReserveIn(t, c.Cash().value).Ok? {
      InAccount(t, c.Cash().value);
      OtherAccount(t, c.Cash().value, c.Shares().value);
      ReservesExactly(ReserveIn(t, c.Cash().value).value, c.Shares().value);
    }
  }

  lemma InAccount(t: Tables, hold: Hold)
    requires HasAvailable(t, hold)
    ensures hold.account in t.balances
  {
  }

  /**
    A placement under a key nobody has used takes effect exactly when its session is active, what it
    holds is available in every account it names, and its rows fit: their ids free, its group active,
    its siblings there. It then replies its own response.
   */
  lemma PlacementExactly(t: Tables, c: PlaceCommand)
    requires RequestKey(c.session, c.key) !in t.requests
    ensures CommitTradingMutation(t, c).Ok? <==>
              && c.session in t.sessions && t.sessions[c.session]
              && Asks(t, c.Cash()) && Asks(t, c.Shares()) && RowsFit(t, c)
    ensures CommitTradingMutation(t, c).Ok? ==> CommitTradingMutation(t, c).value.reply == Reply(false, c.response)
  {
    hide ReserveOptional, HasAvailable;
    var t1 := Completed(t, RequestKey(c.session, c.key), c.hash, c.response);
    BothReserve(t1, c);
    SameAsks(t, t1, c.Cash());
    SameAsks(t, t1, c.Shares());
    HoldsPositive(t, c);
    if Asks(t1, c.Cash()) && Asks(t1, c.Shares()) {
      ReserveFrame(t1, c.Cash(), ReserveOptional(t1, c.Cash()).value);
      ReserveFrame(ReserveOptional(t1, c.Cash()).value, c.Shares(),
                   ReserveOptional(ReserveOptional(t1, c.Cash()).value, c.Shares()).value);
    }
  }

  lemma SameAsks(t: Tables, u: Tables, hold: Option<Hold>)
    requires u.balances == t.balances
    ensures Asks(u, hold) <==> Asks(t, hold)
  {
  }

  lemma HoldsPositive(t: Tables, c: PlaceCommand)
    ensures Asks(t, c.Cash()) && c.cash.Some? ==> c.Cash().value.amount >= 0
    ensures Asks(t, c.Shares()) && c.position.Some? ==> c.Shares().value.amount >= 0
  {
  }

  /** The two legs and the reservation of a pair go in exactly when their ids are free and the legs differ. */
  lemma LegsInsert(t: Tables, c: OcoCommand)
    requires c.hold.amount >= 0
    ensures var first := InsertOrder(t, c.first, c.FirstRow());
            var fits := c.first !in t.orders && c.second !in t.orders && c.first != c.second
                        && c.firstLeg.quantity > 0 && c.secondLeg.quantity > 0 && c.reservation !in t.reservations;
            && ((first.Ok? && InsertOrder(first.value, c.second, c.SecondRow()).Ok?
                 && RecordReservation(InsertOrder(first.value, c.second, c.SecondRow()).value, c.reservation,
                                      OfGroup(c.group), c.hold).Ok?) <==> fits)
  {
  }

  /**
    A pair under a key nobody has used takes effect exactly when its session is active, its hold is
    available and the ids of its group, its two different legs and its reservation are free. It then
    writes both legs waiting as given, unfilled, and moves the hold from available to reserved.
   */
  lemma PairExactly(t: Tables, c: OcoCommand)
    requires RequestKey(c.session, c.key) !in t.requests
    ensures CommitOcoPlacement(t, c).Ok? <==>
              && c.session in t.sessions && t.sessions[c.session] && HasAvailable(t, c.hold)
              && c.group !in t.groups && c.first !in t.orders && c.second !in t.orders && c.first != c.second
              && c.firstLeg.quantity > 0 && c.secondLeg.quantity > 0 && c.reservation !in t.reservations
    ensures CommitOcoPlacement(t, c).Ok? ==> PairWritten(t, c, CommitOcoPlacement(t, c).value)
  {
    hide ReserveIn, HasAvailable, InsertOrder, RecordReservation, PairWritten;
    var t1 := Completed(t, RequestKey(c.session, c.key), c.hash, c.response);
    ReservesExactly(t1, c.hold);
    SameHas(t, t1, c.hold);
    if HasAvailable(t, c.hold) {
      AmountFits(t, c.hold);
      var t2 := ReserveIn(t1, c.hold).value;
      LegsInsert(t2.(groups := t2.groups[c.group := GroupRow(c.session, true)]), c);
    }
    if CommitOcoPlacement(t, c).Ok? {
      PairWrites(t, c, CommitOcoPlacement(t, c).value);
    }
  }

  /** What a pair writes: its request, the hold, the group, both legs unfilled, and the reservation. */
  predicate PairWritten(t: Tables, c: OcoCommand, after: Placed) {
    && after.reply == Reply(false, c.response) && c.hold.account in t.balances
    && after.tables ==
         t.(requests := t.requests[RequestKey(c.session, c.key) := RequestRow(c.hash, Some(c.response))],
            balances := t.balances[c.hold.account := Held(t.balances[c.hold.account], c.hold.amount)],
            groups := t.groups[c.group := GroupRow(c.session, true)],
            orders := t.orders[c.first := c.FirstRow().(filled := 0, winner := false)]
                              [c.second := c.SecondRow().(filled := 0, winner := false)],
            reservations := t.reservations[c.reservation :=
              ReservationRow(OfGroup(c.group), c.hold.account, c.hold.amount, false)])
  }

  lemma PairWrites(t: Tables, c: OcoCommand, after: Placed)
    requires RequestKey(c.session, c.key) !in t.requests && CommitOcoPlacement(t, c) == Ok(after)
    ensures PairWritten(t, c, after)
  {
    hide PlaceOcoFresh, SameTotals, HasAvailable;
    OcoFrame(t, c, after.tables);
    PairHolds(t, c, after.tables);
  }

  lemma PairHolds(t: Tables, c: OcoCommand, after: Tables)
    requires PlaceOcoFresh(t, c) == Ok(after)
    ensures c.hold.account in t.balances
    ensures after.balances == t.balances[c.hold.account := Held(t.balances[c.hold.account], c.hold.amount)]
  {
    hide ReserveIn, HasAvailable;
    var t1 := Completed(t, RequestKey(c.session, c.key), c.hash, c.response);
    ReservesExactly(t1, c.hold);
    InAccount(t1, c.hold);
  }

  lemma SameHas(t: Tables, u: Tables, hold: Hold)
    requires u.balances == t.balances
    ensures HasAvailable(u, hold) <==> HasAvailable(t, hold)
  {
  }

  lemma AmountFits(t: Tables, hold: Hold)
    requires HasAvailable(t, hold)
    ensures hold.amount >= 0
  {
  }

  /** What a placement holds in an account. */
  function HeldIn(c: PlaceCommand, a: Account): Money {
    (if c.cash.Some? && c.Cash().value.account == a then c.Cash().value.amount else 0)
    + (if c.position.Some? && c.Shares().value.account == a then c.Shares().value.amount else 0)
  }

  lemma OptionalWrites(t: Tables, hold: Option<Hold>, after: Tables)
    requires ReserveOptional(t, hold) == Ok(after)
    ensures after.balances.Keys == t.balances.Keys && after == t.(balances := after.balances)
    ensures forall a | a in t.balances ::
              after.balances[a] == if hold.Some? && hold.value.account == a then Held(t.balances[a], hold.value.amount)
                                   else t.balances[a]
  {
    hide HasAvailable;
    if hold.Some? {
      ReservesExactly(t, hold.value);
      InAccount(t, hold.value);
    }
    hide ReserveIn;
  }

  lemma PlacementHolds(t: Tables, c: PlaceCommand, after: Tables)
    requires PlaceFresh(t, c) == Ok(after)
    ensures after.balances.Keys == t.balances.Keys
    ensures forall a | a in t.balances :: after.balances[a] == Held(t.balances[a], HeldIn(c, a))
  {
    hide ReserveOptional, RecordHold;
    var t1 := Completed(t, RequestKey(c.session, c.key), c.hash, c.response);
    var t2 := ReserveOptional(t1, c.Cash()).value;
    var t3 := ReserveOptional(t2, c.Shares()).value;
    OptionalWrites(t1, c.Cash(), t2);
    OptionalWrites(t2, c.Shares(), t3);
    var t4 := InsertOrder(t3, c.id, c.Row()).value;
    PlaceRecords(t4, c, RecordHold(t4, c).value);
  }

  /** What a placement writes: its request, its order unfilled, what it holds, and the reservation of that. */
  lemma PlacementWrites(t: Tables, c: PlaceCommand, after: Placed)
    requires RequestKey(c.session, c.key) !in t.requests && CommitTradingMutation(t, c) == Ok(after)
    ensures after.tables ==
              t.(requests := t.requests[RequestKey(c.session, c.key) := RequestRow(c.hash, Some(c.response))],
                 balances := after.tables.balances,
                 orders := t.orders[c.id := c.order.(session := c.session, filled := 0, winner := false)],
                 reservations := after.tables.reservations)
    ensures after.tables.balances.Keys == t.balances.Keys
    ensures forall a | a in t.balances :: after.tables.balances[a] == Held(t.balances[a], HeldIn(c, a))
    ensures after.tables.reservations ==
              if c.reservation.None? then t.reservations
              else if c.cash.Some? then
                t.reservations[c.reservation.value :=
                  ReservationRow(OfOrder(c.id), Wallet(c.session, c.cash.value.currency), c.cash.value.amount, false)]
              else if c.position.Some? then
                t.reservations[c.reservation.value :=
                  ReservationRow(OfOrder(c.id), Position(c.session, c.position.value.market, c.position.value.symbol),
                                 c.position.value.quantity, false)]
              else t.reservations
  {
    hide PlaceFresh, SameTotals, HeldIn, Held;
    PlaceFrame(t, c, after.tables);
    PlacementHolds(t, c, after.tables);
  }
}
