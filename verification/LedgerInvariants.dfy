/** The invariant every transaction of the ledger keeps, and its proof over all runs. */
module LedgerInvariants {
  import opened Types
  import opened Settlement
  import opened LedgerModel

  // ---- The invariant ----

  function ReservedIn(t: Tables, account: Account): Money {
    if account in t.balances then t.balances[account].reserved else 0
  }

  /** Every balance is well formed, and reserves exactly the sum of its unreleased reservations. */
  ghost predicate Books(t: Tables) {
    && (forall a | a in t.balances :: WellFormed(t.balances[a]))
    && (forall a: Account :: ReservedIn(t, a) == SumOpen(t.reservations, a))
  }

  ghost predicate OrdersSound(t: Tables) {
    forall id | id in t.orders ::
      t.orders[id].quantity > 0 && 0 <= t.orders[id].filled <= t.orders[id].quantity
  }

  /** A live reservation is of a non-negative amount, on an account that exists. */
  ghost predicate Backing(t: Tables) {
    forall r | r in t.reservations && !t.reservations[r].released ::
      t.reservations[r].amount >= 0 && t.reservations[r].account in t.balances
  }

  /** A live reservation holds the account its order, or every leg of its group, takes from. */
  ghost predicate Coherent(t: Tables) {
    forall r | r in t.reservations && !t.reservations[r].released :: CoherentRow(t, t.reservations[r])
  }

  ghost predicate CoherentRow(t: Tables, row: ReservationRow) {
    match row.owner
    case OfOrder(o) => o in t.orders && row.account == t.orders[o].Funding()
    case OfGroup(g) =>
      g in t.groups &&
      forall o | o in t.orders && t.orders[o].group == Some(g) :: row.account == t.orders[o].Funding()
  }

  /** No request is left in progress: a key is claimed and completed in one transaction. */
  ghost predicate RequestsCompleted(t: Tables) {
    forall k | k in t.requests :: t.requests[k].completed.Some?
  }

  /** Every leg names a group that exists. */
  ghost predicate GroupsKnown(t: Tables) {
    forall o | o in t.orders && t.orders[o].group.Some? :: t.orders[o].group.value in t.groups
  }

  ghost predicate Inv(t: Tables) {
    Books(t) && OrdersSound(t) && Backing(t) && Coherent(t) && GroupsKnown(t) && RequestsCompleted(t)
  }

  /** `verifyLedgerInvariants`: its four counts, as what they count. */
  datatype InvariantCounts = InvariantCounts(
    balances: set<Account>,
    orders: set<OrderId>,
    reservations: set<Account>
  )

  ghost function VerifyLedger(t: Tables): InvariantCounts {
    InvariantCounts(
      set a | a in t.balances &&
              (t.balances[a].total < 0 || t.balances[a].available < 0 || t.balances[a].reserved < 0
               || t.balances[a].total != t.balances[a].available + t.balances[a].reserved) :: a,
      set id | id in t.orders &&
               (|| t.orders[id].quantity <= 0 || t.orders[id].filled < 0
                || t.orders[id].filled > t.orders[id].quantity) :: id,
      set a | a in t.balances && t.balances[a].reserved != SumOpen(t.reservations, a) :: a
    )
  }

  // ---- Sums over reservation rows ----

  lemma {:induction false} SumRemove(rows: map<ReservationId, ReservationRow>, account: Account, id: ReservationId)
    requires id in rows
    ensures SumOpen(rows, account) == Contribution(rows[id], account) + SumOpen(rows - {id}, account)
    decreases |rows|
  {
    var first :| first in rows &&
      SumOpen(rows, account) == Contribution(rows[first], account) + SumOpen(rows - {first}, account);
    if first != id {
      SumRemove(rows - {first}, account, id);
      SumRemove(rows - {id}, account, first);
      assert rows - {first} - {id} == rows - {id} - {first};
    }
  }

  lemma SumInsert(rows: map<ReservationId, ReservationRow>, account: Account, id: ReservationId, row: ReservationRow)
    ensures SumOpen(rows[id := row], account) == SumOpen(rows - {id}, account) + Contribution(row, account)
  {
    var written := rows[id := row];
    assert written - {id} == rows - {id};
    SumRemove(written, account, id);
    assert written[id] == row;
  }

  /** Writing a row moves the sum by the difference of what the two rows contribute. */
  lemma SumUpdate(rows: map<ReservationId, ReservationRow>, account: Account, id: ReservationId, row: ReservationRow)
    ensures SumOpen(rows[id := row], account)
         == SumOpen(rows, account) + Contribution(row, account)
            - (if id in rows then Contribution(rows[id], account) else 0)
  {
    SumInsert(rows, account, id, row);
    if id in rows {
      SumRemove(rows, account, id);
    } else {
      assert rows - {id} == rows;
    }
  }

  ghost predicate RowsSound(rows: map<ReservationId, ReservationRow>) {
    forall r | r in rows && !rows[r].released :: rows[r].amount >= 0
  }

  lemma {:induction false} SumNonNegative(rows: map<ReservationId, ReservationRow>, account: Account)
    requires RowsSound(rows)
    ensures SumOpen(rows, account) >= 0
    decreases |rows|
  {
    if rows != map[] {
      var id :| id in rows;
      SumRemove(rows, account, id);
      SumNonNegative(rows - {id}, account);
    }
  }

  /** A balance holds at least what any of its reservations does. */
  lemma RowWithinSum(rows: map<ReservationId, ReservationRow>, account: Account, id: ReservationId)
    requires RowsSound(rows) && id in rows
    ensures Contribution(rows[id], account) <= SumOpen(rows, account)
  {
    SumRemove(rows, account, id);
    SumNonNegative(rows - {id}, account);
  }

  lemma RetiredWithout(rows: map<ReservationId, ReservationRow>, ids: set<ReservationId>, id: ReservationId)
    requires id in rows
    ensures Retired(rows, ids) - {id} == Retired(rows - {id}, ids)
    ensures Chosen(rows, ids) - {id} == Chosen(rows - {id}, ids)
    ensures id !in ids ==> Chosen(rows, ids) == Chosen(rows - {id}, ids)
  {
  }

  /** Retiring some rows takes exactly their sum out of the whole. */
  lemma {:induction false} SumSplit(rows: map<ReservationId, ReservationRow>, account: Account, ids: set<ReservationId>)
    ensures SumOpen(rows, account) == SumOpen(Chosen(rows, ids), account) + SumOpen(Retired(rows, ids), account)
    decreases |rows|
  {
    if rows == map[] {
      assert Chosen(rows, ids) == map[] && Retired(rows, ids) == map[];
    } else {
      var id :| id in rows;
      RetiredWithout(rows, ids, id);
      SumSplit(rows - {id}, account, ids);
      SumRemove(rows, account, id);
      SumRemove(Retired(rows, ids), account, id);
      if id in ids {
        SumRemove(Chosen(rows, ids), account, id);
      }
      hide SumOpen;
    }
  }

  // ---- Placement ----

  /** The hold recorded with a placement, if any. */
  function Recorded(c: PlaceCommand): Option<Hold> {
    if c.reservation.None? then None else if c.cash.Some? then c.Cash() else c.Shares()
  }

  /**
    What a caller has to get right: everything reserved is recorded, on the account the order
    takes from, and a group the order joins shares that account.
   */
  ghost predicate PlacementCoherent(t: Tables, c: PlaceCommand) {
    && (c.cash.Some? && c.cash.value.amount != 0 ==> Recorded(c) == c.Cash())
    && (c.position.Some? && c.position.value.quantity != 0 ==> Recorded(c) == c.Shares())
    && (Recorded(c).Some? ==> Recorded(c).value.account == c.Row().Funding())
    && (c.order.group.Some? ==>
          forall r | r in t.reservations && !t.reservations[r].released
                     && t.reservations[r].owner == OfGroup(c.order.group.value) ::
            t.reservations[r].account == c.Row().Funding())
  }

  /** What a hold adds to the reserved balance of an account. */
  function HoldAt(hold: Option<Hold>, account: Account): Money {
    if hold.Some? && hold.value.account == account then hold.value.amount else 0
  }

  lemma ReserveMovesReserved(t: Tables, hold: Option<Hold>, after: Tables)
    requires ReserveOptional(t, hold) == Ok(after)
    requires forall a | a in t.balances :: WellFormed(t.balances[a])
    ensures hold.Some? ==> hold.value.amount >= 0 && hold.value.account in t.balances
    ensures forall a | a in after.balances :: WellFormed(after.balances[a])
    ensures after.balances.Keys == t.balances.Keys
    ensures forall a :: ReservedIn(after, a) == ReservedIn(t, a) + HoldAt(hold, a)
    ensures after == t.(balances := after.balances)
  {
  }

  /** Balances of the same accounts, with the same totals. */
  ghost predicate SameTotals(t: Tables, after: Tables) {
    && after.balances.Keys == t.balances.Keys
    && forall a | a in t.balances :: after.balances[a].total == t.balances[a].total
  }

  lemma ReserveFrame(t: Tables, hold: Option<Hold>, after: Tables)
    requires ReserveOptional(t, hold) == Ok(after)
    ensures after == t.(balances := after.balances) && SameTotals(t, after)
  {
  }

  /** What a fresh placement can touch at all. */
  lemma PlaceFrame(t: Tables, c: PlaceCommand, after: Tables)
    requires PlaceFresh(t, c) == Ok(after)
    ensures c.id !in t.orders && SameTotals(t, after)
    ensures after == t.(requests := t.requests[RequestKey(c.session, c.key) := RequestRow(c.hash, Some(c.response))],
                        balances := after.balances,
                        orders := t.orders[c.id := c.Row().(filled := 0, winner := false)],
                        reservations := after.reservations)
    ensures Recorded(c).Some? ==>
              && c.reservation.value !in t.reservations
              && after.reservations == t.reservations[c.reservation.value :=
                   ReservationRow(OfOrder(c.id), Recorded(c).value.account, Recorded(c).value.amount, false)]
    ensures Recorded(c).None? ==> after.reservations == t.reservations
  {
    hide ReserveOptional, RecordHold;
    var t1 := Completed(t, RequestKey(c.session, c.key), c.hash, c.response);
    var t2 := ReserveOptional(t1, c.Cash()).value;
    var t3 := ReserveOptional(t2, c.Shares()).value;
    ReserveFrame(t1, c.Cash(), t2);
    ReserveFrame(t2, c.Shares(), t3);
    var t4 := InsertOrder(t3, c.id, c.Row()).value;
    PlaceRecords(t4, c, RecordHold(t4, c).value);
  }

  /** The tables a fresh placement leaves behind. */
  lemma PlaceFreshShape(t: Tables, c: PlaceCommand, after: Tables)
    requires Books(t) && PlaceFresh(t, c) == Ok(after)
    ensures c.id !in t.orders && c.order.quantity > 0
    ensures after.orders == t.orders[c.id := c.Row().(filled := 0, winner := false)]
    ensures after.balances.Keys == t.balances.Keys
    ensures forall a | a in after.balances :: WellFormed(after.balances[a])
    ensures forall a :: ReservedIn(after, a) == ReservedIn(t, a) + HoldAt(c.Cash(), a) + HoldAt(c.Shares(), a)
    ensures Recorded(c).Some? ==>
              && c.reservation.value !in t.reservations
              && Recorded(c).value.amount >= 0 && Recorded(c).value.account in t.balances
              && after.reservations == t.reservations[c.reservation.value :=
                   ReservationRow(OfOrder(c.id), Recorded(c).value.account, Recorded(c).value.amount, false)]
    ensures Recorded(c).None? ==> after.reservations == t.reservations
    ensures after.requests == t.requests[RequestKey(c.session, c.key) := RequestRow(c.hash, Some(c.response))]
    ensures after.groups == t.groups && after.fills == t.fills && after.epochs == t.epochs
            && after.sessions == t.sessions && after.averages == t.averages
    ensures c.order.group.Some? ==> c.order.group.value in t.groups
  {
    hide SumOpen, WellFormed;
    PlaceFrame(t, c, after);
    PlaceBalances(t, c, after);
    hide ReserveOptional, RecordHold, SameTotals, HoldAt, Recorded;
  }

  lemma PlaceBalances(t: Tables, c: PlaceCommand, after: Tables)
    requires PlaceFresh(t, c) == Ok(after) && forall a | a in t.balances :: WellFormed(t.balances[a])
    ensures forall a | a in after.balances :: WellFormed(after.balances[a])
    ensures forall a :: ReservedIn(after, a) == ReservedIn(t, a) + HoldAt(c.Cash(), a) + HoldAt(c.Shares(), a)
    ensures Recorded(c).Some? ==> Recorded(c).value.amount >= 0 && Recorded(c).value.account in t.balances
  {
    hide WellFormed, ReserveOptional, RecordHold;
    var t1 := Completed(t, RequestKey(c.session, c.key), c.hash, c.response);
    var t2 := ReserveOptional(t1, c.Cash()).value;
    var t3 := ReserveOptional(t2, c.Shares()).value;
    ReserveMovesReserved(t1, c.Cash(), t2);
    ReserveMovesReserved(t2, c.Shares(), t3);
    var t4 := InsertOrder(t3, c.id, c.Row()).value;
    PlaceRecords(t4, c, RecordHold(t4, c).value);
  }

  lemma PlaceRecords(t: Tables, c: PlaceCommand, after: Tables)
    requires RecordHold(t, c) == Ok(after)
    ensures Recorded(c).Some? ==>
              && c.reservation.value !in t.reservations
              && after.reservations == t.reservations[c.reservation.value :=
                   ReservationRow(OfOrder(c.id), Recorded(c).value.account, Recorded(c).value.amount, false)]
    ensures Recorded(c).None? ==> after.reservations == t.reservations
    ensures after == t.(reservations := after.reservations)
  {
    if Recorded(c).Some? {
      assert RecordHold(t, c) == RecordReservation(t, c.reservation.value, OfOrder(c.id), Recorded(c).value);
    } else {
      assert RecordHold(t, c) == Ok(t);
    }
  }

  lemma RecordedSum(t: Tables, c: PlaceCommand, after: Tables, account: Account)
    requires Books(t) && PlaceFresh(t, c) == Ok(after)
    ensures SumOpen(after.reservations, account) == SumOpen(t.reservations, account) + HoldAt(Recorded(c), account)
  {
    PlaceFreshShape(t, c, after);
    if Recorded(c).Some? {
      SumUpdate(t.reservations, account, c.reservation.value,
                ReservationRow(OfOrder(c.id), Recorded(c).value.account, Recorded(c).value.amount, false));
    }
  }

  lemma CoherentPlacementBooks(t: Tables, c: PlaceCommand, after: Tables)
    requires Inv(t) && PlaceFresh(t, c) == Ok(after) && PlacementCoherent(t, c)
    ensures Books(after)
  {
    hide PlaceFresh, SumOpen, WellFormed;
    PlaceFreshShape(t, c, after);
    forall a: Account ensures ReservedIn(after, a) == SumOpen(after.reservations, a) {
      RecordedSum(t, c, after, a);
      assert HoldAt(c.Cash(), a) + HoldAt(c.Shares(), a) == HoldAt(Recorded(c), a);
      hide PlacementCoherent;
    }
  }

  lemma CoherentPlacementCoheres(t: Tables, c: PlaceCommand, after: Tables)
    requires Inv(t) && PlaceFresh(t, c) == Ok(after) && PlacementCoherent(t, c)
    ensures Coherent(after)
  {
    hide PlaceFresh, Books, Backing, OrdersSound, WellFormed, SumOpen;
    PlaceFreshShape(t, c, after);
    forall r | r in after.reservations && !after.reservations[r].released
      ensures CoherentRow(after, after.reservations[r])
    {
      if r in t.reservations && after.reservations[r] == t.reservations[r] {
        assert CoherentRow(t, t.reservations[r]);
      }
    }
  }

  lemma CoherentPlacementKeeps(t: Tables, c: PlaceCommand, after: Tables)
    requires Inv(t) && PlaceFresh(t, c) == Ok(after) && PlacementCoherent(t, c)
    ensures Inv(after)
  {
    hide PlaceFresh, Books, Coherent, PlacementCoherent, WellFormed, SumOpen;
    CoherentPlacementBooks(t, c, after);
    CoherentPlacementCoheres(t, c, after);
    PlaceFreshShape(t, c, after);
  }

  lemma UnrecordedBreaks(t: Tables, c: PlaceCommand, after: Tables, hold: Hold)
    requires Inv(t) && PlaceFresh(t, c) == Ok(after)
    requires Some(hold) in {c.Cash(), c.Shares()} && hold.amount != 0 && Recorded(c) != Some(hold)
    ensures !Books(after)
  {
    PlaceFreshShape(t, c, after);
    RecordedSum(t, c, after, hold.account);
    hide PlaceFresh, SumOpen;
    assert ReservedIn(after, hold.account) != SumOpen(after.reservations, hold.account);
  }

  lemma MismatchedBreaks(t: Tables, c: PlaceCommand, after: Tables, r: ReservationId)
    requires Inv(t) && PlaceFresh(t, c) == Ok(after)
    requires || (Recorded(c).Some? && Recorded(c).value.account != c.Row().Funding() && c.reservation == Some(r))
             || (c.order.group.Some? && r in t.reservations && !t.reservations[r].released
                 && t.reservations[r].owner == OfGroup(c.order.group.value)
                 && t.reservations[r].account != c.Row().Funding())
    ensures !Coherent(after)
  {
    PlaceFreshShape(t, c, after);
    hide PlaceFresh, Books;
    assert after.orders[c.id].group == c.order.group && after.orders[c.id].Funding() == c.Row().Funding();
    assert !CoherentRow(after, after.reservations[r]);
  }

  lemma IncoherentPlacementBreaks(t: Tables, c: PlaceCommand, after: Tables)
    requires Inv(t) && PlaceFresh(t, c) == Ok(after) && !PlacementCoherent(t, c)
    ensures !Inv(after)
  {
    hide PlaceFresh, Books, Coherent, Recorded;
    if c.cash.Some? && c.cash.value.amount != 0 && Recorded(c) != c.Cash() {
      UnrecordedBreaks(t, c, after, c.Cash().value);
    } else if c.position.Some? && c.position.value.quantity != 0 && Recorded(c) != c.Shares() {
      UnrecordedBreaks(t, c, after, c.Shares().value);
    } else if Recorded(c).Some? && Recorded(c).value.account != c.Row().Funding() {
      assert c.reservation.Some? by { RecordedHasId(c); }
      MismatchedBreaks(t, c, after, c.reservation.value);
    } else {
      var r :| r in t.reservations && !t.reservations[r].released
               && t.reservations[r].owner == OfGroup(c.order.group.value)
               && t.reservations[r].account != c.Row().Funding();
      MismatchedBreaks(t, c, after, r);
    }
  }

  lemma RecordedHasId(c: PlaceCommand)
    requires Recorded(c).Some?
    ensures c.reservation.Some?
  {
  }

  /**
    A committed placement keeps the ledger invariant exactly when it is coherent: everything
    reserved recorded, on the account the order takes from.
   */
  lemma PlacementKeepsExactlyWhenCoherent(t: Tables, c: PlaceCommand, after: Tables)
    requires Inv(t) && PlaceFresh(t, c) == Ok(after)
    ensures Inv(after) <==> PlacementCoherent(t, c)
  {
    if PlacementCoherent(t, c) {
      CoherentPlacementKeeps(t, c, after);
    } else {
      IncoherentPlacementBreaks(t, c, after);
    }
  }

  // ---- OCO placement ----

  /** Both legs take from the account the shared reservation holds. */
  predicate OcoCoherent(c: OcoCommand) {
    c.hold.account == c.FirstRow().Funding() == c.SecondRow().Funding()
  }

  /** What a fresh OCO placement can touch at all. */
  lemma OcoFrame(t: Tables, c: OcoCommand, after: Tables)
    requires PlaceOcoFresh(t, c) == Ok(after)
    ensures c.first !in t.orders && c.second !in t.orders && SameTotals(t, after)
    ensures c.first != c.second && c.firstLeg.quantity > 0 && c.secondLeg.quantity > 0
    ensures after == t.(requests := t.requests[RequestKey(c.session, c.key) := RequestRow(c.hash, Some(c.response))],
                        balances := after.balances,
                        groups := t.groups[c.group := GroupRow(c.session, true)],
                        orders := t.orders[c.first := c.FirstRow().(filled := 0, winner := false)]
                                          [c.second := c.SecondRow().(filled := 0, winner := false)],
                        reservations := t.reservations[c.reservation :=
                          ReservationRow(OfGroup(c.group), c.hold.account, c.hold.amount, false)])
    ensures c.group !in t.groups && c.reservation !in t.reservations
  {
    hide ReserveIn, InsertOrder, RecordReservation;
    var t1 := Completed(t, RequestKey(c.session, c.key), c.hash, c.response);
    var t2 := ReserveIn(t1, c.hold).value;
    assert ReserveOptional(t1, Some(c.hold)) == Ok(t2);
    ReserveFrame(t1, Some(c.hold), t2);
    var t3 := t2.(groups := t2.groups[c.group := GroupRow(c.session, true)]);
    var t4 := InsertOrder(t3, c.first, c.FirstRow()).value;
    var t5 := InsertOrder(t4, c.second, c.SecondRow()).value;
    InsertFrame(t3, c.first, c.FirstRow(), t4);
    InsertFrame(t4, c.second, c.SecondRow(), t5);
    var t6 := RecordReservation(t5, c.reservation, OfGroup(c.group), c.hold).value;
    RecordFrame(t5, c.reservation, OfGroup(c.group), c.hold, t6);
    hide ReserveOptional;
  }

  lemma RecordFrame(t: Tables, id: ReservationId, owner: Owner, hold: Hold, after: Tables)
    requires RecordReservation(t, id, owner, hold) == Ok(after)
    ensures id !in t.reservations
    ensures after == t.(reservations := t.reservations[id := ReservationRow(owner, hold.account, hold.amount, false)])
  {
  }

  lemma InsertFrame(t: Tables, id: OrderId, order: OrderRow, after: Tables)
    requires InsertOrder(t, id, order) == Ok(after)
    ensures id !in t.orders && order.quantity > 0
    ensures after == t.(orders := t.orders[id := order.(filled := 0, winner := false)])
  {
  }

  lemma PlaceOcoShape(t: Tables, c: OcoCommand, after: Tables)
    requires Books(t) && PlaceOcoFresh(t, c) == Ok(after)
    ensures c.first != c.second && c.first !in t.orders && c.second !in t.orders && c.group !in t.groups
    ensures c.firstLeg.quantity > 0 && c.secondLeg.quantity > 0
    ensures after.orders == t.orders[c.first := c.FirstRow().(filled := 0, winner := false)]
                                    [c.second := c.SecondRow().(filled := 0, winner := false)]
    ensures after.groups == t.groups[c.group := GroupRow(c.session, true)]
    ensures after.balances.Keys == t.balances.Keys && c.hold.account in t.balances && c.hold.amount >= 0
    ensures forall a | a in after.balances :: WellFormed(after.balances[a])
    ensures forall a :: ReservedIn(after, a) == ReservedIn(t, a) + HoldAt(Some(c.hold), a)
    ensures c.reservation !in t.reservations
    ensures after.reservations == t.reservations[c.reservation :=
              ReservationRow(OfGroup(c.group), c.hold.account, c.hold.amount, false)]
    ensures after.requests == t.requests[RequestKey(c.session, c.key) := RequestRow(c.hash, Some(c.response))]
    ensures after.fills == t.fills && after.epochs == t.epochs && after.sessions == t.sessions
            && after.averages == t.averages
  {
    hide SumOpen, WellFormed, PlaceOcoFresh;
    OcoFrame(t, c, after);
    OcoBalances(t, c, after);
    hide ReserveIn;
  }

  lemma OcoBalances(t: Tables, c: OcoCommand, after: Tables)
    requires PlaceOcoFresh(t, c) == Ok(after) && forall a | a in t.balances :: WellFormed(t.balances[a])
    ensures c.hold.account in t.balances && c.hold.amount >= 0
    ensures forall a | a in after.balances :: WellFormed(after.balances[a])
    ensures forall a :: ReservedIn(after, a) == ReservedIn(t, a) + HoldAt(Some(c.hold), a)
  {
    hide WellFormed, ReserveIn;
    var t1 := Completed(t, RequestKey(c.session, c.key), c.hash, c.response);
    var t2 := ReserveIn(t1, c.hold).value;
    assert ReserveOptional(t1, Some(c.hold)) == Ok(t2);
    ReserveMovesReserved(t1, Some(c.hold), t2);
    hide ReserveOptional;
  }

  lemma OcoBooks(t: Tables, c: OcoCommand, after: Tables)
    requires Inv(t) && PlaceOcoFresh(t, c) == Ok(after)
    ensures Books(after)
  {
    PlaceOcoShape(t, c, after);
    hide PlaceOcoFresh, SumOpen, WellFormed;
    var row := ReservationRow(OfGroup(c.group), c.hold.account, c.hold.amount, false);
    forall a: Account ensures ReservedIn(after, a) == SumOpen(after.reservations, a) {
      SumUpdate(t.reservations, a, c.reservation, row);
    }
  }

  lemma OcoCoherence(t: Tables, c: OcoCommand, after: Tables)
    requires Inv(t) && PlaceOcoFresh(t, c) == Ok(after)
    ensures Coherent(after) <==> OcoCoherent(c)
  {
    hide PlaceOcoFresh, Books, WellFormed, SumOpen, Backing, OrdersSound;
    PlaceOcoShape(t, c, after);
    assert after.orders[c.first].group == Some(c.group) && after.orders[c.second].group == Some(c.group);
    if OcoCoherent(c) {
      forall r | r in after.reservations && !after.reservations[r].released
        ensures CoherentRow(after, after.reservations[r])
      {
        if r != c.reservation {
          assert CoherentRow(t, t.reservations[r]);
        }
      }
    } else {
      assert !CoherentRow(after, after.reservations[c.reservation]);
    }
  }

  /** A committed OCO placement keeps the invariant exactly when both legs take from the reserved account. */
  lemma OcoKeepsExactlyWhenCoherent(t: Tables, c: OcoCommand, after: Tables)
    requires Inv(t) && PlaceOcoFresh(t, c) == Ok(after)
    ensures Inv(after) <==> OcoCoherent(c)
  {
    hide PlaceOcoFresh, Books, Coherent, OcoCoherent, WellFormed, SumOpen;
    OcoBooks(t, c, after);
    OcoCoherence(t, c, after);
    PlaceOcoShape(t, c, after);
  }
}
