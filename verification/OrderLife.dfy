/**
  One order in the ledger: its one live reservation, and what leaves both alone. Every transaction
  but a fill or a trigger of the order itself either ends the order or changes neither.
 */
module OrderLife {
  import opened Types
  import opened Arithmetic
  import opened ExactMoney
  import opened Fees
  import opened Execution
  import opened Settlement
  import opened LedgerModel
  import opened LedgerInvariants
  import opened LedgerSteps
  import opened LedgerOco

  /** The order's one live reservation. */
  ghost predicate OnlyHold(t: Tables, id: OrderId, r: ReservationId) {
    && OpenFor(t, OfOrder(id), r)
    && forall k: ReservationId | OpenFor(t, OfOrder(id), k) :: k == r
  }

  /** A live order of no group, the one reservation it has, and the account it takes from. */
  ghost predicate Standing(t: Tables, id: OrderId, r: ReservationId) {
    && id in t.orders && t.orders[id].group.None? && !IsTerminal(t.orders[id].status)
    && t.orders[id].Funding() in t.balances && OnlyHold(t, id, r)
  }

  /** A fill of the order that commits. */
  ghost predicate FillsIt(t: Tables, c: Command, id: OrderId)
    requires ValidCommand(c)
  {
    c.Fills? && c.fill.order == id && Attempt(t, c).Ok?
  }

  /** What the order's reservation holds. */
  ghost function HeldFor(t: Tables, id: OrderId): Money {
    var r := LockReservation(t, OfOrder(id));
    if r.Some? then t.reservations[r.value].amount else 0
  }

  lemma HeldIsTheRow(t: Tables, id: OrderId, r: ReservationId)
    requires OnlyHold(t, id, r)
    ensures LockReservation(t, OfOrder(id)) == Some(r) && HeldFor(t, id) == t.reservations[r].amount
  {
  }

  lemma NothingDesired(order: OrderRow, filledAfter: int, schedule: FeeSchedule)
    requires schedule.Valid()
    ensures RemainingExposure(order, filledAfter, true, schedule) == Ok(None)
  {
  }

  lemma RecordedHold(t: Tables, u: Tables, id: OrderId, r: ReservationId)
    requires OnlyHold(t, id, r) && u.reservations == t.reservations
    ensures OnlyHold(u, id, r)
  {
    assert forall k: ReservationId | OpenFor(u, OfOrder(id), k) :: OpenFor(t, OfOrder(id), k);
  }

  lemma HoldAfter(t: Tables, after: Tables, id: OrderId, r: ReservationId)
    requires OnlyHold(t, id, r) && r in after.reservations && after.reservations.Keys == t.reservations.Keys
    requires after.reservations[r].owner == OfOrder(id) && !after.reservations[r].released
    requires forall k | k in t.reservations && k != r :: after.reservations[k] == t.reservations[k]
    ensures OnlyHold(after, id, r)
  {
    assert forall k: ReservationId | OpenFor(after, OfOrder(id), k) && k != r :: OpenFor(t, OfOrder(id), k);
  }

  // ---- A fill resizes the reservation of a limit order ----

  /** What is left of a limit order can still cost: its shares, or its notional with the fee on that. */
  predicate CoversTheRest(order: OrderRow, left: int, schedule: FeeSchedule, amount: Money)
    requires schedule.Valid() && order.limitPrice.Some?
  {
    var notional := left * order.limitPrice.value;
    if left <= 0 then amount == 0
    else if order.side == SELL then amount == left
    else notional > 0 && amount == notional + FeeOn(schedule, BUY, notional)
  }

  lemma RestIsDesired(order: OrderRow, filledAfter: int, schedule: FeeSchedule)
    requires schedule.Valid() && order.kind == LIMIT && order.limitPrice.Some?
    requires RemainingExposure(order, filledAfter, false, schedule).Ok?
    ensures RemainingExposure(order, filledAfter, false, schedule).value.Some?
    ensures CoversTheRest(order, order.quantity - filledAfter, schedule,
                          RemainingExposure(order, filledAfter, false, schedule).value.value)
  {
    hide Exact, FeeOn, Calculate;
    if order.side == BUY && filledAfter < order.quantity {
      CalculateIsFeeOn(schedule, BUY, order.limitPrice.value, order.quantity - filledAfter);
      Swap(order.quantity - filledAfter, order.limitPrice.value);
    }
  }

  /**
    A committed fill that does not end a limit order leaves it no more reserved than what is left of it
    can still cost, and so nothing when nothing is left, whatever status the writer gave it.
   */
  lemma FillResizes(t: Tables, f: FillCommand, after: Tables, r: ReservationId) returns (cost: Money)
    requires f.schedule.Valid() && PersistFill(t, f) == Ok(after) && f.nextStatus !in {FILLED, CANCELLED}
    requires f.order in t.orders && t.orders[f.order].kind == LIMIT && t.orders[f.order].limitPrice.Some?
    requires t.orders[f.order].group.None? && OnlyHold(t, f.order, r)
    ensures CoversTheRest(t.orders[f.order], t.orders[f.order].quantity - f.filledAfter, f.schedule, cost)
    ensures r in after.reservations && after.reservations[r].amount <= cost
  {
    hide Exact, FeeOn, Settle, GrowPosition, Credit, SumFills, Storable, RowsOf, RemainingExposure, CoversTheRest;
    var order := t.orders[f.order];
    RestIsDesired(order, f.filledAfter, f.schedule);
    var recorded := RecordFills(t, f, order);
    cost := RemainingExposure(order, f.filledAfter, false, f.schedule).value.value;
    RecordedHold(t, recorded, f.order, r);
    var paid, consumed := FillDebits(recorded, f.order, order, f.fills, Some(cost), after);
    HeldIsTheRow(recorded, f.order, r);
    hide LockReservation, PersistFill, SettleFill;
    ResizedToExposure(Request(t.balances[order.Funding()], t.reservations[r].amount, consumed, false, Some(cost)),
                      Shortage(order.Funding()));
  }

  /** The settlement of a fill is a debit of the funding account and a credit that writes no reservation. */
  lemma FillDebits(t: Tables, id: OrderId, order: OrderRow, fills: seq<Fill>, desired: Option<Money>, after: Tables)
    returns (paid: Tables, consumed: Money)
    requires SettleFill(t, id, order, fills, false, desired) == Ok(after)
    ensures order.Funding() in t.balances && Debit(t, id, order, consumed, false, desired) == Ok(paid)
    ensures after.reservations == paid.reservations
  {
    hide Debit, SumFills, QuantityOf;
    consumed := if order.side == BUY then SumFills(fills, 1, 0).value else QuantityOf(fills);
    paid := Debit(t, id, order, consumed, false, desired).value;
  }

  // ---- Everything else leaves the order and its reservation alone ----

  /** The order is done with, or it and its reservation are as they were. */
  ghost predicate LeftAlone(t: Tables, after: Tables, id: OrderId, r: ReservationId)
    requires id in t.orders && r in t.reservations
  {
    && id in after.orders
    && (IsTerminal(after.orders[id].status)
        || (&& after.orders[id] == t.orders[id] && OnlyHold(after, id, r) && after.reservations[r] == t.reservations[r]
            && t.orders[id].Funding() in after.balances))
  }

  /** New rows under other owners, and no change to the row held. */
  lemma OthersRows(t: Tables, after: Tables, id: OrderId, r: ReservationId)
    requires OnlyHold(t, id, r) && r in after.reservations && after.reservations[r] == t.reservations[r]
    requires forall k | k in after.reservations && k != r ::
               OpenFor(after, OfOrder(id), k) ==> k in t.reservations && OpenFor(t, OfOrder(id), k)
    ensures OnlyHold(after, id, r)
  {
  }

  lemma PlacementLeaves(t: Tables, p: PlaceCommand, after: Tables, id: OrderId, r: ReservationId)
    requires Standing(t, id, r) && PlaceFresh(t, p) == Ok(after)
    ensures LeftAlone(t, after, id, r)
  {
    hide PlaceFresh, SameTotals;
    PlaceFrame(t, p, after);
    assert after.balances.Keys == t.balances.Keys by { SameAccounts(t, after); }
    OthersRows(t, after, id, r);
  }

  lemma SameAccounts(t: Tables, after: Tables)
    requires SameTotals(t, after)
    ensures after.balances.Keys == t.balances.Keys
  {
  }

  lemma PairLeaves(t: Tables, p: OcoCommand, after: Tables, id: OrderId, r: ReservationId)
    requires Standing(t, id, r) && PlaceOcoFresh(t, p) == Ok(after)
    ensures LeftAlone(t, after, id, r)
  {
    hide PlaceOcoFresh, SameTotals;
    OcoFrame(t, p, after);
    SameAccounts(t, after);
    OthersRows(t, after, id, r);
  }

  /** A settlement of another order writes another order's row. */
  lemma WroteElsewhere(t: Tables, owner: Owner, w: Option<ReservationId>, released: bool, after: Tables, id: OrderId,
                       r: ReservationId)
    requires OnlyHold(t, id, r) && owner != OfOrder(id) && Wrote(t, owner, w, released, after)
    ensures r in after.reservations && after.reservations[r] == t.reservations[r] && OnlyHold(after, id, r)
  {
    assert w != Some(r);
    OthersRows(t, after, id, r);
  }

  lemma OtherFillLeaves(t: Tables, f: FillCommand, after: Tables, id: OrderId, r: ReservationId)
    requires Standing(t, id, r) && f.order != id && f.schedule.Valid() && PersistFill(t, f) == Ok(after)
    ensures LeftAlone(t, after, id, r)
  {
    hide PersistFill, SettleFill, Storable, RowsOf, Wrote, OnlyHold;
    FillRecords(t, f, after);
    var terminal, desired := FillCommitted(t, f, after);
    var order := t.orders[f.order];
    var recorded := RecordFills(t, f, order);
    SettleFrame(recorded, f.order, order, f.fills, terminal, desired, after);
    var w := SettleWrites(recorded, f.order, order, f.fills, terminal, desired, after);
    RecordedHold(t, recorded, id, r);
    WroteElsewhere(recorded, order.Owner(f.order), w, terminal, after, id, r);
  }

  lemma OtherTriggerLeaves(t: Tables, g: TriggerCommand, after: Tables, id: OrderId, r: ReservationId)
    requires Standing(t, id, r) && g.order != id && g.schedule.Valid() && PersistTrigger(t, g) == Ok(after)
    ensures LeftAlone(t, after, id, r)
  {
    if g.order in t.orders && IsTerminal(t.orders[g.order].status) {
      assert after == t;
    } else {
      hide PersistTrigger, Storable, WinnerSlotFree, Wrote, OnlyHold;
      assert g.order in t.orders by { var _ := TriggerRecords(t, g, after); }
      var fill, w := TriggerWrites(t, g, after);
      TriggerReserves(t, g, after);
      WroteElsewhere(t, t.orders[g.order].Owner(g.order), w, true, after, id, r);
    }
  }

  lemma CancellationLeaves(t: Tables, x: CancelCommand, after: Tables, id: OrderId, r: ReservationId)
    requires Standing(t, id, r) && CancelOrder(t, x) == Ok(after)
    ensures LeftAlone(t, after, id, r)
  {
    if IsTerminal(t.orders[x.order].status) {
      assert after == t;
    } else {
      hide Releasable, GivenBack;
      if x.order != id {
        assert r !in Candidates(t, x.order);
        OthersRows(t, after, id, r);
      }
    }
  }

  /** Every transaction but a fill of the order itself. */
  lemma OthersLeave(t: Tables, c: Command, id: OrderId, r: ReservationId)
    requires ValidCommand(c) && Standing(t, id, r) && !FillsIt(t, c, id) && (c.Triggers? ==> c.trigger.order != id)
    ensures LeftAlone(t, Apply(t, c), id, r)
  {
    hide PersistFill, PersistTrigger, CancelOrder, PlaceFresh, PlaceOcoFresh;
    var a := Attempt(t, c);
    if a.Ok? && a.value != t {
      match c
      case Place(p) => PlacementLeaves(t, p, a.value, id, r);
      case PlaceOco(p) => PairLeaves(t, p, a.value, id, r);
      case Fills(f) => OtherFillLeaves(t, f, a.value, id, r);
      case Triggers(g) => OtherTriggerLeaves(t, g, a.value, id, r);
      case Cancels(x) => CancellationLeaves(t, x, a.value, id, r);
      case Acquires(m) => RecordedHold(t, a.value, id, r);
      case Expires(x) => RecordedHold(t, a.value, id, r);
    }
  }

  lemma TerminalTakesNoFill(t: Tables, c: Command, id: OrderId)
    requires ValidCommand(c) && id in t.orders && IsTerminal(t.orders[id].status)
    ensures !FillsIt(t, c, id)
  {
    if FillsIt(t, c, id) {
      var f := c.fill;
      var after := Attempt(t, c).value;
      hide PersistFill;
      FillRecords(t, f, after);
    }
  }
}
