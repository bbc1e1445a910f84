/**
  The life of a LIMIT SELL in the ledger: its reservation is, at every moment, the shares it has still
  to sell, so its fills take nothing from what the position has available.
 */
module LimitSellLedger {
  import opened Types
  import opened ExactMoney
  import opened Fees
  import opened Execution
  import opened Settlement
  import opened LedgerModel
  import opened LedgerSteps
  import opened LedgerRuns
  import opened OrderLife

  /** A live limit sale whose one reservation holds exactly the shares it has still to sell. */
  ghost predicate Selling(t: Tables, id: OrderId, r: ReservationId) {
    && Standing(t, id, r) && t.orders[id].side == SELL && t.orders[id].kind == LIMIT
    && t.orders[id].limitPrice.Some? && 0 <= t.orders[id].filled < t.orders[id].quantity
    && t.reservations[r].amount == t.orders[id].quantity - t.orders[id].filled
  }

  /** Fills of the order are what the engine writes: the quantity added up, ended only when it is all sold. */
  ghost predicate Written(t: Tables, c: Command, id: OrderId) {
    match c
    case Fills(f) =>
      f.order == id && id in t.orders ==>
        && f.filledAfter == t.orders[id].filled + QuantityOf(f.fills)
        && (f.nextStatus in {FILLED, CANCELLED} <==> f.filledAfter == t.orders[id].quantity)
        && (IsTerminal(f.nextStatus) ==> f.nextStatus in {FILLED, CANCELLED})
    case Triggers(g) => g.order != id
    case _ => true
  }

  ghost predicate WrittenRun(t: Tables, cs: seq<Command>, id: OrderId)
    requires ValidCommands(cs)
    decreases |cs|
  {
    cs != [] ==>
      assert ValidCommand(cs[0]);
      Written(t, cs[0], id) && WrittenRun(Apply(t, cs[0]), cs[1..], id)
  }

  /** What the position of the order has available. */
  function AvailableFor(t: Tables, order: OrderRow): Money {
    if order.Funding() in t.balances then t.balances[order.Funding()].available else 0
  }

  /** No committed fill of the order in the run changes what its position has available. */
  ghost predicate FillsLeaveAvailable(t: Tables, cs: seq<Command>, id: OrderId)
    requires ValidCommands(cs)
    decreases |cs|
  {
    cs != [] ==>
      assert ValidCommand(cs[0]);
      var next := Apply(t, cs[0]);
      && (id in t.orders && FillsIt(t, cs[0], id) ==> AvailableFor(next, t.orders[id]) == AvailableFor(t, t.orders[id]))
      && FillsLeaveAvailable(next, cs[1..], id)
  }

  // ---- One fill ----

  /** A sale out of a reservation that holds all of it, kept at what is left of it. */
  lemma SoldFromHold(q: Settlement.Request, shortage: ErrorCode)
    requires Settle(q, shortage).Ok? && 0 <= q.consumed <= q.remaining
    requires if q.consumed == q.remaining then q.terminal
             else !q.terminal && q.desired == Some(q.remaining - q.consumed)
    ensures var plan := Settle(q, shortage).value;
            && plan.balance.available == q.balance.available && plan.balance.total == q.balance.total - q.consumed
            && plan.remaining == q.remaining - q.consumed && plan.released == q.terminal
  {
    hide Exact;
  }

  lemma StillToSell(order: OrderRow, filledAfter: int, schedule: FeeSchedule)
    requires schedule.Valid() && order.side == SELL && order.kind == LIMIT && order.limitPrice.Some?
    requires filledAfter < order.quantity && RemainingExposure(order, filledAfter, false, schedule).Ok?
    ensures RemainingExposure(order, filledAfter, false, schedule).value == Some(order.quantity - filledAfter)
  {
    hide Exact, Calculate;
  }

  lemma {:induction false} SoldNonNegative(fills: seq<Fill>)
    requires Storable(fills)
    ensures QuantityOf(fills) >= 0
  {
    if fills != [] {
      SoldNonNegative(fills[..|fills| - 1]);
    }
  }

  lemma DebitSells(t: Tables, id: OrderId, order: OrderRow, r: ReservationId, sold: int, terminal: bool,
                   desired: Option<Money>, after: Tables)
    requires order.Funding() in t.balances && order.side == SELL && order.group.None? && OnlyHold(t, id, r)
    requires Debit(t, id, order, sold, terminal, desired) == Ok(after)
    requires 0 <= sold <= t.reservations[r].amount
    requires if sold == t.reservations[r].amount then terminal
             else !terminal && desired == Some(t.reservations[r].amount - sold)
    ensures AvailableFor(after, order) == AvailableFor(t, order) && order.Funding() in after.balances
    ensures after.reservations
         == t.reservations[r := t.reservations[r].(amount := t.reservations[r].amount - sold, released := terminal)]
  {
    hide Settle, LockReservation;
    HeldIsTheRow(t, id, r);
    SoldFromHold(Request(t.balances[order.Funding()], t.reservations[r].amount, sold, terminal, desired),
                 Shortage(order.Funding()));
  }

  /** A committed fill of the order: it is over, or what it has still to sell is what is still reserved. */
  lemma FillSells(t: Tables, f: FillCommand, after: Tables, r: ReservationId)
    requires f.schedule.Valid() && Selling(t, f.order, r) && Written(t, Fills(f), f.order)
    requires PersistFill(t, f) == Ok(after)
    ensures f.order in after.orders && (IsTerminal(after.orders[f.order].status) || Selling(after, f.order, r))
    ensures AvailableFor(after, t.orders[f.order]) == AvailableFor(t, t.orders[f.order])
  {
    hide Debit, Exact, RowsOf, SumFills, RemainingExposure, Credit, OnlyHold;
    FillRecords(t, f, after);
    var id, order := f.order, t.orders[f.order];
    SoldNonNegative(f.fills);
    hide Storable;
    var terminal := f.nextStatus == FILLED || f.nextStatus == CANCELLED;
    var desired := RemainingExposure(order, f.filledAfter, terminal, f.schedule).value;
    if !terminal {
      StillToSell(order, f.filledAfter, f.schedule);
    }
    var recorded := RecordFills(t, f, order);
    RecordedHold(t, recorded, id, r);
    var paid := Debit(recorded, id, order, QuantityOf(f.fills), terminal, desired).value;
    DebitSells(recorded, id, order, r, QuantityOf(f.fills), terminal, desired, paid);
    var proceeds := SumFills(f.fills, -1, 0).value;
    assert Credit(paid, order.Receiving(), proceeds) == Ok(after);
    CreditLeaves(paid, order.Receiving(), proceeds, after, order);
    hide PersistFill;
    if !terminal {
      assert r in t.reservations by { HeldIsTheRow(t, id, r); LockIsOpen(t, OfOrder(id)); }
      KeptHold(recorded, after, id, r);
    }
  }

  lemma CreditLeaves(t: Tables, account: Account, amount: Money, after: Tables, order: OrderRow)
    requires Credit(t, account, amount) == Ok(after) && order.Funding() != account && order.Funding() in t.balances
    ensures AvailableFor(after, order) == AvailableFor(t, order) && order.Funding() in after.balances
    ensures after.reservations == t.reservations
  {
  }

  lemma KeptHold(t: Tables, after: Tables, id: OrderId, r: ReservationId)
    requires OnlyHold(t, id, r) && r in t.reservations
    requires exists amount ::
               after.reservations == t.reservations[r := t.reservations[r].(amount := amount, released := false)]
    ensures OnlyHold(after, id, r)
  {
    HoldAfter(t, after, id, r);
  }

  // ---- Every run ----

  /** Once the order is over no fill of it commits. */
  lemma {:induction false} OverTakesNothing(t: Tables, cs: seq<Command>, id: OrderId)
    requires ValidCommands(cs) && id in t.orders && IsTerminal(t.orders[id].status)
    ensures FillsLeaveAvailable(t, cs, id) && id in Run(t, cs).orders && IsTerminal(Run(t, cs).orders[id].status)
    decreases |cs|
  {
    hide Apply, ValidCommand, FillsIt, AvailableFor;
    if cs != [] {
      TerminalTakesNoFill(t, cs[0], id);
      StepProgress(t, cs[0]);
      assert id in Apply(t, cs[0]).orders && Apply(t, cs[0]).orders[id] == t.orders[id] by {
        hide NewFills, Monotone;
      }
      OverTakesNothing(Apply(t, cs[0]), cs[1..], id);
    }
  }

  /** Everything but its own fills leaves the order selling what is reserved for it. */
  lemma OthersSell(t: Tables, after: Tables, id: OrderId, r: ReservationId)
    requires Selling(t, id, r) && LeftAlone(t, after, id, r)
    ensures id in after.orders && (IsTerminal(after.orders[id].status) || Selling(after, id, r))
  {
  }

  /**
    Over any run of the ledger in which the engine writes the order's fills and anyone does anything
    else, the reservation of a LIMIT SELL is exactly what it has still to sell for as long as it is
    live, and none of its fills changes what its position has available.
   */
  lemma {:induction false} ReservesWhatIsLeft(t: Tables, cs: seq<Command>, id: OrderId, r: ReservationId)
    requires Selling(t, id, r) && ValidCommands(cs) && WrittenRun(t, cs, id)
    ensures FillsLeaveAvailable(t, cs, id)
    ensures var end := Run(t, cs);
            && id in end.orders
            && (!IsTerminal(end.orders[id].status) ==>
                  && r in end.reservations && end.reservations[r].owner == OfOrder(id) && !end.reservations[r].released
                  && end.reservations[r].amount == end.orders[id].quantity - end.orders[id].filled)
    decreases |cs|
  {
    if cs != [] {
      SellingStep(t, cs[0], id, r);
      hide Apply, ValidCommand, FillsIt, AvailableFor, Selling, Written;
      var next := Apply(t, cs[0]);
      if IsTerminal(next.orders[id].status) {
        OverTakesNothing(next, cs[1..], id);
      } else {
        ReservesWhatIsLeft(next, cs[1..], id, r);
      }
    }
  }

  lemma SellingStep(t: Tables, c: Command, id: OrderId, r: ReservationId)
    requires Selling(t, id, r) && ValidCommand(c) && Written(t, c, id)
    ensures var next := Apply(t, c);
            && id in next.orders && (IsTerminal(next.orders[id].status) || Selling(next, id, r))
            && (FillsIt(t, c, id) ==> AvailableFor(next, t.orders[id]) == AvailableFor(t, t.orders[id]))
    ensures id in t.orders
  {
    hide PersistFill, PersistTrigger, CancelOrder, CommitTradingMutation, CommitOcoPlacement, AvailableFor, LeftAlone;
    if FillsIt(t, c, id) {
      FillSells(t, c.fill, Apply(t, c), r);
    } else {
      OthersLeave(t, c, id, r);
      OthersSell(t, Apply(t, c), id, r);
    }
  }
}
