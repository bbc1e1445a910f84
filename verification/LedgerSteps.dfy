/**
  What each transaction of the ledger does to the invariant and to the money: settlement, fills,
  triggers and cancellations, and then every run of them.
 */
module LedgerSteps {
  import opened Types
  import opened Arithmetic
  import opened ExactMoney
  import opened Fees
  import opened Execution
  import opened Settlement
  import opened LedgerModel
  import opened LedgerInvariants

  // ---- Totals and flows ----

  function TotalIn(t: Tables, account: Account): Money {
    if account in t.balances then t.balances[account].total else 0
  }

  /** What a fill moves into an account: cash against shares, fees out of the cash. */
  function Flow(row: FillRow, account: Account): Money {
    var cash := if row.side == BUY then -(row.price * row.quantity) - row.fee else row.price * row.quantity - row.fee;
    var shares := if row.side == BUY then row.quantity else -row.quantity;
    if account == Wallet(row.session, CurrencyFor(row.market)) then cash
    else if account == Position(row.session, row.market, row.symbol) then shares
    else 0
  }

  function NetFlow(rows: seq<FillRow>, account: Account): Money {
    if rows == [] then 0 else NetFlow(rows[..|rows| - 1], account) + Flow(rows[|rows| - 1], account)
  }

  /** The flow of a batch of fills of one order. */
  function BatchFlow(order: OrderRow, fills: seq<Fill>, account: Account): Money {
    if account == order.Funding() then
      (if order.side == BUY then -GrossOf(fills) - FeesOf(fills) else -QuantityOf(fills))
    else if account == order.Receiving() then
      (if order.side == BUY then QuantityOf(fills) else GrossOf(fills) - FeesOf(fills))
    else 0
  }

  lemma {:induction false} RowsFlow(base: seq<FillRow>, id: OrderId, order: OrderRow, fills: seq<Fill>, token: nat,
                                    account: Account)
    ensures NetFlow(base + RowsOf(id, order, fills, token), account)
         == NetFlow(base, account) + BatchFlow(order, fills, account)
  {
    var rows := base + RowsOf(id, order, fills, token);
    if fills == [] {
      assert rows == base;
    } else {
      var rest := fills[..|fills| - 1];
      RowsFlow(base, id, order, rest, token, account);
      assert rows[..|rows| - 1] == base + RowsOf(id, order, rest, token);
    }
  }

  lemma {:induction false} SumFillsValue(fills: seq<Fill>, sign: int, start: Money)
    requires (sign == 1 || sign == -1) && SumFills(fills, sign, start).Ok?
    ensures SumFills(fills, sign, start).value == start + GrossOf(fills) + sign * FeesOf(fills)
  {
    hide Exact;
    if fills != [] {
      SumFillsValue(fills[..|fills| - 1], sign, start);
    }
  }

  // ---- Settlement ----

  /** Nothing but balances, averages and reservation rows has changed, and no balance has disappeared. */
  ghost predicate OnlyMoneyMoved(t: Tables, after: Tables) {
    && after == t.(balances := after.balances, averages := after.averages, reservations := after.reservations)
    && t.balances.Keys <= after.balances.Keys
  }

  /** What `lockReservation` finds is a live row of the order, on the account the order takes from. */
  lemma LockedRow(t: Tables, id: OrderId, order: OrderRow)
    requires Coherent(t) && Backing(t) && Books(t)
    requires id in t.orders && order.Funding() == t.orders[id].Funding() && order.group == t.orders[id].group
    ensures var r := LockReservation(t, order.Owner(id));
            r.Some? ==>
              && r.value in t.reservations && !t.reservations[r.value].released
              && t.reservations[r.value].account == order.Funding() && order.Funding() in t.balances
              && 0 <= t.reservations[r.value].amount <= t.balances[order.Funding()].reserved
  {
    var r := LockReservation(t, order.Owner(id));
    if r.Some? {
      assert OpenFor(t, order.Owner(id), r.value);
      assert CoherentRow(t, t.reservations[r.value]);
      RowWithinSum(t.reservations, order.Funding(), r.value);
    }
  }

  /** Writing a settled reservation moves its account's sum by what the plan takes from the row. */
  lemma WrittenSum(t: Tables, r: Option<ReservationId>, plan: Plan, account: Account, a: Account)
    requires r.Some? ==> r.value in t.reservations && !t.reservations[r.value].released
                         && t.reservations[r.value].account == account
    requires plan.released ==> plan.remaining == 0
    ensures SumOpen(WriteReservation(t, r, plan).reservations, a)
         == SumOpen(t.reservations, a)
            + (if r.Some? && a == account then plan.remaining - t.reservations[r.value].amount else 0)
  {
    if r.Some? {
      var row := t.reservations[r.value].(amount := plan.remaining, released := plan.released);
      SumUpdate(t.reservations, a, r.value, row);
    }
  }

  /** The plan a debit carries out, and what a settlement plan always keeps. */
  lemma DebitPlan(t: Tables, id: OrderId, order: OrderRow, consumed: Money, terminal: bool, desired: Option<Money>,
                  after: Tables) returns (r: Option<ReservationId>, plan: Plan)
    requires Coherent(t) && Backing(t) && Books(t)
    requires id in t.orders && order.Funding() == t.orders[id].Funding() && order.group == t.orders[id].group
    requires order.Funding() in t.balances && (desired.Some? ==> desired.value >= 0)
    requires Debit(t, id, order, consumed, terminal, desired) == Ok(after)
    ensures r.Some? ==> r.value in t.reservations && !t.reservations[r.value].released
                        && t.reservations[r.value].account == order.Funding()
    ensures after == WriteReservation(t.(balances := t.balances[order.Funding() := plan.balance]), r, plan)
    ensures WellFormed(plan.balance) && plan.balance.total == t.balances[order.Funding()].total - consumed
    ensures plan.balance.reserved == t.balances[order.Funding()].reserved + plan.remaining
              - (if r.Some? then t.reservations[r.value].amount else 0)
    ensures plan.remaining >= 0 && (r.None? ==> plan.remaining == 0) && (plan.released ==> plan.remaining == 0)
  {
    hide LockReservation, Coherent, Settle, SumOpen, WriteReservation;
    var account := order.Funding();
    r := LockReservation(t, order.Owner(id));
    LockedRow(t, id, order);
    assert WellFormed(t.balances[account]);
    hide Books, Backing, WellFormed;
    var remaining := if r.Some? then t.reservations[r.value].amount else 0;
    var q := Request(t.balances[account], remaining, consumed, terminal, desired);
    plan := Settle(q, Shortage(account)).value;
    SettlementKeeps(q, Shortage(account));
  }

  lemma DebitKeeps(t: Tables, id: OrderId, order: OrderRow, consumed: Money, terminal: bool, desired: Option<Money>,
                   after: Tables)
    requires Coherent(t) && Backing(t) && Books(t)
    requires id in t.orders && order.Funding() == t.orders[id].Funding() && order.group == t.orders[id].group
    requires order.Funding() in t.balances && (desired.Some? ==> desired.value >= 0)
    requires Debit(t, id, order, consumed, terminal, desired) == Ok(after)
    ensures Books(after) && Backing(after) && OnlyMoneyMoved(t, after) && after.averages == t.averages
    ensures SameOwners(t, after)
    ensures after.balances.Keys == t.balances.Keys
    ensures forall a :: TotalIn(after, a) == TotalIn(t, a) - (if a == order.Funding() then consumed else 0)
  {
    hide Debit, Coherent, SumOpen;
    var account := order.Funding();
    var r, plan := DebitPlan(t, id, order, consumed, terminal, desired, after);
    var debited := t.(balances := t.balances[account := plan.balance]);
    WrittenRows(debited, r, plan);
    hide SumOpen, WellFormed, Backing;
    forall a: Account ensures ReservedIn(after, a) == SumOpen(after.reservations, a) {
      WrittenSum(debited, r, plan, account, a);
      assert ReservedIn(t, a) == SumOpen(t.reservations, a);
      hide Books, WriteReservation;
    }
    hide WriteReservation;
    assert forall a | a in after.balances :: WellFormed(after.balances[a]);
  }

  lemma WrittenRows(t: Tables, r: Option<ReservationId>, plan: Plan)
    requires Backing(t) && plan.remaining >= 0 && (r.Some? ==> r.value in t.reservations)
    requires r.Some? ==> !t.reservations[r.value].released
    ensures var after := WriteReservation(t, r, plan);
            Backing(after) && SameOwners(t, after) && after == t.(reservations := after.reservations)
  {
  }

  /** The reservation rows are the same but for what they hold: the same owners and accounts, none revived. */
  ghost predicate SameOwners(t: Tables, after: Tables) {
    && after.reservations.Keys == t.reservations.Keys
    && forall r | r in t.reservations ::
         && after.reservations[r].owner == t.reservations[r].owner
         && after.reservations[r].account == t.reservations[r].account
         && (t.reservations[r].released ==> after.reservations[r].released)
  }

  /** Every order takes from the same account for the same group, and no group has disappeared. */
  ghost predicate SameShape(t: Tables, after: Tables) {
    && after.orders.Keys == t.orders.Keys && t.groups.Keys <= after.groups.Keys
    && forall o | o in t.orders ::
         after.orders[o].Funding() == t.orders[o].Funding() && after.orders[o].group == t.orders[o].group
  }

  lemma CoherenceCarries(t: Tables, after: Tables)
    requires Coherent(t) && SameOwners(t, after) && SameShape(t, after)
    ensures Coherent(after)
  {
    forall r | r in after.reservations && !after.reservations[r].released
      ensures CoherentRow(after, after.reservations[r])
    {
      assert CoherentRow(t, t.reservations[r]);
    }
  }

  lemma AddKeeps(t: Tables, account: Account, amount: Money, after: Tables)
    requires Books(t) && AddTo(t, account, amount) == Ok(after)
    ensures Books(after) && OnlyMoneyMoved(t, after)
    ensures after.reservations == t.reservations && after.averages == t.averages
    ensures forall a :: TotalIn(after, a) == TotalIn(t, a) + (if a == account then amount else 0)
  {
    hide SumOpen;
    forall a: Account ensures ReservedIn(after, a) == SumOpen(after.reservations, a) {
      assert ReservedIn(t, a) == SumOpen(t.reservations, a);
    }
  }

  lemma GrowKeeps(t: Tables, account: Account, fills: seq<Fill>, after: Tables)
    requires Books(t) && GrowPosition(t, account, fills) == Ok(after)
    ensures Books(after) && OnlyMoneyMoved(t, after) && after.reservations == t.reservations
    ensures forall a :: TotalIn(after, a) == TotalIn(t, a) + (if a == account then QuantityOf(fills) else 0)
  {
    hide Exact, SumFills, Portfolio.AverageCost;
    var grown := AddTo(t, account, QuantityOf(fills)).value;
    AddKeeps(t, account, QuantityOf(fills), grown);
    assert after == grown.(averages := after.averages);
    hide AddTo, GrowPosition;
    forall a: Account ensures ReservedIn(after, a) == SumOpen(after.reservations, a) {
      assert ReservedIn(grown, a) == SumOpen(grown.reservations, a);
    }
  }

  /** Settling touches balances, averages and reservations only. */
  lemma SettleFrame(t: Tables, id: OrderId, order: OrderRow, fills: seq<Fill>, terminal: bool, desired: Option<Money>,
                    after: Tables)
    requires SettleFill(t, id, order, fills, terminal, desired) == Ok(after)
    ensures OnlyMoneyMoved(t, after)
  {
    hide Exact, SumFills, Portfolio.AverageCost, LockReservation, Settle;
    if order.side == BUY {
      var cost := SumFills(fills, 1, 0).value;
      var paid := Debit(t, id, order, cost, terminal, desired).value;
      DebitFrame(t, id, order, cost, terminal, desired, paid);
      hide Debit;
      assert GrowPosition(paid, order.Receiving(), fills) == Ok(after);
      GrowFrame(paid, order.Receiving(), fills, after);
    } else {
      var sold := Debit(t, id, order, QuantityOf(fills), terminal, desired).value;
      DebitFrame(t, id, order, QuantityOf(fills), terminal, desired, sold);
      hide Debit;
      var proceeds := SumFills(fills, -1, 0).value;
      assert Credit(sold, order.Receiving(), proceeds) == Ok(after);
    }
  }

  lemma DebitFrame(t: Tables, id: OrderId, order: OrderRow, consumed: Money, terminal: bool, desired: Option<Money>,
                   after: Tables)
    requires order.Funding() in t.balances && Debit(t, id, order, consumed, terminal, desired) == Ok(after)
    ensures OnlyMoneyMoved(t, after) && order.Funding() in after.balances
    ensures after.balances == t.balances[order.Funding() := after.balances[order.Funding()]]
    ensures after.balances[order.Funding()].total == t.balances[order.Funding()].total - consumed
  {
    hide Settle, LockReservation;
    var account, r := order.Funding(), LockReservation(t, order.Owner(id));
    LockIsOpen(t, order.Owner(id));
    SettledOutright(Request(t.balances[account], if r.Some? then t.reservations[r.value].amount else 0, consumed,
                            terminal, desired), Shortage(account));
  }

  lemma SettledOutright(q: Settlement.Request, shortage: ErrorCode)
    requires Settle(q, shortage).Ok?
    ensures Settle(q, shortage).value == Settled(q)
    ensures Settle(q, shortage).value.balance.total == q.balance.total - q.consumed
  {
    hide Exact;
  }

  lemma GrowFrame(t: Tables, account: Account, fills: seq<Fill>, after: Tables)
    requires GrowPosition(t, account, fills) == Ok(after)
    ensures OnlyMoneyMoved(t, after) && after.reservations == t.reservations
    ensures forall a :: ReservedIn(after, a) == ReservedIn(t, a)
    ensures forall a :: TotalIn(after, a) == TotalIn(t, a) + (if a == account then QuantityOf(fills) else 0)
  {
    hide Exact, SumFills, Portfolio.AverageCost;
  }

  /** Whatever the ledger holds, settling moves every total by exactly the flow of the batch. */
  lemma SettleFlow(t: Tables, id: OrderId, order: OrderRow, fills: seq<Fill>, terminal: bool, desired: Option<Money>,
                   after: Tables)
    requires SettleFill(t, id, order, fills, terminal, desired) == Ok(after)
    ensures forall a :: TotalIn(after, a) == TotalIn(t, a) + BatchFlow(order, fills, a)
  {
    hide Exact, SumFills, Debit, GrowPosition, GrossOf, FeesOf, QuantityOf;
    var consumed := if order.side == BUY then SumFills(fills, 1, 0).value else QuantityOf(fills);
    var paid := Debit(t, id, order, consumed, terminal, desired).value;
    DebitFrame(t, id, order, consumed, terminal, desired, paid);
    if order.side == BUY {
      SumFillsValue(fills, 1, 0);
      GrowFrame(paid, order.Receiving(), fills, after);
    } else {
      SumFillsValue(fills, -1, 0);
      assert Credit(paid, order.Receiving(), SumFills(fills, -1, 0).value) == Ok(after);
    }
    hide SettleFill;
    assert forall a :: TotalIn(paid, a) == TotalIn(t, a) - (if a == order.Funding() then consumed else 0);
  }

  /** The one row a settlement writes is the live reservation it locked, if there is one. */
  ghost predicate Wrote(t: Tables, owner: Owner, r: Option<ReservationId>, released: bool, after: Tables) {
    && after.reservations.Keys == t.reservations.Keys
    && (forall k | k in t.reservations :: Some(k) != r ==> after.reservations[k] == t.reservations[k])
    && (r.None? ==> forall k | k in t.reservations :: !OpenFor(t, owner, k))
    && (r.Some? ==>
          && OpenFor(t, owner, r.value)
          && after.reservations[r.value].owner == owner
          && after.reservations[r.value].account == t.reservations[r.value].account
          && after.reservations[r.value].released == released)
  }

  lemma SettleWrites(t: Tables, id: OrderId, order: OrderRow, fills: seq<Fill>, terminal: bool, desired: Option<Money>,
                     after: Tables) returns (r: Option<ReservationId>)
    requires SettleFill(t, id, order, fills, terminal, desired) == Ok(after)
    ensures Wrote(t, order.Owner(id), r, terminal, after)
  {
    hide Exact, SumFills, HandedBack, LockReservation, Debit, OpenFor, GrowPosition;
    r := LockReservation(t, order.Owner(id));
    var consumed := if order.side == BUY then SumFills(fills, 1, 0).value else QuantityOf(fills);
    var paid := Debit(t, id, order, consumed, terminal, desired).value;
    DebitWrites(t, id, order, consumed, terminal, desired, paid);
    if order.side == BUY {
      GrowFrame(paid, order.Receiving(), fills, after);
    } else {
      assert Credit(paid, order.Receiving(), SumFills(fills, -1, 0).value) == Ok(after);
    }
    assert after.reservations == paid.reservations;
    hide SettleFill, GrowPosition, AddTo;
  }

  /** Settling changes what is reserved only on the account the order takes from. */
  lemma SettleReserves(t: Tables, id: OrderId, order: OrderRow, fills: seq<Fill>, terminal: bool,
                       desired: Option<Money>, after: Tables)
    requires SettleFill(t, id, order, fills, terminal, desired) == Ok(after)
    ensures forall a | a != order.Funding() :: ReservedIn(after, a) == ReservedIn(t, a)
  {
    hide Exact, SumFills, Debit, GrowPosition;
    var consumed := if order.side == BUY then SumFills(fills, 1, 0).value else QuantityOf(fills);
    var paid := Debit(t, id, order, consumed, terminal, desired).value;
    DebitFrame(t, id, order, consumed, terminal, desired, paid);
    if order.side == BUY {
      GrowFrame(paid, order.Receiving(), fills, after);
    } else {
      assert Credit(paid, order.Receiving(), SumFills(fills, -1, 0).value) == Ok(after);
    }
    hide SettleFill;
    forall a | a != order.Funding() ensures ReservedIn(after, a) == ReservedIn(t, a) {
      assert ReservedIn(paid, a) == ReservedIn(t, a);
    }
  }

  lemma DebitWrites(t: Tables, id: OrderId, order: OrderRow, consumed: Money, terminal: bool, desired: Option<Money>,
                    after: Tables)
    requires order.Funding() in t.balances && Debit(t, id, order, consumed, terminal, desired) == Ok(after)
    ensures Wrote(t, order.Owner(id), LockReservation(t, order.Owner(id)), terminal, after)
  {
    hide Settle, LockReservation, OpenFor;
    var account, r := order.Funding(), LockReservation(t, order.Owner(id));
    LockIsOpen(t, order.Owner(id));
    var q := Request(t.balances[account], if r.Some? then t.reservations[r.value].amount else 0, consumed, terminal,
                     desired);
    ReleasedWhenTerminal(q, Shortage(account));
  }

  lemma LockIsOpen(t: Tables, owner: Owner)
    ensures var r := LockReservation(t, owner);
            && (r.Some? ==>
                  && OpenFor(t, owner, r.value) && r.value in t.reservations
                  && t.reservations[r.value].owner == owner)
            && (r.None? ==> forall k | k in t.reservations :: !OpenFor(t, owner, k))
  {
  }

  lemma ReleasedWhenTerminal(q: Settlement.Request, shortage: ErrorCode)
    requires Settle(q, shortage).Ok?
    ensures Settle(q, shortage).value.released == q.terminal
  {
    hide Exact;
  }

  /** A settled batch keeps the books and moves exactly its flow. */
  lemma SettleKeeps(t: Tables, id: OrderId, order: OrderRow, fills: seq<Fill>, terminal: bool, desired: Option<Money>,
                    after: Tables)
    requires Coherent(t) && Backing(t) && Books(t)
    requires id in t.orders && order.Funding() == t.orders[id].Funding() && order.group == t.orders[id].group
    requires desired.Some? ==> desired.value >= 0
    requires SettleFill(t, id, order, fills, terminal, desired) == Ok(after)
    ensures Books(after) && Backing(after) && OnlyMoneyMoved(t, after) && SameOwners(t, after)
    ensures forall a :: TotalIn(after, a) == TotalIn(t, a) + BatchFlow(order, fills, a)
  {
    hide Debit, GrowPosition, AddTo, Books, Coherent;
    if order.side == BUY {
      var cost := SumFills(fills, 1, 0).value;
      SumFillsValue(fills, 1, 0);
      var paid := Debit(t, id, order, cost, terminal, desired).value;
      DebitKeeps(t, id, order, cost, terminal, desired, paid);
      GrowKeeps(paid, order.Receiving(), fills, after);
    } else {
      var sold := Debit(t, id, order, QuantityOf(fills), terminal, desired).value;
      DebitKeeps(t, id, order, QuantityOf(fills), terminal, desired, sold);
      var proceeds := SumFills(fills, -1, 0).value;
      SumFillsValue(fills, -1, 0);
      AddKeeps(sold, order.Receiving(), proceeds, after);
    }
  }

  // ---- Fills ----

  lemma ExposureNonNegative(order: OrderRow, filledAfter: int, terminal: bool, schedule: FeeSchedule)
    requires schedule.Valid() && RemainingExposure(order, filledAfter, terminal, schedule).Ok?
    ensures var desired := RemainingExposure(order, filledAfter, terminal, schedule).value;
            desired.Some? ==> desired.value >= 0
  {
    hide Exact;
    var remaining := order.quantity - filledAfter;
    if !terminal && order.kind == LIMIT && order.limitPrice.Some? && remaining > 0 && order.side == BUY {
      hide FeeOn;
      CalculateIsFeeOn(schedule, BUY, order.limitPrice.value, remaining);
      Swap(remaining, order.limitPrice.value);
    }
  }

  lemma RecordedFillKeeps(t: Tables, id: OrderId, row: OrderRow, recorded: Tables)
    requires id in t.orders && row.Funding() == t.orders[id].Funding() && row.group == t.orders[id].group
    requires recorded == t.(orders := t.orders[id := row], fills := recorded.fills)
    requires Books(t) && Backing(t) && Coherent(t)
    ensures Books(recorded) && Backing(recorded) && Coherent(recorded) && SameShape(t, recorded)
  {
    hide SumOpen, WellFormed;
    assert SameOwners(t, recorded);
    CoherenceCarries(t, recorded);
    assert forall a: Account :: ReservedIn(recorded, a) == ReservedIn(t, a);
  }

  /** What a committed fill passed, and the settlement it ended in. */
  lemma FillCommitted(t: Tables, c: FillCommand, after: Tables) returns (terminal: bool, desired: Option<Money>)
    requires c.schedule.Valid() && PersistFill(t, c) == Ok(after)
    ensures c.order in t.orders && t.orders[c.order].session in t.sessions && !IsTerminal(t.orders[c.order].status)
    ensures Fenced(t, t.orders[c.order].market, c.token)
    ensures 0 <= c.filledAfter <= t.orders[c.order].quantity && Storable(c.fills)
    ensures desired.Some? ==> desired.value >= 0
    ensures SettleFill(RecordFills(t, c, t.orders[c.order]), c.order, t.orders[c.order], c.fills, terminal, desired)
         == Ok(after)
  {
    hide SettleFill, RecordFills, Storable;
    var order := t.orders[c.order];
    terminal := c.nextStatus == FILLED || c.nextStatus == CANCELLED;
    desired := RemainingExposure(order, c.filledAfter, terminal, c.schedule).value;
    ExposureNonNegative(order, c.filledAfter, terminal, c.schedule);
  }

  /** The rows a persisted fill leaves behind: its order advanced, its fills appended. */
  ghost predicate FillRows(t: Tables, c: FillCommand, after: Tables)
    requires c.order in t.orders
  {
    && after.orders == t.orders[c.order := t.orders[c.order].(filled := c.filledAfter, status := c.nextStatus)]
    && after.fills == t.fills + RowsOf(c.order, t.orders[c.order], c.fills, c.token)
    && after.sessions == t.sessions && after.requests == t.requests && after.groups == t.groups
    && after.epochs == t.epochs
  }

  lemma FillRecords(t: Tables, c: FillCommand, after: Tables)
    requires c.schedule.Valid() && PersistFill(t, c) == Ok(after)
    ensures c.order in t.orders && !IsTerminal(t.orders[c.order].status)
    ensures Fenced(t, t.orders[c.order].market, c.token) && Storable(c.fills)
    ensures 0 <= c.filledAfter <= t.orders[c.order].quantity
    ensures FillRows(t, c, after)
  {
    hide PersistFill, SettleFill, Storable, RowsOf;
    var terminal, desired := FillCommitted(t, c, after);
    SettleFrame(RecordFills(t, c, t.orders[c.order]), c.order, t.orders[c.order], c.fills, terminal, desired, after);
  }

  /** The totals a committed fill leaves behind. */
  lemma FillFlow(t: Tables, c: FillCommand, after: Tables)
    requires c.schedule.Valid() && PersistFill(t, c) == Ok(after)
    ensures c.order in t.orders
    ensures forall a :: TotalIn(after, a) == TotalIn(t, a) + BatchFlow(t.orders[c.order], c.fills, a)
  {
    hide PersistFill, SettleFill, Storable, RowsOf, BatchFlow;
    var terminal, desired := FillCommitted(t, c, after);
    var order := t.orders[c.order];
    var recorded := RecordFills(t, c, order);
    SettleFlow(recorded, c.order, order, c.fills, terminal, desired, after);
    assert forall a :: TotalIn(recorded, a) == TotalIn(t, a);
  }

  /** What a persisted fill does to the money. */
  lemma FillMoney(t: Tables, c: FillCommand, after: Tables)
    requires Inv(t) && c.schedule.Valid() && PersistFill(t, c) == Ok(after)
    ensures c.order in t.orders
    ensures Books(after) && Backing(after) && SameOwners(t, after) && SameShape(t, after)
    ensures forall a :: TotalIn(after, a) == TotalIn(t, a) + BatchFlow(t.orders[c.order], c.fills, a)
  {
    hide PersistFill, SettleFill, Storable, Books, Coherent, Backing, BatchFlow, RowsOf;
    var terminal, desired := FillCommitted(t, c, after);
    var order := t.orders[c.order];
    var recorded := RecordFills(t, c, order);
    RecordedFillKeeps(t, c.order, order.(filled := c.filledAfter, status := c.nextStatus), recorded);
    SettleKeeps(recorded, c.order, order, c.fills, terminal, desired, after);
    assert forall a :: TotalIn(recorded, a) == TotalIn(t, a);
  }

  lemma FillKeeps(t: Tables, c: FillCommand, after: Tables)
    requires Inv(t) && c.schedule.Valid() && PersistFill(t, c) == Ok(after)
    ensures Inv(after)
  {
    hide PersistFill, Books, Backing, BatchFlow;
    FillMoney(t, c, after);
    FillRecords(t, c, after);
    CoherenceCarries(t, after);
    hide Coherent, SameOwners, SameShape;
  }

  // ---- Triggers ----

  /** What an effective trigger passed: its fill, and the tables it settled before cancelling the siblings. */
  lemma TriggerCommitted(t: Tables, c: TriggerCommand, after: Tables) returns (fill: Fill, settled: Tables)
    requires c.schedule.Valid() && PersistTrigger(t, c) == Ok(after)
    requires c.order in t.orders ==> !IsTerminal(t.orders[c.order].status)
    ensures c.order in t.orders && t.orders[c.order].session in t.sessions
    ensures Fenced(t, t.orders[c.order].market, c.token) && WinnerSlotFree(t, c.order, t.orders[c.order].group)
    ensures fill.price == c.price && fill.quantity == t.orders[c.order].quantity && Storable([fill])
    ensures Calculate(c.schedule, t.orders[c.order].side, c.price, fill.quantity) == Ok(fill.fee)
    ensures SettleFill(RecordTrigger(t, c, t.orders[c.order], fill), c.order, t.orders[c.order], [fill], true, None)
         == Ok(settled)
    ensures after == CancelSiblings(settled, c.order, t.orders[c.order].group)
  {
    hide SettleFill, RecordTrigger, Storable, WinnerSlotFree, CancelSiblings, Calculate;
    var order := t.orders[c.order];
    fill := Fill(c.price, order.quantity, Calculate(c.schedule, order.side, c.price, order.quantity).value);
    settled := SettleFill(RecordTrigger(t, c, order, fill), c.order, order, [fill], true, None).value;
  }

  /** The rows an effective trigger leaves behind: the leg filled, its live siblings cancelled, the group resolved. */
  ghost predicate TriggerRows(t: Tables, c: TriggerCommand, fill: Fill, after: Tables)
    requires c.order in t.orders
  {
    var order := t.orders[c.order];
    && after.orders.Keys == t.orders.Keys
    && after.orders[c.order] == order.(filled := order.quantity, status := FILLED, winner := order.group.Some?)
    && (forall o | o in t.orders && o != c.order ::
          after.orders[o] == if IsLiveSibling(t.orders[o], o, c.order, order.group)
                             then t.orders[o].(status := CANCELLED) else t.orders[o])
    && after.groups == (if order.group.Some? && order.group.value in t.groups
                        then t.groups[order.group.value := t.groups[order.group.value].(active := false)]
                        else t.groups)
    && after.fills == t.fills + RowsOf(c.order, order, [fill], c.token)
    && after.sessions == t.sessions && after.requests == t.requests && after.epochs == t.epochs
  }

  lemma SiblingRows(t: Tables, c: TriggerCommand, fill: Fill, settled: Tables)
    requires c.order in t.orders
    requires OnlyMoneyMoved(RecordTrigger(t, c, t.orders[c.order], fill), settled)
    ensures TriggerRows(t, c, fill, CancelSiblings(settled, c.order, t.orders[c.order].group))
  {
  }

  lemma TriggerMoney(t: Tables, c: TriggerCommand, fill: Fill, settled: Tables)
    requires Inv(t) && c.order in t.orders
    requires SettleFill(RecordTrigger(t, c, t.orders[c.order], fill), c.order, t.orders[c.order], [fill], true, None)
          == Ok(settled)
    ensures OnlyMoneyMoved(RecordTrigger(t, c, t.orders[c.order], fill), settled)
    ensures Books(settled) && Backing(settled) && SameOwners(t, settled) && SameShape(t, settled)
    ensures forall a :: TotalIn(settled, a) == TotalIn(t, a) + BatchFlow(t.orders[c.order], [fill], a)
  {
    hide SettleFill, Books, Coherent, Backing, BatchFlow, RowsOf;
    var order := t.orders[c.order];
    var recorded := RecordTrigger(t, c, order, fill);
    RecordedFillKeeps(t, c.order, order.(filled := order.quantity, status := FILLED, winner := order.group.Some?),
                      recorded);
    SettleKeeps(recorded, c.order, order, [fill], true, None, settled);
    assert forall a :: TotalIn(recorded, a) == TotalIn(t, a);
  }

  /** What an effective trigger does to the rows: a full fill at the reference price. */
  lemma TriggerRecords(t: Tables, c: TriggerCommand, after: Tables) returns (fill: Fill)
    requires c.schedule.Valid() && PersistTrigger(t, c) == Ok(after)
    requires c.order in t.orders ==> !IsTerminal(t.orders[c.order].status)
    ensures c.order in t.orders && Fenced(t, t.orders[c.order].market, c.token)
    ensures WinnerSlotFree(t, c.order, t.orders[c.order].group)
    ensures fill.price == c.price && fill.quantity == t.orders[c.order].quantity && Storable([fill])
    ensures TriggerRows(t, c, fill, after)
  {
    hide PersistTrigger, SettleFill, Storable, WinnerSlotFree;
    var settled;
    fill, settled := TriggerCommitted(t, c, after);
    SettleFrame(RecordTrigger(t, c, t.orders[c.order], fill), c.order, t.orders[c.order], [fill], true, None, settled);
    SiblingRows(t, c, fill, settled);
    hide RecordTrigger, OnlyMoneyMoved, TriggerRows, CancelSiblings;
  }

  /** The totals a committed trigger leaves behind. */
  lemma TriggerFlow(t: Tables, c: TriggerCommand, after: Tables) returns (fill: Fill)
    requires c.schedule.Valid() && PersistTrigger(t, c) == Ok(after)
    requires c.order in t.orders ==> !IsTerminal(t.orders[c.order].status)
    ensures c.order in t.orders && TriggerRows(t, c, fill, after)
    ensures forall a :: TotalIn(after, a) == TotalIn(t, a) + BatchFlow(t.orders[c.order], [fill], a)
  {
    hide PersistTrigger, SettleFill, Storable, WinnerSlotFree, BatchFlow, TriggerRows;
    var settled;
    fill, settled := TriggerCommitted(t, c, after);
    var order := t.orders[c.order];
    var recorded := RecordTrigger(t, c, order, fill);
    SettleFlow(recorded, c.order, order, [fill], true, None, settled);
    SettleFrame(recorded, c.order, order, [fill], true, None, settled);
    SiblingRows(t, c, fill, settled);
    assert forall a :: TotalIn(recorded, a) == TotalIn(t, a);
    assert forall a :: TotalIn(after, a) == TotalIn(settled, a);
  }

  /** What it does to the money, and to everything the invariant says. */
  lemma TriggerEffect(t: Tables, c: TriggerCommand, after: Tables) returns (fill: Fill)
    requires Inv(t) && c.schedule.Valid() && PersistTrigger(t, c) == Ok(after)
    requires c.order in t.orders && !IsTerminal(t.orders[c.order].status)
    ensures TriggerRows(t, c, fill, after) && Storable([fill])
    ensures forall a :: TotalIn(after, a) == TotalIn(t, a) + BatchFlow(t.orders[c.order], [fill], a)
    ensures Books(after) && Backing(after) && SameOwners(t, after) && SameShape(t, after)
  {
    hide PersistTrigger, SettleFill, Storable, BatchFlow, WinnerSlotFree, SumOpen, WellFormed;
    var settled;
    fill, settled := TriggerCommitted(t, c, after);
    TriggerMoney(t, c, fill, settled);
    SiblingRows(t, c, fill, settled);
    hide RecordTrigger, OnlyMoneyMoved, TriggerRows, Inv;
    SiblingsCancelled(settled, c.order, t.orders[c.order].group, after);
    hide CancelSiblings, Books, Backing;
  }

  lemma SiblingsCancelled(t: Tables, id: OrderId, group: Option<GroupId>, after: Tables)
    requires after == CancelSiblings(t, id, group)
    requires Books(t) && Backing(t)
    ensures Books(after) && Backing(after) && SameOwners(t, after) && SameShape(t, after)
    ensures after.balances == t.balances
  {
    hide SumOpen, WellFormed;
    assert forall a: Account :: ReservedIn(after, a) == ReservedIn(t, a);
  }

  lemma TriggerKeeps(t: Tables, c: TriggerCommand, after: Tables)
    requires Inv(t) && c.schedule.Valid() && PersistTrigger(t, c) == Ok(after)
    ensures Inv(after)
  {
    if !IsTerminal(t.orders[c.order].status) {
      hide PersistTrigger, Books, Backing, BatchFlow;
      var _ := TriggerEffect(t, c, after);
      CoherenceCarries(t, after);
      hide Coherent, SameOwners, SameShape;
    }
  }

  // ---- Cancellation ----

  lemma GivenBackWithin(t: Tables, id: OrderId, account: Account)
    requires Books(t) && Backing(t)
    ensures 0 <= GivenBack(t, id, account) <= ReservedIn(t, account)
    ensures SumOpen(Retired(t.reservations, Candidates(t, id)), account)
         == ReservedIn(t, account) - GivenBack(t, id, account)
  {
    var ids := Candidates(t, id);
    SumSplit(t.reservations, account, ids);
    SumNonNegative(Retired(t.reservations, ids), account);
    SumNonNegative(Chosen(t.reservations, ids), account);
    hide SumOpen, Chosen, Retired, Candidates;
    assert ReservedIn(t, account) == SumOpen(t.reservations, account);
  }

  /** Under the invariant a cancellation can always give everything back: it is never refused for that. */
  lemma AlwaysReleasable(t: Tables, id: OrderId)
    requires Books(t) && Backing(t)
    ensures Releasable(t, id)
  {
    hide SumOpen;
    forall a | a in t.balances && GivenBack(t, id, a) != 0
      ensures WellFormed(t.balances[a]) && 0 <= GivenBack(t, id, a) <= t.balances[a].reserved
    {
      GivenBackWithin(t, id, a);
    }
  }

  lemma CancelBooks(t: Tables, id: OrderId)
    requires id in t.orders && Books(t) && Backing(t)
    ensures Books(Cancelled(t, id)) && Backing(Cancelled(t, id))
    ensures SameOwners(t, Cancelled(t, id)) && SameShape(t, Cancelled(t, id))
    ensures forall a :: TotalIn(Cancelled(t, id), a) == TotalIn(t, a)
  {
    var after := Cancelled(t, id);
    forall a: Account
      ensures ReservedIn(after, a) == SumOpen(after.reservations, a)
      ensures a in after.balances ==> WellFormed(after.balances[a])
    {
      GivenBackWithin(t, id, a);
      hide GivenBack, SumOpen, IsCandidate;
    }
    hide SumOpen, GivenBack;
  }

  lemma CancelKeeps(t: Tables, c: CancelCommand, after: Tables)
    requires Inv(t) && CancelOrder(t, c) == Ok(after)
    ensures Inv(after)
  {
    if !IsTerminal(t.orders[c.order].status) {
      hide Releasable, SumOpen, GivenBack, WellFormed;
      CancelBooks(t, c.order);
      CoherenceCarries(t, after);
      hide Books, Backing, Coherent, SameOwners;
    }
  }

  // ---- Every transaction, every run ----

  /**
    Placements that reserve one hold, recorded, on the account the order takes from, as the
    placement service makes single orders; and OCO placements whose legs both take from the account
    held, which the service does not check.
   */
  predicate CoherentCommand(c: Command) {
    match c
    case Place(p) =>
      && p.order.group.None? && p.reservation.Some?
      && (p.cash.Some? <==> p.position.None?)
      && (if p.cash.Some? then p.Cash().value.account else p.Shares().value.account) == p.Row().Funding()
    case PlaceOco(p) => OcoCoherent(p)
    case _ => true
  }

  lemma PlaceStep(t: Tables, p: PlaceCommand, after: Placed)
    requires Inv(t) && CoherentCommand(Place(p)) && CommitTradingMutation(t, p) == Ok(after)
    ensures Inv(after.tables)
  {
    hide PlaceFresh, Inv;
    if !after.reply.replayed {
      assert PlacementCoherent(t, p);
      PlacementKeepsExactlyWhenCoherent(t, p, after.tables);
    }
  }

  lemma OcoStep(t: Tables, p: OcoCommand, after: Placed)
    requires Inv(t) && OcoCoherent(p) && CommitOcoPlacement(t, p) == Ok(after)
    ensures Inv(after.tables)
  {
    hide PlaceOcoFresh, Inv;
    if !after.reply.replayed {
      OcoKeepsExactlyWhenCoherent(t, p, after.tables);
    }
  }

  /** Tokens and sessions are no part of what the invariant is about. */
  lemma ElsewhereKeeps(t: Tables, after: Tables)
    requires Inv(t) && after == t.(epochs := after.epochs, sessions := after.sessions)
    ensures Inv(after)
  {
    hide SumOpen;
    assert forall a: Account :: ReservedIn(after, a) == ReservedIn(t, a);
    assert SameOwners(t, after) && SameShape(t, after);
    CoherenceCarries(t, after);
  }

  lemma AcquireKeeps(t: Tables, market: Market)
    requires Inv(t)
    ensures Inv(AcquireEpoch(t, market))
  {
    hide Inv;
    ElsewhereKeeps(t, AcquireEpoch(t, market));
  }

  /**
    Each transaction, a coherent one if it is a placement, keeps the ledger invariant; a refused
    one changes nothing.
   */
  lemma StepKeeps(t: Tables, c: Command)
    requires Inv(t) && ValidCommand(c) && CoherentCommand(c)
    ensures Inv(Apply(t, c))
  {
    var r := Attempt(t, c);
    if r.Ok? {
      hide Inv, CommitTradingMutation, CommitOcoPlacement, PersistFill, PersistTrigger, CancelOrder;
      match c
      case Place(p) => PlaceStep(t, p, CommitTradingMutation(t, p).value);
      case PlaceOco(p) => OcoStep(t, p, CommitOcoPlacement(t, p).value);
      case Fills(f) => FillKeeps(t, f, r.value);
      case Triggers(g) => TriggerKeeps(t, g, r.value);
      case Cancels(x) => CancelKeeps(t, x, r.value);
      case Acquires(m) => AcquireKeeps(t, m);
      case Expires(x) => ElsewhereKeeps(t, ExpireSession(t, x));
    }
  }
}
