/** The stored average cost of a position over any run of the ledger. */
module AverageLedger {
  import opened Types
  import opened Arithmetic
  import opened ExactMoney
  import opened Fees
  import opened Execution
  import opened Settlement
  import opened LedgerModel
  import opened LedgerInvariants
  import opened LedgerSteps
  import opened Portfolio

  /** A position as its average is kept: the quantity and the rounded average. */
  function HoldingOf(t: Tables, account: Account): Holding {
    Holding(TotalIn(t, account), if account in t.averages then t.averages[account] else 0)
  }

  // ---- What a transaction moves ----

  /** What a batch of fills does to a position: a buy is one purchase of all of it, a sale takes the quantity. */
  function BatchMove(order: OrderRow, fills: seq<Fill>, account: Account): seq<Movement> {
    if order.side == BUY && order.Receiving() == account then
      [Bought(Purchase(QuantityOf(fills), GrossOf(fills) + FeesOf(fills)))]
    else if order.side == SELL && order.Funding() == account && QuantityOf(fills) > 0 then [Sold(QuantityOf(fills))]
    else []
  }

  /** The fill of a trigger: the whole order at the reference price, with the fee of that. */
  function TriggerFill(order: OrderRow, g: TriggerCommand): Fill
    requires g.schedule.Valid()
  {
    var fee := Calculate(g.schedule, order.side, g.price, order.quantity);
    Fill(g.price, order.quantity, if fee.Ok? then fee.value else 0)
  }

  /** What a transaction does to a position: nothing if it is refused or is neither a fill nor a trigger. */
  ghost function MovesOf(t: Tables, c: Command, account: Account): seq<Movement>
    requires ValidCommand(c)
  {
    if Attempt(t, c).Err? then [] else
      match c
      case Fills(f) => if f.order in t.orders then BatchMove(t.orders[f.order], f.fills, account) else []
      case Triggers(g) =>
        if g.order in t.orders && !IsTerminal(t.orders[g.order].status)
        then BatchMove(t.orders[g.order], [TriggerFill(t.orders[g.order], g)], account) else []
      case _ => []
  }

  ghost function RunMoves(t: Tables, cs: seq<Command>, account: Account): seq<Movement>
    requires ValidCommands(cs)
    decreases |cs|
  {
    if cs == [] then [] else
      assert ValidCommand(cs[0]);
      MovesOf(t, cs[0], account) + RunMoves(Apply(t, cs[0]), cs[1..], account)
  }

  // ---- A settled batch is one movement ----

  lemma {:induction false} BatchNonNegative(fills: seq<Fill>)
    requires Storable(fills)
    ensures QuantityOf(fills) >= 0 && GrossOf(fills) + FeesOf(fills) >= 0
    ensures QuantityOf(fills) == 0 ==> fills == []
  {
    if fills != [] {
      var rest, last := fills[..|fills| - 1], fills[|fills| - 1];
      BatchNonNegative(rest);
      MulNonNegative(last.price, last.quantity);
      if rest != [] {
        assert QuantityOf(rest) >= 0;
      }
    }
  }

  lemma SumIsChecked(fills: seq<Fill>, start: Money)
    requires Exact(start) && SumFills(fills, 1, start).Ok?
    ensures Exact(SumFills(fills, 1, start).value)
  {
    hide Exact;
  }

  /** Growing a position by a batch, an empty one included, is one movement of its holding. */
  lemma GrowthIsOnePurchase(t: Tables, account: Account, fills: seq<Fill>, after: Tables)
    requires GrowPosition(t, account, fills) == Ok(after) && Storable(fills)
    ensures Move(HoldingOf(t, account), Bought(Purchase(QuantityOf(fills), GrossOf(fills) + FeesOf(fills))))
         == Ok(HoldingOf(after, account))
  {
    hide Exact, SumFills, AverageCost, Storable;
    var h := HoldingOf(t, account);
    var basis := h.average * h.quantity;
    BatchNonNegative(fills);
    SumFillsValue(fills, 1, basis);
    SumIsChecked(fills, basis);
    assert fills == [] ==> GrossOf(fills) + FeesOf(fills) == 0;
    assert AddTo(t, account, QuantityOf(fills)).Ok?;
  }

  /** It is a movement of no other holding. */
  lemma GrowthElsewhere(t: Tables, account: Account, fills: seq<Fill>, after: Tables, other: Account)
    requires GrowPosition(t, account, fills) == Ok(after) && other != account
    ensures HoldingOf(after, other) == HoldingOf(t, other)
  {
    hide Exact, SumFills, AverageCost;
    GrowFrame(t, account, fills, after);
  }

  /** A debit takes no more than there is, and leaves every average alone. */
  lemma DebitHolding(t: Tables, id: OrderId, order: OrderRow, consumed: Money, terminal: bool, desired: Option<Money>,
                     after: Tables)
    requires order.Funding() in t.balances && Debit(t, id, order, consumed, terminal, desired) == Ok(after)
    ensures after.averages == t.averages && consumed <= TotalIn(t, order.Funding())
    ensures TotalIn(after, order.Funding()) == TotalIn(t, order.Funding()) - consumed
    ensures forall a | a != order.Funding() :: TotalIn(after, a) == TotalIn(t, a)
  {
    hide Settle, LockReservation;
    DebitFrame(t, id, order, consumed, terminal, desired, after);
    var account, r := order.Funding(), LockReservation(t, order.Owner(id));
    LockIsOpen(t, order.Owner(id));
    NeverBelowZero(Request(t.balances[account], if r.Some? then t.reservations[r.value].amount else 0, consumed,
                           terminal, desired), Shortage(account));
  }

  lemma NeverBelowZero(q: Settlement.Request, shortage: ErrorCode)
    requires Settle(q, shortage).Ok?
    ensures q.consumed <= q.balance.total
  {
    hide Exact;
  }

  lemma CreditHolding(t: Tables, account: Account, amount: Money, after: Tables, other: Account)
    requires Credit(t, account, amount) == Ok(after) && other != account
    ensures HoldingOf(after, other) == HoldingOf(t, other)
  {
  }

  lemma SettledMoves(t: Tables, id: OrderId, order: OrderRow, fills: seq<Fill>, terminal: bool, desired: Option<Money>,
                     after: Tables, account: Account)
    requires SettleFill(t, id, order, fills, terminal, desired) == Ok(after) && Storable(fills) && account.Position?
    ensures Moves(HoldingOf(t, account), BatchMove(order, fills, account)) == Ok(HoldingOf(after, account))
  {
    hide Exact, SumFills, Debit, GrowPosition, Credit, Storable, Move;
    if order.side == BUY {
      var paid := Debit(t, id, order, SumFills(fills, 1, 0).value, terminal, desired).value;
      DebitHolding(t, id, order, SumFills(fills, 1, 0).value, terminal, desired, paid);
      assert HoldingOf(paid, account) == HoldingOf(t, account);
      if order.Receiving() == account {
        GrowthIsOnePurchase(paid, account, fills, after);
        OneMove(HoldingOf(t, account), BatchMove(order, fills, account)[0]);
      } else {
        GrowthElsewhere(paid, order.Receiving(), fills, after, account);
      }
    } else {
      var sold := Debit(t, id, order, QuantityOf(fills), terminal, desired).value;
      DebitHolding(t, id, order, QuantityOf(fills), terminal, desired, sold);
      CreditHolding(sold, order.Receiving(), SumFills(fills, -1, 0).value, after, account);
      BatchNonNegative(fills);
      if order.Funding() == account && QuantityOf(fills) > 0 {
        SaleMoves(HoldingOf(t, account), QuantityOf(fills));
        OneMove(HoldingOf(t, account), Sold(QuantityOf(fills)));
      }
    }
  }

  lemma SaleMoves(h: Holding, quantity: int)
    requires 0 < quantity <= h.quantity
    ensures Move(h, Sold(quantity)) == Ok(h.(quantity := h.quantity - quantity))
  {
  }

  lemma OneMove(h: Holding, m: Movement)
    ensures Moves(h, [m]) == Move(h, m)
  {
    hide Move;
    assert [m][1..] == [];
  }

  // ---- Every transaction ----

  lemma FillMoves(t: Tables, f: FillCommand, after: Tables, account: Account)
    requires f.schedule.Valid() && PersistFill(t, f) == Ok(after) && account.Position?
    ensures f.order in t.orders
    ensures Moves(HoldingOf(t, account), BatchMove(t.orders[f.order], f.fills, account))
         == Ok(HoldingOf(after, account))
  {
    hide PersistFill, SettleFill, Storable, RowsOf, Moves, BatchMove;
    var terminal, desired := FillCommitted(t, f, after);
    var recorded := RecordFills(t, f, t.orders[f.order]);
    assert HoldingOf(recorded, account) == HoldingOf(t, account);
    SettledMoves(recorded, f.order, t.orders[f.order], f.fills, terminal, desired, after, account);
  }

  lemma TriggerMoves(t: Tables, g: TriggerCommand, after: Tables, account: Account)
    requires g.schedule.Valid() && PersistTrigger(t, g) == Ok(after) && account.Position?
    requires g.order in t.orders ==> !IsTerminal(t.orders[g.order].status)
    ensures g.order in t.orders
    ensures Moves(HoldingOf(t, account), BatchMove(t.orders[g.order], [TriggerFill(t.orders[g.order], g)], account))
         == Ok(HoldingOf(after, account))
  {
    hide PersistTrigger, SettleFill, Storable, RowsOf, Moves, BatchMove, WinnerSlotFree, Calculate;
    var fill, settled := TriggerCommitted(t, g, after);
    var order := t.orders[g.order];
    assert fill == TriggerFill(order, g);
    var recorded := RecordTrigger(t, g, order, fill);
    assert HoldingOf(recorded, account) == HoldingOf(t, account);
    SettledMoves(recorded, g.order, order, [fill], true, None, settled, account);
    assert HoldingOf(after, account) == HoldingOf(settled, account);
  }

  lemma SameHolding(t: Tables, after: Tables, account: Account)
    requires SameTotals(t, after) && after.averages == t.averages
    ensures HoldingOf(after, account) == HoldingOf(t, account)
  {
  }

  lemma CancelHolds(t: Tables, x: CancelCommand, after: Tables, account: Account)
    requires CancelOrder(t, x) == Ok(after)
    ensures HoldingOf(after, account) == HoldingOf(t, account)
  {
    hide Releasable, GivenBack;
  }

  lemma PlacedHolds(t: Tables, c: Command, after: Tables, account: Account)
    requires (c.Place? || c.PlaceOco?) && Attempt(t, c) == Ok(after)
    ensures HoldingOf(after, account) == HoldingOf(t, account)
  {
    hide PlaceFresh, PlaceOcoFresh, SameTotals;
    if after != t {
      match c
      case Place(p) =>
        PlaceFrame(t, p, after);
        SameHolding(t, after, account);
      case PlaceOco(p) =>
        OcoFrame(t, p, after);
        SameHolding(t, after, account);
    }
  }

  /** A transaction moves a position by what `MovesOf` says, and nothing else does. */
  lemma StepMoves(t: Tables, c: Command, account: Account)
    requires ValidCommand(c) && account.Position?
    ensures Moves(HoldingOf(t, account), MovesOf(t, c, account)) == Ok(HoldingOf(Apply(t, c), account))
  {
    hide PersistFill, PersistTrigger, CancelOrder, CommitTradingMutation, CommitOcoPlacement, BatchMove, TriggerFill,
         Move;
    var a := Attempt(t, c);
    if a.Ok? {
      match c
      case Place(p) => PlacedHolds(t, c, a.value, account);
      case PlaceOco(p) => PlacedHolds(t, c, a.value, account);
      case Fills(f) => FillMoves(t, f, a.value, account);
      case Triggers(g) =>
        if g.order in t.orders && IsTerminal(t.orders[g.order].status) {
          TriggerIdle(t, g);
        } else {
          TriggerMoves(t, g, a.value, account);
        }
      case Cancels(x) => CancelHolds(t, x, a.value, account);
      case Acquires(m) =>
      case Expires(x) =>
    }
  }

  lemma TriggerIdle(t: Tables, g: TriggerCommand)
    requires g.schedule.Valid() && g.order in t.orders && IsTerminal(t.orders[g.order].status)
    ensures PersistTrigger(t, g).Ok? ==> PersistTrigger(t, g).value == t
  {
    hide SettleFill, Calculate, WinnerSlotFree, Storable;
  }

  /** The run's movements, one transaction after the other, take the first holding to the last. */
  lemma {:induction false} RunIsMoves(t: Tables, cs: seq<Command>, account: Account)
    requires ValidCommands(cs) && account.Position?
    ensures Moves(HoldingOf(t, account), RunMoves(t, cs, account)) == Ok(HoldingOf(Run(t, cs), account))
    decreases |cs|
  {
    hide Apply, ValidCommand, MovesOf, HoldingOf, Move;
    if cs != [] {
      assert ValidCommand(cs[0]);
      StepMoves(t, cs[0], account);
      RunIsMoves(Apply(t, cs[0]), cs[1..], account);
      MovesConcat(HoldingOf(t, account), MovesOf(t, cs[0], account), RunMoves(Apply(t, cs[0]), cs[1..], account));
    }
  }

  /**
    Over any run of the ledger, from an average of ten decimal places: the position's holding is
    what its purchases and sales make of it, and the stored average is within one step error per
    purchase of the exact weighted average, although every purchase starts from the rounded one.
   */
  lemma LedgerAverageDrift(t: Tables, cs: seq<Command>, account: Account)
    requires ValidCommands(cs) && account.Position?
    requires TotalIn(t, account) >= 0 && OnGrid(HoldingOf(t, account).average)
    ensures var ms, h := RunMoves(t, cs, account), HoldingOf(t, account);
            && Moves(h, ms) == Ok(HoldingOf(Run(t, cs), account))
            && Distance(HoldingOf(Run(t, cs), account).average as real, ExactAverages(h, h.average as real, ms))
               <= Buys(ms) as real * STEP_ERROR
  {
    hide Run, RunMoves, Moves, ExactAverages, Buys, OnGrid;
    RunIsMoves(t, cs, account);
    AverageDrift(HoldingOf(t, account), RunMoves(t, cs, account));
  }
}
