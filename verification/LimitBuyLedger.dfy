/**
  The drift bound of a LIMIT BUY, carried over to the ledger: whatever else its transactions do, the
  fills of the order draw no more from its wallet than the bound.
 */
module LimitBuyLedger {
  import opened Types
  import opened Arithmetic
  import opened ExactMoney
  import opened Fees
  import opened Execution
  import opened Settlement
  import opened LedgerModel
  import opened LedgerSteps
  import opened LedgerRuns
  import opened OrderLife
  import opened LimitBuy

  predicate LimitBuyOrder(t: Tables, id: OrderId, limit: Money) {
    && id in t.orders && t.orders[id].side == BUY && t.orders[id].kind == LIMIT
    && t.orders[id].limitPrice == Some(limit) && 0 <= t.orders[id].filled < t.orders[id].quantity
  }

  ghost predicate Live(t: Tables, id: OrderId, r: ReservationId, limit: Money) {
    LimitBuyOrder(t, id, limit) && Standing(t, id, r)
  }

  /** The order as the ledger has it. */
  function LifeOf(t: Tables, id: OrderId, r: ReservationId, drawn: Money, levels: nat): Life
    requires id in t.orders && t.orders[id].filled <= t.orders[id].quantity
    requires t.orders[id].Funding() in t.balances && r in t.reservations
  {
    Life(t.orders[id].quantity - t.orders[id].filled, t.balances[t.orders[id].Funding()], t.reservations[r].amount,
         drawn, levels)
  }

  /** Fills of the order are what the engine writes: an execution at the limit or better, the quantity added up. */
  ghost predicate Written(t: Tables, c: Command, id: OrderId, limit: Money, schedule: FeeSchedule)
    requires schedule.Valid()
  {
    match c
    case Fills(f) =>
      f.order == id && id in t.orders ==>
        && f.schedule == schedule && LimitFills(limit, schedule, f.fills)
        && f.filledAfter == t.orders[id].filled + QuantityOf(f.fills)
        && (f.nextStatus in {FILLED, CANCELLED} <==> f.filledAfter == t.orders[id].quantity)
    case Triggers(g) => g.order != id
    case _ => true
  }

  ghost predicate WrittenRun(t: Tables, cs: seq<Command>, id: OrderId, limit: Money, schedule: FeeSchedule)
    requires schedule.Valid() && ValidCommands(cs)
    decreases |cs|
  {
    cs != [] ==>
      assert ValidCommand(cs[0]);
      Written(t, cs[0], id, limit, schedule) && WrittenRun(Apply(t, cs[0]), cs[1..], id, limit, schedule)
  }

  datatype Tally = Tally(drawn: Money, levels: nat)

  /**
    What the fills of the order took from `available` over a run, beyond its reservation, and the
    levels they consumed.
   */
  ghost function DrawnBy(t: Tables, cs: seq<Command>, id: OrderId): Tally
    requires ValidCommands(cs)
    decreases |cs|
  {
    if cs == [] then Tally(0, 0) else
      assert ValidCommand(cs[0]);
      var rest := DrawnBy(Apply(t, cs[0]), cs[1..], id);
      if FillsIt(t, cs[0], id) then
        var consumed := Consumed(cs[0].fill.fills);
        Tally(rest.drawn + consumed - Min(consumed, HeldFor(t, id)), rest.levels + |cs[0].fill.fills|)
      else rest
  }

  // ---- A fill is a batch ----

  lemma ExposureIsDesired(order: OrderRow, filledAfter: int, limit: Money, schedule: FeeSchedule)
    requires schedule.Valid() && limit > 0 && order.side == BUY && order.kind == LIMIT
    requires order.limitPrice == Some(limit)
    requires RemainingExposure(order, filledAfter, false, schedule).Ok? && filledAfter < order.quantity
    ensures RemainingExposure(order, filledAfter, false, schedule).value
         == Some(Exposure(limit, order.quantity - filledAfter, schedule))
  {
    hide Exact;
    var remaining := order.quantity - filledAfter;
    hide FeeOn;
    CalculateIsFeeOn(schedule, BUY, limit, remaining);
    Swap(remaining, limit);
  }

  /** The settlement of a committed fill: the request of the batch it is. */
  lemma FillSettles(t: Tables, f: FillCommand, after: Tables, r: ReservationId, limit: Money, drawn: Money, levels: nat)
    requires f.schedule.Valid() && limit > 0 && Live(t, f.order, r, limit)
    requires Written(t, Fills(f), f.order, limit, f.schedule)
    requires PersistFill(t, f) == Ok(after)
    ensures 0 <= QuantityOf(f.fills) <= LifeOf(t, f.order, r, drawn, levels).remaining
    ensures var order := t.orders[f.order];
            var q := BatchRequest(limit, f.schedule, LifeOf(t, f.order, r, drawn, levels), f.fills);
            && Debit(RecordFills(t, f, order), f.order, order, q.consumed, q.terminal, q.desired).Ok?
            && Settle(q, INSUFFICIENT_AVAILABLE_CASH).Ok?
            && GrowPosition(Debit(RecordFills(t, f, order), f.order, order, q.consumed, q.terminal, q.desired).value,
                            order.Receiving(), f.fills) == Ok(after)
  {
    hide Settle, Exact, FeeOn, LimitFills, RowsOf, Storable, SumFills, RemainingExposure, GrowPosition, Exposure;
    var order := t.orders[f.order];
    LimitQuantity(limit, f.schedule, f.fills);
    var terminal := f.nextStatus == FILLED || f.nextStatus == CANCELLED;
    var desired := RemainingExposure(order, f.filledAfter, terminal, f.schedule).value;
    assert terminal <==> f.filledAfter == order.quantity;
    if terminal {
      assert desired == None by { NothingDesired(order, f.filledAfter, f.schedule); }
    } else {
      ExposureIsDesired(order, f.filledAfter, limit, f.schedule);
    }
    SumFillsValue(f.fills, 1, 0);
    var recorded := RecordFills(t, f, order);
    RecordedHold(t, recorded, f.order, r);
    HeldIsTheRow(recorded, f.order, r);
    hide LockReservation;
  }

  lemma {:induction false} LimitQuantity(limit: Money, schedule: FeeSchedule, fills: seq<Fill>)
    requires schedule.Valid() && LimitFills(limit, schedule, fills)
    ensures QuantityOf(fills) >= 0
  {
    if fills != [] {
      assert LimitFills(limit, schedule, fills[..|fills| - 1]);
      LimitQuantity(limit, schedule, fills[..|fills| - 1]);
    }
  }

  /** What the debit leaves: the plan's balance and the plan's reservation. */
  lemma DebitLeaves(t: Tables, id: OrderId, order: OrderRow, r: ReservationId, q: Request, after: Tables)
    requires order.Funding() in t.balances && order.side == BUY && order.group.None? && OnlyHold(t, id, r)
    requires q.balance == t.balances[order.Funding()] && q.remaining == t.reservations[r].amount
    requires Debit(t, id, order, q.consumed, q.terminal, q.desired) == Ok(after)
    ensures Settle(q, INSUFFICIENT_AVAILABLE_CASH).Ok?
    ensures var plan := Settle(q, INSUFFICIENT_AVAILABLE_CASH).value;
            && after == t.(balances := t.balances[order.Funding() := plan.balance],
                           reservations := t.reservations[r :=
                             t.reservations[r].(amount := plan.remaining, released := plan.released)])
            && plan.released == q.terminal
  {
    hide Settle;
    HeldIsTheRow(t, id, r);
    hide LockReservation;
    ReleasedWhenTerminal(q, INSUFFICIENT_AVAILABLE_CASH);
  }

  /** A fill that commits settles its batch, and the order goes on from there. */
  lemma FillIsBatch(t: Tables, f: FillCommand, after: Tables, r: ReservationId, limit: Money, drawn: Money, levels: nat)
    requires f.schedule.Valid() && limit > 0 && Live(t, f.order, r, limit)
    requires Written(t, Fills(f), f.order, limit, f.schedule)
    requires PersistFill(t, f) == Ok(after)
    ensures QuantityOf(f.fills) <= LifeOf(t, f.order, r, drawn, levels).remaining
    ensures var next := SettleBatch(limit, f.schedule, LifeOf(t, f.order, r, drawn, levels), f.fills);
            && next.Ok? && f.order in after.orders
            && next.value.drawn == drawn + Consumed(f.fills) - Min(Consumed(f.fills), t.reservations[r].amount)
            && next.value.levels == levels + |f.fills|
            && if next.value.remaining == 0 then IsTerminal(after.orders[f.order].status)
               else if IsTerminal(f.nextStatus) then IsTerminal(after.orders[f.order].status)
               else Live(after, f.order, r, limit)
                    && LifeOf(after, f.order, r, next.value.drawn, next.value.levels) == next.value
  {
    hide PersistFill, Settle, Exact, LimitFills, SumFills, GrowPosition, Exposure, Debit, RowsOf, Storable;
    var id, order := f.order, t.orders[f.order];
    FillSettles(t, f, after, r, limit, drawn, levels);
    FillRecords(t, f, after);
    var q := BatchRequest(limit, f.schedule, LifeOf(t, id, r, drawn, levels), f.fills);
    var recorded := RecordFills(t, f, order);
    RecordedHold(t, recorded, id, r);
    var paid := Debit(recorded, id, order, q.consumed, q.terminal, q.desired).value;
    DebitLeaves(recorded, id, order, r, q, paid);
    GrowFrame(paid, order.Receiving(), f.fills, after);
    GrowElsewhere(paid, order.Receiving(), f.fills, after, order.Funding());
    if f.filledAfter < order.quantity {
      HoldAfter(recorded, paid, id, r);
      RecordedHold(paid, after, id, r);
    }
  }

  lemma GrowElsewhere(t: Tables, account: Account, fills: seq<Fill>, after: Tables, other: Account)
    requires GrowPosition(t, account, fills) == Ok(after) && other != account && other in t.balances
    ensures other in after.balances && after.balances[other] == t.balances[other]
  {
    hide Exact, SumFills, Portfolio.AverageCost;
  }

  // ---- Every run ----

  /** Nothing is drawn for an order that is done with. */
  lemma {:induction false} TerminalDrawsNothing(t: Tables, cs: seq<Command>, id: OrderId)
    requires ValidCommands(cs) && id in t.orders && IsTerminal(t.orders[id].status)
    ensures DrawnBy(t, cs, id) == Tally(0, 0)
    decreases |cs|
  {
    hide Apply, ValidCommand, FillsIt, HeldFor;
    if cs != [] {
      TerminalTakesNoFill(t, cs[0], id);
      StepProgress(t, cs[0]);
      assert id in Apply(t, cs[0]).orders && Apply(t, cs[0]).orders[id] == t.orders[id] by {
        hide NewFills, Monotone;
      }
      TerminalDrawsNothing(Apply(t, cs[0]), cs[1..], id);
    }
  }

  lemma LiveLife(t: Tables, id: OrderId, r: ReservationId, limit: Money)
    requires Live(t, id, r, limit)
    ensures id in t.orders && t.orders[id].filled <= t.orders[id].quantity
    ensures t.orders[id].Funding() in t.balances && r in t.reservations && HeldFor(t, id) == t.reservations[r].amount
  {
    HeldIsTheRow(t, id, r);
  }

  /** From a bounded life on, what a run draws keeps the bound. */
  lemma {:induction false} RunDraws(t: Tables, cs: seq<Command>, id: OrderId, r: ReservationId, limit: Money,
                                    schedule: FeeSchedule, drawn: Money, levels: nat)
    requires schedule.Valid() && schedule.roundingMode == HALF_UP && limit > 0 && Live(t, id, r, limit)
    requires Bounded(limit, schedule, LifeOf(t, id, r, drawn, levels))
    requires ValidCommands(cs) && WrittenRun(t, cs, id, limit, schedule)
    ensures var total := DrawnBy(t, cs, id);
            2 * (drawn + total.drawn) <= (levels + total.levels + 1) * schedule.Unit()
    decreases |cs|
  {
    hide Apply, ValidCommand, HeldFor, Bounded, SettleBatch, LimitFills, Live;
    LiveLife(t, id, r, limit);
    var life := LifeOf(t, id, r, drawn, levels);
    if cs == [] {
      BoundedDrawn(limit, schedule, life);
    } else {
      var next := Apply(t, cs[0]);
      if FillsIt(t, cs[0], id) {
        RunDrawsByFill(t, cs, id, r, limit, schedule, drawn, levels);
      } else {
        assert cs[0].Triggers? ==> cs[0].trigger.order != id;
        LiveStands(t, id, r, limit);
        OthersLeave(t, cs[0], id, r);
        if IsTerminal(next.orders[id].status) {
          BoundedDrawn(limit, schedule, life);
          TerminalDrawsNothing(next, cs[1..], id);
        } else {
          StillLive(t, next, id, r, limit);
          SameBound(limit, schedule, life, LifeOf(next, id, r, drawn, levels));
          RunDraws(next, cs[1..], id, r, limit, schedule, drawn, levels);
        }
      }
    }
  }

  lemma StillLive(t: Tables, after: Tables, id: OrderId, r: ReservationId, limit: Money)
    requires Live(t, id, r, limit) && LeftAlone(t, after, id, r) && !IsTerminal(after.orders[id].status)
    ensures Live(after, id, r, limit) && after.orders[id] == t.orders[id] && after.reservations[r] == t.reservations[r]
    ensures t.orders[id].Funding() in after.balances
  {
  }

  lemma LiveStands(t: Tables, id: OrderId, r: ReservationId, limit: Money)
    requires Live(t, id, r, limit)
    ensures Standing(t, id, r)
  {
  }

  lemma {:induction false} RunDrawsByFill(t: Tables, cs: seq<Command>, id: OrderId, r: ReservationId, limit: Money,
                                          schedule: FeeSchedule, drawn: Money, levels: nat)
    requires schedule.Valid() && schedule.roundingMode == HALF_UP && limit > 0 && Live(t, id, r, limit)
    requires Bounded(limit, schedule, LifeOf(t, id, r, drawn, levels))
    requires cs != [] && ValidCommands(cs) && WrittenRun(t, cs, id, limit, schedule)
    requires ValidCommand(cs[0]) && FillsIt(t, cs[0], id)
    ensures var total := DrawnBy(t, cs, id);
            2 * (drawn + total.drawn) <= (levels + total.levels + 1) * schedule.Unit()
    decreases |cs|, 0
  {
    hide ValidCommand, HeldFor, Bounded, SettleBatch, LimitFills, Live, PersistFill, Consumed;
    LiveLife(t, id, r, limit);
    var f, next := cs[0].fill, Apply(t, cs[0]);
    var life := LifeOf(t, id, r, drawn, levels);
    FillIsBatch(t, f, next, r, limit, drawn, levels);
    var after := SettleBatch(limit, schedule, life, f.fills).value;
    BatchKeepsBound(limit, schedule, life, f.fills, after);
    BoundedDrawn(limit, schedule, after);
    if IsTerminal(next.orders[id].status) {
      TerminalDrawsNothing(next, cs[1..], id);
    } else {
      LiveLife(next, id, r, limit);
      RunDraws(next, cs[1..], id, r, limit, schedule, after.drawn, after.levels);
    }
  }

  /**
    From the placement of a LIMIT BUY that reserved its HALF_UP exposure, over any run of the ledger
    in which the engine writes the order's fills and anyone does anything else (other orders of the
    same wallet, cancellations of this one included), the fills of the order take at most (K + 1) / 2
    fee-rounding units from `available` beyond its reservation, K being the levels they consumed.
   */
  lemma LedgerDrawsAtMostHalfUnitPerLevel(t: Tables, cs: seq<Command>, id: OrderId, r: ReservationId, limit: Money,
                                          schedule: FeeSchedule)
    requires schedule.Valid() && schedule.roundingMode == HALF_UP && limit > 0 && Live(t, id, r, limit)
    requires t.orders[id].filled == 0 && t.reservations[r].amount == Exposure(limit, t.orders[id].quantity, schedule)
    requires ValidCommands(cs) && WrittenRun(t, cs, id, limit, schedule)
    ensures 2 * DrawnBy(t, cs, id).drawn <= (DrawnBy(t, cs, id).levels + 1) * schedule.Unit()
  {
    hide DrawnBy, WrittenRun, Bounded, Exposure;
    StartBounded(limit, t.orders[id].quantity, schedule, t.balances[t.orders[id].Funding()]);
    assert LifeOf(t, id, r, 0, 0)
        == Life(t.orders[id].quantity, t.balances[t.orders[id].Funding()],
                Exposure(limit, t.orders[id].quantity, schedule), 0, 0);
    RunDraws(t, cs, id, r, limit, schedule, 0, 0);
  }
}
