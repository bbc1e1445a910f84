/**
  One leader's tenure: its in-memory engine and the ledger, with matches, persistence,
  cancellations and everything else the ledger commits interleaved in any order.
 */
module Tenure {
  import opened Types
  import opened ExactMoney
  import opened Fees
  import opened Execution
  import opened Settlement
  import opened LedgerModel
  import opened LedgerInvariants
  import opened LedgerSteps
  import opened LedgerRuns
  import Engine

  /** A fill or a trigger the engine has decided and whose transaction has not ended. */
  datatype Flight =
    | FillInFlight(id: OrderId, before: Engine.PaperOrder, matched: Engine.OrderMatch)
    | TriggerInFlight(id: OrderId, before: Engine.PaperOrder, price: Money)

  datatype System = System(
    market: Market,
    token: nat,
    schedule: PublishedSchedule,
    orders: map<OrderId, Engine.PaperOrder>,
    conditional: map<OrderId, Engine.PaperOrder>,
    flight: Option<Flight>,
    ledger: Tables
  )

  /**
    How a transaction in flight ended: it ran and its caller knows how, it failed, or it ran and
    the result was lost.
   */
  datatype Delivery = Ran | Failed | Lost

  datatype Step =
    | Outside(command: Command)                       // any transaction of anyone else
    | Register(id: OrderId, order: Engine.PaperOrder) // a committed order handed to the engine
    | Match(id: OrderId, book: Engine.Book)
    | Trigger(id: OrderId, price: Money)
    | Land(delivery: Delivery)                        // the transaction in flight ends
    | Notify(id: OrderId)                             // a committed cancellation reaches the engine

  /** The transaction a flight runs. */
  function FlightCommand(s: System): (c: Command)
    requires s.flight.Some?
    ensures ValidCommand(c)
  {
    match s.flight.value
    case FillInFlight(id, _, m) =>
      Fills(FillCommand(id, m.filled, m.nextStatus, m.execution.fills, s.token, s.schedule))
    case TriggerInFlight(id, _, price) => Triggers(TriggerCommand(id, price, s.token, s.schedule))
  }

  /** What reaches the ledger in a step, if anything. */
  function CommandOf(s: System, step: Step): Option<Command> {
    match step
    case Outside(c) => Some(c)
    case Land(delivery) => if s.flight.Some? && !delivery.Failed? then Some(FlightCommand(s)) else None
    case _ => None
  }

  /** How the persistence of the flight ends, as the engine is told. */
  ghost function PersistedAs(s: System, delivery: Delivery): Engine.Persisted
    requires s.flight.Some?
  {
    var id, r := s.flight.value.id, Attempt(s.ledger, FlightCommand(s));
    if !delivery.Ran? then Engine.Refused
    else if r.Ok? then Engine.Committed
    else if r.code == ORDER_TERMINAL && id in s.ledger.orders then Engine.AlreadyTerminal(s.ledger.orders[id].status)
    else Engine.Refused
  }

  /** The engine's orders once a flight has landed. */
  ghost function Landed(s: System, delivery: Delivery): System
    requires s.flight.Some?
  {
    match s.flight.value
    case FillInFlight(id, before, m) =>
      s.(orders := s.orders[id := Engine.Settled(before, m, PersistedAs(s, delivery))], flight := None)
    case TriggerInFlight(id, before, price) =>
      if PersistedAs(s, delivery).Committed? then s.(flight := None)
      else s.(orders := s.orders[id := before], conditional := s.conditional[id := before], flight := None)
  }

  /** The engine's maps, with whatever envelopes it has taken. */
  function Inside(s: System, latest: map<string, Engine.Envelope>): Engine.State {
    Engine.State(s.orders, s.conditional, latest)
  }

  function WithEngine(s: System, e: Engine.State): System {
    s.(orders := e.orders, conditional := e.conditional)
  }

  ghost predicate Enabled(s: System, step: Step) {
    match step
    case Outside(c) => ValidCommand(c) && ElsewhereOnly(s, c)
    case Register(id, order) => id !in s.orders && FreshFor(s, id, order)
    case Match(id, book) =>
      && s.flight.None? && id in s.orders && s.orders[id].Matchable() && s.orders[id].symbol == book.symbol
      && Engine.MatchOrder(s.orders[id], book, s.market, s.schedule).Ok?
      && !Engine.Idle(s.orders[id], Engine.MatchOrder(s.orders[id], book, s.market, s.schedule).value)
    case Trigger(id, price) => s.flight.None? && id in s.conditional && s.conditional[id].status == PENDING_TRIGGER
    case Land(_) => s.flight.Some?
    case Notify(id) => s.flight.None? && id in s.ledger.orders && IsTerminal(s.ledger.orders[id].status)
  }

  /**
    Nobody else's fill of this market commits, and whoever fills elsewhere agrees with the ledger. A
    successor may have taken the market over.
   */
  ghost predicate ElsewhereOnly(s: System, c: Command)
    requires ValidCommand(c)
  {
    && Agreed(s.ledger, c)
    && (c.Fills? && Attempt(s.ledger, c).Ok? && c.fill.order in s.ledger.orders ==>
          s.ledger.orders[c.fill.order].market != s.market)
  }

  /** While its token is the market's nobody else's fill can commit: that one carries another token. */
  lemma NobodyElseFills(s: System, c: Command)
    requires ValidCommand(c) && Agreed(s.ledger, c) && Fenced(s.ledger, s.market, s.token)
    requires c.Fills? ==> c.fill.token != s.token
    ensures ElsewhereOnly(s, c)
  {
    if c.Fills? && Attempt(s.ledger, c).Ok? {
      var after := Attempt(s.ledger, c).value;
      hide PersistFill, SettleFill, Storable;
      FillRecords(s.ledger, c.fill, after);
    }
  }

  /**
    An order is handed over as its row has it, live in the engine only if it can be there; a leg of a
    pair waiting for its trigger.
   */
  ghost predicate FreshFor(s: System, id: OrderId, order: Engine.PaperOrder) {
    && id in s.ledger.orders && s.ledger.orders[id].market == s.market
    && s.ledger.orders[id].quantity == order.quantity && s.ledger.orders[id].filled == order.filled
    && order.status in {OPEN, PARTIALLY_FILLED, PENDING_TRIGGER}
    && (order.status == PENDING_TRIGGER ==> order.filled == 0)
    && (s.ledger.orders[id].group.Some? ==> order.status == PENDING_TRIGGER)
  }

  ghost function After(s: System, step: Step): System
    requires Enabled(s, step)
  {
    match step
    case Outside(c) => s.(ledger := Apply(s.ledger, c))
    case Register(id, order) => WithEngine(s, Engine.Registered(Inside(s, map[]), id, order))
    case Match(id, book) =>
      var m := Engine.MatchOrder(s.orders[id], book, s.market, s.schedule).value;
      s.(orders := s.orders[id := Engine.Updated(s.orders[id], m)], flight := Some(FillInFlight(id, s.orders[id], m)))
    case Trigger(id, price) =>
      var order := s.conditional[id];
      WithEngine(s, Engine.Marked(Inside(s, map[]), id, order.(status := TRIGGERED)))
        .(flight := Some(TriggerInFlight(id, order, price)))
    case Land(delivery) =>
      var ledger := if delivery.Failed? then s.ledger else Apply(s.ledger, FlightCommand(s));
      Landed(s, delivery).(ledger := ledger)
    case Notify(id) => WithEngine(s, Engine.Cancelled(Inside(s, map[]), id))
  }

  // ---- Agreement ----

  /** An order of the engine as its last landed transaction left it. */
  function View(s: System, id: OrderId): Engine.PaperOrder
    requires id in s.orders
  {
    if s.flight.Some? && s.flight.value.id == id then s.flight.value.before else s.orders[id]
  }

  /** The engine's quantity is the ledger's, unless the ledger is already done with the order. */
  predicate AgreesWith(o: Engine.PaperOrder, row: OrderRow, market: Market) {
    && row.market == market && row.quantity == o.quantity
    && (IsTerminal(row.status) || (row.filled == o.filled && !IsTerminal(o.status) && o.status != TRIGGERED))
  }

  ghost predicate OrdersAgree(s: System) {
    forall id | id in s.orders :: id in s.ledger.orders && AgreesWith(View(s, id), s.ledger.orders[id], s.market)
  }

  /** A waiting conditional order has filled nothing, and its row agrees. */
  ghost predicate ConditionalsAgree(s: System) {
    forall id | id in s.conditional ::
      && id in s.orders && id in s.ledger.orders && s.conditional[id].filled == 0 && !View(s, id).Matchable()
      && s.conditional[id].quantity == s.ledger.orders[id].quantity
      && (s.conditional[id].status == PENDING_TRIGGER ==>
            AgreesWith(s.conditional[id], s.ledger.orders[id], s.market))
  }

  ghost predicate FlightSound(s: System) {
    s.flight.Some? ==>
      match s.flight.value
      case FillInFlight(id, before, m) =>
        && id in s.orders && s.orders[id] == Engine.Updated(before, m)
        && before.Matchable() && Engine.SoundMatch(before, m)
      case TriggerInFlight(id, before, _) =>
        && id in s.orders && s.orders[id] == before.(status := TRIGGERED)
        && id in s.conditional && before == s.conditional[id].(status := PENDING_TRIGGER)
  }

  ghost predicate Agrees(s: System) {
    OrdersAgree(s) && ConditionalsAgree(s) && FlightSound(s)
  }

  /** What a step of anyone does to a row of this market: nothing, or it makes it terminal. */
  ghost predicate RowsOnward(t: Tables, after: Tables, market: Market) {
    forall id | id in t.orders && t.orders[id].market == market ::
      && id in after.orders && after.orders[id].market == market && after.orders[id].quantity == t.orders[id].quantity
      && (after.orders[id] == t.orders[id] || IsTerminal(after.orders[id].status))
  }

  lemma OutsideRows(s: System, c: Command)
    requires ValidCommand(c) && ElsewhereOnly(s, c)
    ensures RowsOnward(s.ledger, Apply(s.ledger, c), s.market)
  {
    hide PlaceFresh, PlaceOcoFresh, PersistFill, PersistTrigger, CancelOrder, Storable, SameTotals, WinnerSlotFree;
    var r := Attempt(s.ledger, c);
    if r.Ok? && r.value != s.ledger {
      match c
      case Place(p) => PlaceFrame(s.ledger, p, r.value);
      case PlaceOco(p) => OcoFrame(s.ledger, p, r.value);
      case Fills(f) => FillRecords(s.ledger, f, r.value);
      case Triggers(g) => TriggeredRows(s, g, r.value);
      case Cancels(x) => CancelRows(s, x, r.value);
      case Acquires(m) =>
      case Expires(x) =>
    }
  }

  lemma TriggeredRows(s: System, c: TriggerCommand, after: Tables)
    requires c.schedule.Valid() && PersistTrigger(s.ledger, c) == Ok(after)
    ensures forall id | id in s.ledger.orders && id != c.order ::
              && id in after.orders && after.orders[id].market == s.ledger.orders[id].market
              && after.orders[id].quantity == s.ledger.orders[id].quantity
              && (after.orders[id] == s.ledger.orders[id] || IsTerminal(after.orders[id].status))
    ensures c.order in s.ledger.orders && c.order in after.orders && IsTerminal(after.orders[c.order].status)
    ensures after.orders[c.order].market == s.ledger.orders[c.order].market
            && after.orders[c.order].quantity == s.ledger.orders[c.order].quantity
  {
    if c.order in s.ledger.orders && IsTerminal(s.ledger.orders[c.order].status) {
      assert after == s.ledger;
    } else {
      hide PersistTrigger, Storable, WinnerSlotFree;
      var _ := TriggerRecords(s.ledger, c, after);
    }
  }

  lemma CancelRows(s: System, c: CancelCommand, after: Tables)
    requires CancelOrder(s.ledger, c) == Ok(after)
    ensures RowsOnward(s.ledger, after, s.market)
  {
    hide Releasable, GivenBack;
  }

  lemma AgreesOnward(s: System, ledger: Tables)
    requires Agrees(s) && RowsOnward(s.ledger, ledger, s.market)
    ensures Agrees(s.(ledger := ledger))
  {
    var after := s.(ledger := ledger);
    forall id | id in after.orders
      ensures id in ledger.orders && AgreesWith(View(after, id), ledger.orders[id], s.market)
    {
      assert AgreesWith(View(s, id), s.ledger.orders[id], s.market);
    }
    assert ConditionalsAgree(after) by {
      forall id | id in s.conditional && s.conditional[id].status == PENDING_TRIGGER
        ensures AgreesWith(s.conditional[id], ledger.orders[id], s.market)
      {
        assert AgreesWith(s.conditional[id], s.ledger.orders[id], s.market);
      }
      assert forall id | id in s.conditional :: AgreesWith(View(s, id), s.ledger.orders[id], s.market);
    }
  }

  // ---- Landing ----

  lemma {:induction false} SumFillsError(fills: seq<Fill>, sign: int, start: Money)
    ensures SumFills(fills, sign, start).Err? ==> SumFills(fills, sign, start).code == INVARIANT_VIOLATION
  {
    hide Exact;
    if fills != [] {
      SumFillsError(fills[..|fills| - 1], sign, start);
    }
  }

  /** Settling a fill never reports the order terminal. */
  lemma SettlementError(t: Tables, id: OrderId, order: OrderRow, fills: seq<Fill>, terminal: bool,
                        desired: Option<Money>)
    requires SettleFill(t, id, order, fills, terminal, desired).Err?
    ensures SettleFill(t, id, order, fills, terminal, desired).code != ORDER_TERMINAL
  {
    hide Exact, SumFills, HandedBack, LockReservation, ExactInputs;
    SumFillsError(fills, 1, 0);
    SumFillsError(fills, -1, 0);
    if order.Funding() in t.balances {
      var consumed := if order.side == BUY then SumFills(fills, 1, 0) else Ok(QuantityOf(fills));
      if consumed.Ok? {
        DebitError(t, id, order, consumed.value, terminal, desired);
        if order.side == BUY {
          var paid := Debit(t, id, order, consumed.value, terminal, desired);
          if paid.Ok? {
            GrowError(paid.value, order.Receiving(), fills);
          }
        }
      }
    }
    hide Debit, GrowPosition;
  }

  lemma DebitError(t: Tables, id: OrderId, order: OrderRow, consumed: Money, terminal: bool, desired: Option<Money>)
    requires order.Funding() in t.balances
    ensures Debit(t, id, order, consumed, terminal, desired).Err? ==>
              Debit(t, id, order, consumed, terminal, desired).code != ORDER_TERMINAL
  {
    hide Exact, LockReservation, ExactInputs, ExactRelease, Settled;
  }

  lemma GrowError(t: Tables, account: Account, fills: seq<Fill>)
    ensures GrowPosition(t, account, fills).Err? ==> GrowPosition(t, account, fills).code != ORDER_TERMINAL
  {
    hide Exact, SumFills, Portfolio.DivideAndRound;
    var held := if account in t.balances then t.balances[account].total else 0;
    var average := if account in t.averages then t.averages[account] else 0;
    SumFillsError(fills, 1, average * held);
  }

  lemma {:induction false} ExposureError(order: OrderRow, filledAfter: int, terminal: bool, schedule: FeeSchedule)
    requires schedule.Valid()
    ensures RemainingExposure(order, filledAfter, terminal, schedule).Err? ==>
              RemainingExposure(order, filledAfter, terminal, schedule).code != ORDER_TERMINAL
  {
    hide Exact, RoundDiv;
  }

  /** A fill is refused as terminal only when its row is. */
  lemma TerminalRefusal(t: Tables, c: FillCommand)
    requires c.schedule.Valid() && PersistFill(t, c).Err? && PersistFill(t, c).code == ORDER_TERMINAL
    ensures c.order in t.orders && IsTerminal(t.orders[c.order].status)
  {
    hide SettleFill, RemainingExposure, Storable, RecordFills;
    if c.order in t.orders && !IsTerminal(t.orders[c.order].status) {
      var order := t.orders[c.order];
      var terminal := c.nextStatus == FILLED || c.nextStatus == CANCELLED;
      ExposureError(order, c.filledAfter, terminal, c.schedule);
      var desired := RemainingExposure(order, c.filledAfter, terminal, c.schedule);
      if desired.Ok? && SettleFill(RecordFills(t, c, order), c.order, order, c.fills, terminal, desired.value).Err? {
        SettlementError(RecordFills(t, c, order), c.order, order, c.fills, terminal, desired.value);
      }
    }
  }

  /** Losing the result of a committed fill does no harm when it filled nothing, or ended the order. */
  predicate LossHarmless(s: System)
    requires s.flight.Some? && s.flight.value.FillInFlight?
  {
    QuantityOf(s.flight.value.matched.execution.fills) == 0 || IsTerminal(s.flight.value.matched.nextStatus)
  }

  /** The ledger's row once a fill in flight has committed. */
  lemma FillLandsOnRow(s: System, after: Tables)
    requires Agrees(s) && s.flight.Some? && s.flight.value.FillInFlight?
    requires Attempt(s.ledger, FlightCommand(s)) == Ok(after)
    ensures var f := s.flight.value;
            && f.id in s.ledger.orders && !IsTerminal(s.ledger.orders[f.id].status)
            && s.ledger.orders[f.id].filled == f.before.filled
            && after.orders == s.ledger.orders[f.id :=
                 s.ledger.orders[f.id].(filled := f.matched.filled, status := f.matched.nextStatus)]
  {
    hide PersistFill, Storable;
    FillRecords(s.ledger, FlightCommand(s).fill, after);
    assert AgreesWith(View(s, s.flight.value.id), s.ledger.orders[s.flight.value.id], s.market);
  }

  lemma TerminalRefused(s: System)
    requires Agrees(s) && s.flight.Some? && s.flight.value.FillInFlight?
    requires var r := Attempt(s.ledger, FlightCommand(s)); r.Err? && r.code == ORDER_TERMINAL
    ensures var id := s.flight.value.id; id in s.ledger.orders && IsTerminal(s.ledger.orders[id].status)
  {
    hide PersistFill;
    TerminalRefusal(s.ledger, FlightCommand(s).fill);
  }

  lemma LandFillAgrees(s: System, delivery: Delivery)
    requires Agrees(s) && s.flight.Some? && s.flight.value.FillInFlight?
    requires delivery.Lost? ==> Attempt(s.ledger, FlightCommand(s)).Ok? ==> LossHarmless(s)
    ensures Agrees(After(s, Land(delivery)))
  {
    hide PersistFill, Attempt, FlightCommand;
    var f := s.flight.value;
    var after := After(s, Land(delivery));
    var r := Attempt(s.ledger, FlightCommand(s));
    if r.Ok? && !delivery.Failed? {
      FillLandsOnRow(s, r.value);
      assert after.ledger == r.value;
    } else {
      assert after.ledger == s.ledger;
      if delivery.Ran? && r.code == ORDER_TERMINAL {
        TerminalRefused(s);
      }
    }
    hide ConditionalsAgree, FlightSound;
    forall id | id in after.orders
      ensures id in after.ledger.orders && AgreesWith(View(after, id), after.ledger.orders[id], after.market)
    {
      assert AgreesWith(View(s, id), s.ledger.orders[id], s.market);
    }
    assert ConditionalsAgree(after) by {
      LandFillConditionals(s, delivery);
    }
    assert FlightSound(after);
  }

  lemma LandFillConditionals(s: System, delivery: Delivery)
    requires Agrees(s) && s.flight.Some? && s.flight.value.FillInFlight?
    ensures ConditionalsAgree(After(s, Land(delivery)))
  {
    hide PersistFill, Attempt, FlightCommand;
    var f := s.flight.value;
    var after := After(s, Land(delivery));
    var r := Attempt(s.ledger, FlightCommand(s));
    if r.Ok? && !delivery.Failed? {
      FillLandsOnRow(s, r.value);
      assert after.ledger == r.value;
    } else {
      assert after.ledger == s.ledger;
    }
    forall id | id in s.conditional && s.conditional[id].status == PENDING_TRIGGER
      ensures AgreesWith(s.conditional[id], after.ledger.orders[id], s.market)
    {
      assert AgreesWith(s.conditional[id], s.ledger.orders[id], s.market);
    }
  }

  lemma LandTriggerAgrees(s: System, delivery: Delivery)
    requires Agrees(s) && s.flight.Some? && s.flight.value.TriggerInFlight?
    ensures Agrees(After(s, Land(delivery)))
  {
    hide PersistTrigger, FlightCommand, Attempt, After, OrdersAgree, ConditionalsAgree;
    LandTriggerSystem(s, delivery);
    LandTriggerOrders(s, delivery);
    LandTriggerConditionals(s, delivery);
  }

  /** A landed trigger either stood, on a row now terminal, or put the order back as it was. */
  lemma LandTriggerSystem(s: System, delivery: Delivery)
    requires Agrees(s) && s.flight.Some? && s.flight.value.TriggerInFlight?
    ensures var f := s.flight.value;
            var after := After(s, Land(delivery));
            && (forall id | id in s.ledger.orders ::
                  && id in after.ledger.orders && after.ledger.orders[id].market == s.ledger.orders[id].market
                  && after.ledger.orders[id].quantity == s.ledger.orders[id].quantity
                  && (after.ledger.orders[id] == s.ledger.orders[id] || IsTerminal(after.ledger.orders[id].status)))
            && (|| (after == s.(flight := None, ledger := after.ledger)
                    && f.id in after.ledger.orders && IsTerminal(after.ledger.orders[f.id].status))
                || after == s.(orders := s.orders[f.id := f.before], conditional := s.conditional[f.id := f.before],
                               flight := None, ledger := after.ledger))
  {
    hide FlightCommand, Attempt, Agrees;
    var r := Attempt(s.ledger, FlightCommand(s));
    var after := After(s, Land(delivery));
    if r.Ok? && !delivery.Failed? {
      TriggerLandsOnRow(s, r.value);
      assert after.ledger == r.value;
    } else {
      assert after.ledger == s.ledger;
    }
  }

  lemma LandTriggerOrders(s: System, delivery: Delivery)
    requires Agrees(s) && s.flight.Some? && s.flight.value.TriggerInFlight?
    ensures OrdersAgree(After(s, Land(delivery)))
  {
    hide After, ConditionalsAgree;
    LandTriggerSystem(s, delivery);
    var after := After(s, Land(delivery));
    forall id | id in after.orders
      ensures id in after.ledger.orders && AgreesWith(View(after, id), after.ledger.orders[id], after.market)
    {
      assert AgreesWith(View(s, id), s.ledger.orders[id], s.market);
    }
  }

  lemma LandTriggerConditionals(s: System, delivery: Delivery)
    requires Agrees(s) && s.flight.Some? && s.flight.value.TriggerInFlight?
    ensures ConditionalsAgree(After(s, Land(delivery)))
  {
    hide After;
    LandTriggerSystem(s, delivery);
    var f := s.flight.value;
    var after := After(s, Land(delivery));
    assert AgreesWith(View(s, f.id), s.ledger.orders[f.id], s.market);
    hide OrdersAgree;
    forall id | id in after.conditional && after.conditional[id].status == PENDING_TRIGGER
      ensures AgreesWith(after.conditional[id], after.ledger.orders[id], s.market)
    {
      if id != f.id {
        assert AgreesWith(s.conditional[id], s.ledger.orders[id], s.market);
      }
    }
  }

  lemma TriggerLandsOnRow(s: System, after: Tables)
    requires Agrees(s) && s.flight.Some? && s.flight.value.TriggerInFlight?
    requires Attempt(s.ledger, FlightCommand(s)) == Ok(after)
    ensures forall id | id in s.ledger.orders ::
              && id in after.orders && after.orders[id].market == s.ledger.orders[id].market
              && after.orders[id].quantity == s.ledger.orders[id].quantity
              && (after.orders[id] == s.ledger.orders[id] || IsTerminal(after.orders[id].status))
    ensures s.flight.value.id in after.orders && IsTerminal(after.orders[s.flight.value.id].status)
  {
    hide PersistTrigger;
    TriggeredRows(s, FlightCommand(s).trigger, after);
  }

  // ---- Every step ----

  lemma StepAgrees(s: System, step: Step)
    requires Agrees(s) && Enabled(s, step) && NoHarm(s, step)
    ensures Agrees(After(s, step))
  {
    match step
    case Outside(c) =>
      OutsideRows(s, c);
      hide Agrees, Apply, RowsOnward, ElsewhereOnly;
      AgreesOnward(s, Apply(s.ledger, c));
    case Register(id, order) => RegisterAgrees(s, id, order);
    case Match(id, book) => MatchAgrees(s, id, book);
    case Trigger(id, price) => TriggerAgrees(s, id, price);
    case Land(delivery) =>
      hide Agrees, Attempt, FlightCommand, LossHarmless;
      if s.flight.value.FillInFlight? {
        LandFillAgrees(s, delivery);
      } else {
        LandTriggerAgrees(s, delivery);
      }
    case Notify(id) => NotifyAgrees(s, id);
  }

  lemma RegisterAgrees(s: System, id: OrderId, order: Engine.PaperOrder)
    requires Agrees(s) && Enabled(s, Register(id, order))
    ensures Agrees(After(s, Register(id, order)))
  {
    hide Engine.MatchOrder, Engine.Idle, ElsewhereOnly, Apply, FlightCommand, Attempt;
    RegisterConditionals(s, id, order);
    hide ConditionalsAgree;
    var after := After(s, Register(id, order));
    assert s.flight.Some? ==> s.flight.value.id != id;
    assert forall other | other in s.orders :: View(after, other) == View(s, other);
    forall other | other in after.orders
      ensures other in s.ledger.orders && AgreesWith(View(after, other), s.ledger.orders[other], s.market)
    {
      if other != id {
        assert AgreesWith(View(s, other), s.ledger.orders[other], s.market);
      }
    }
  }

  lemma RegisterConditionals(s: System, id: OrderId, order: Engine.PaperOrder)
    requires Agrees(s) && Enabled(s, Register(id, order))
    ensures ConditionalsAgree(After(s, Register(id, order)))
  {
    hide OrdersAgree;
    var after := After(s, Register(id, order));
    assert s.flight.Some? ==> s.flight.value.id != id;
    assert forall other | other in s.conditional :: View(after, other) == View(s, other);
    assert forall other | other in s.conditional && s.conditional[other].status == PENDING_TRIGGER ::
      AgreesWith(s.conditional[other], s.ledger.orders[other], s.market);
  }

  lemma MatchAgrees(s: System, id: OrderId, book: Engine.Book)
    requires Agrees(s) && Enabled(s, Match(id, book))
    ensures Agrees(After(s, Match(id, book)))
  {
    hide Engine.MatchOrder, Engine.Idle;
    var after := After(s, Match(id, book));
    Engine.MatchIsSound(s.orders[id], book, s.market, s.schedule);
    assert forall other | other in s.orders :: View(after, other) == View(s, other);
    assert OrdersAgree(after) && ConditionalsAgree(after);
  }

  lemma TriggerAgrees(s: System, id: OrderId, price: Money)
    requires Agrees(s) && Enabled(s, Trigger(id, price))
    ensures Agrees(After(s, Trigger(id, price)))
  {
    hide Engine.MatchOrder, Engine.Idle, ElsewhereOnly, Apply, FlightCommand, Attempt;
    var after := After(s, Trigger(id, price));
    assert AgreesWith(s.conditional[id], s.ledger.orders[id], s.market);
    forall other | other in after.orders
      ensures other in s.ledger.orders && AgreesWith(View(after, other), s.ledger.orders[other], s.market)
    {
      assert AgreesWith(View(s, other), s.ledger.orders[other], s.market);
    }
  }

  lemma NotifyAgrees(s: System, id: OrderId)
    requires Agrees(s) && Enabled(s, Notify(id))
    ensures Agrees(After(s, Notify(id)))
  {
    var after := After(s, Notify(id));
    forall other | other in after.orders
      ensures other in s.ledger.orders && AgreesWith(View(after, other), s.ledger.orders[other], s.market)
    {
      assert AgreesWith(View(s, other), s.ledger.orders[other], s.market);
    }
  }

  /** Losing the result of a committed fill breaks the agreement exactly when the fill was partial and not empty. */
  lemma LostCommitExactly(s: System)
    requires Agrees(s) && s.flight.Some? && s.flight.value.FillInFlight?
    requires Attempt(s.ledger, FlightCommand(s)).Ok?
    ensures Agrees(After(s, Land(Lost))) <==> LossHarmless(s)
  {
    hide Attempt, FlightCommand;
    if LossHarmless(s) {
      LandFillAgrees(s, Lost);
    } else {
      var after := After(s, Land(Lost));
      var f := s.flight.value;
      FillLandsOnRow(s, Attempt(s.ledger, FlightCommand(s)).value);
      assert !AgreesWith(View(after, f.id), after.ledger.orders[f.id], s.market);
    }
  }

  /** A fill the engine persists passes the quantity and price checks of its rows. */
  lemma FillPassesChecks(s: System)
    requires Agrees(s) && s.flight.Some? && s.flight.value.FillInFlight?
    requires var id := s.flight.value.id;
             !IsTerminal(s.ledger.orders[id].status) && s.ledger.orders[id].filled >= 0
    ensures var f := s.flight.value;
            && s.ledger.orders[f.id].filled <= f.matched.filled <= s.ledger.orders[f.id].quantity
            && Storable(f.matched.execution.fills)
  {
    assert AgreesWith(View(s, s.flight.value.id), s.ledger.orders[s.flight.value.id], s.market);
  }

  // ---- Every run ----

  /** Any run at all: matches, triggers, commits with known or lost results, failures, others' transactions. */
  ghost predicate Possible(s: System, steps: seq<Step>)
    decreases |steps|
  {
    steps != [] ==> Enabled(s, steps[0]) && Possible(After(s, steps[0]), steps[1..])
  }

  /** The step does not lose the result of a partial fill that committed. */
  ghost predicate NoHarm(s: System, step: Step)
    requires Enabled(s, step)
  {
    step == Land(Lost) && s.flight.value.FillInFlight? && Attempt(s.ledger, FlightCommand(s)).Ok? ==> LossHarmless(s)
  }

  ghost predicate LossesHarmless(s: System, steps: seq<Step>)
    requires Possible(s, steps)
    decreases |steps|
  {
    steps != [] ==> NoHarm(s, steps[0]) && LossesHarmless(After(s, steps[0]), steps[1..])
  }

  ghost function RunFrom(s: System, steps: seq<Step>): System
    requires Possible(s, steps)
    decreases |steps|
  {
    if steps == [] then s else RunFrom(After(s, steps[0]), steps[1..])
  }

  lemma StepMatchesRows(s: System, step: Step)
    requires Agrees(s) && Enabled(s, step) && RowsMatch(s.ledger)
    ensures RowsMatch(After(s, step).ledger)
  {
    hide RowsMatch, Agrees, Attempt;
    var c := CommandOf(s, step);
    if c.Some? && Attempt(s.ledger, c.value).Ok? {
      if step.Land? {
        FlightAgreed(s);
      }
      StepMatchesExactlyWhenAgreed(s.ledger, c.value);
    }
  }

  lemma FlightAgreed(s: System)
    requires Agrees(s) && s.flight.Some? && Attempt(s.ledger, FlightCommand(s)).Ok?
    ensures Agreed(s.ledger, FlightCommand(s))
  {
    hide PersistFill, PersistTrigger;
    var f := s.flight.value;
    assert AgreesWith(View(s, f.id), s.ledger.orders[f.id], s.market);
    if f.FillInFlight? {
      FillLandsOnRow(s, Attempt(s.ledger, FlightCommand(s)).value);
    }
  }

  /**
    Agreement over a whole tenure: from an agreeing start, after any interleaving of matches,
    triggers, persistence outcomes, cancellations, notifications and other commits in which no
    partial fill's commit is lost, the engine's filled quantity is the ledger's unless the row is
    already terminal, and the ledger's is the sum of its fill rows.
   */
  lemma {:induction false} TenureKeepsAgreement(s: System, steps: seq<Step>)
    requires Agrees(s) && RowsMatch(s.ledger) && Possible(s, steps) && LossesHarmless(s, steps)
    ensures Agrees(RunFrom(s, steps)) && RowsMatch(RunFrom(s, steps).ledger)
    decreases |steps|
  {
    hide Agrees, RowsMatch, Enabled, After, NoHarm;
    if steps != [] {
      StepAgrees(s, steps[0]);
      StepMatchesRows(s, steps[0]);
      TenureKeepsAgreement(After(s, steps[0]), steps[1..]);
    }
  }

  /** The same, read off for one order of an engine with nothing in flight. */
  lemma EngineQuantityIsItsRows(s: System, steps: seq<Step>, id: OrderId)
    requires Agrees(s) && RowsMatch(s.ledger) && Possible(s, steps) && LossesHarmless(s, steps)
    requires var end := RunFrom(s, steps); end.flight.None? && id in end.orders
    ensures var end := RunFrom(s, steps);
            && id in end.ledger.orders
            && (IsTerminal(end.ledger.orders[id].status)
                || end.orders[id].filled == end.ledger.orders[id].filled == FilledBy(end.ledger.fills, id))
  {
    TenureKeepsAgreement(s, steps);
    hide RunFrom, Possible, LossesHarmless;
    var end := RunFrom(s, steps);
    assert AgreesWith(View(end, id), end.ledger.orders[id], end.market);
  }

  // ---- A tenure is a run of the ledger ----

  ghost function LedgerRun(s: System, steps: seq<Step>): (cs: seq<Command>)
    requires Possible(s, steps)
    ensures ValidCommands(cs)
    decreases |steps|
  {
    if steps == [] then [] else
      var c := CommandOf(s, steps[0]);
      var rest := LedgerRun(After(s, steps[0]), steps[1..]);
      if c.Some? then [c.value] + rest else rest
  }

  /** So everything proved of ledger runs holds of tenures: conservation, fencing, finality of terminal orders. */
  lemma {:induction false} TenureIsLedgerRun(s: System, steps: seq<Step>)
    requires Possible(s, steps)
    ensures RunFrom(s, steps).ledger == Run(s.ledger, LedgerRun(s, steps))
    decreases |steps|
  {
    hide Apply, Enabled, After, CommandOf, ValidCommand;
    if steps != [] {
      TenureIsLedgerRun(After(s, steps[0]), steps[1..]);
      StepOfLedger(s, steps[0]);
      var c := CommandOf(s, steps[0]);
      var rest := LedgerRun(After(s, steps[0]), steps[1..]);
      if c.Some? {
        assert LedgerRun(s, steps)[0] == c.value && LedgerRun(s, steps)[1..] == rest;
      } else {
        assert LedgerRun(s, steps) == rest;
      }
    }
  }

  lemma StepOfLedger(s: System, step: Step)
    requires Enabled(s, step)
    ensures After(s, step).ledger ==
              if CommandOf(s, step).Some? then Apply(s.ledger, CommandOf(s, step).value) else s.ledger
  {
    hide Apply, Landed, FlightCommand;
  }

  /** No fill row is written for an order once the ledger holds it terminal, whatever the engine still believes. */
  lemma NoFillAfterTerminal(s: System, steps: seq<Step>, id: OrderId)
    requires Possible(s, steps)
    requires id in s.ledger.orders && IsTerminal(s.ledger.orders[id].status)
    ensures |s.ledger.fills| <= |RunFrom(s, steps).ledger.fills|
    ensures NoFillSince(RunFrom(s, steps).ledger.fills, |s.ledger.fills|, id)
  {
    TenureIsLedgerRun(s, steps);
    TerminalIsFinal(s.ledger, LedgerRun(s, steps), id);
    hide Run, RunFrom, LedgerRun, Possible;
  }

  // ---- A pass of the engine is a run of steps ----

  /** What happens while the persistence of one order is awaited: others' transactions, and how it ends. */
  datatype Await = Await(others: seq<Command>, delivery: Delivery)

  function Outsides(cs: seq<Command>): (steps: seq<Step>)
    ensures |steps| == |cs| && forall i | 0 <= i < |cs| :: steps[i] == Outside(cs[i])
  {
    seq(|cs|, i requires 0 <= i < |cs| => Outside(cs[i]))
  }

  lemma {:induction false} RunConcat(s: System, first: seq<Step>, rest: seq<Step>)
    requires Possible(s, first) && Possible(RunFrom(s, first), rest)
    ensures Possible(s, first + rest) && RunFrom(s, first + rest) == RunFrom(RunFrom(s, first), rest)
    decreases |first|
  {
    hide Enabled, After;
    if first == [] {
      assert first + rest == rest;
    } else {
      assert (first + rest)[1..] == first[1..] + rest;
      RunConcat(After(s, first[0]), first[1..], rest);
    }
  }

  /** Others' transactions touch nothing but the ledger. */
  lemma {:induction false} OutsidesTouchLedger(s: System, cs: seq<Command>)
    requires Possible(s, Outsides(cs))
    ensures RunFrom(s, Outsides(cs)) == s.(ledger := RunFrom(s, Outsides(cs)).ledger)
    decreases |cs|
  {
    hide ElsewhereOnly, Apply;
    if cs != [] {
      assert Outsides(cs)[1..] == Outsides(cs[1..]);
      OutsidesTouchLedger(After(s, Outside(cs[0])), cs[1..]);
    }
  }

  /** The system with the persistence of one order still awaited, after the others have run. */
  ghost function Awaited(s: System, start: Step, a: Await): System
    requires Enabled(s, start) && Possible(After(s, start), Outsides(a.others))
  {
    RunFrom(After(s, start), Outsides(a.others))
  }

  function ServedSteps(start: Step, a: Await): seq<Step> {
    [start] + Outsides(a.others) + [Land(a.delivery)]
  }

  /** One order served: it takes off, others run, it lands. */
  lemma ServedRun(s: System, start: Step, a: Await)
    requires Enabled(s, start) && After(s, start).flight.Some? && Possible(After(s, start), Outsides(a.others))
    ensures Possible(s, ServedSteps(start, a))
    ensures Awaited(s, start, a) == After(s, start).(ledger := Awaited(s, start, a).ledger)
    ensures RunFrom(s, ServedSteps(start, a)) == After(Awaited(s, start, a), Land(a.delivery))
  {
    hide Enabled, After, Outsides;
    OutsidesTouchLedger(After(s, start), a.others);
    LandEnabled(Awaited(s, start, a), a.delivery);
    OneStep(Awaited(s, start, a), Land(a.delivery));
    RunConcat(After(s, start), Outsides(a.others), [Land(a.delivery)]);
    FirstStep(s, start, Outsides(a.others) + [Land(a.delivery)]);
    assert ServedSteps(start, a) == [start] + (Outsides(a.others) + [Land(a.delivery)]);
    hide Possible, RunFrom;
  }

  lemma FirstStep(s: System, step: Step, rest: seq<Step>)
    requires Enabled(s, step) && Possible(After(s, step), rest)
    ensures Possible(s, [step] + rest) && RunFrom(s, [step] + rest) == RunFrom(After(s, step), rest)
  {
    hide Enabled, After;
    assert ([step] + rest)[1..] == rest;
  }

  lemma LandEnabled(s: System, delivery: Delivery)
    requires s.flight.Some?
    ensures Enabled(s, Land(delivery))
  {
  }

  lemma OneStep(s: System, step: Step)
    requires Enabled(s, step)
    ensures Possible(s, [step]) && RunFrom(s, [step]) == After(s, step)
  {
    assert [step][1..] == [];
  }

  /** A pass as it runs: where it ends, the steps it took, how each persistence went, and what it reports. */
  datatype Passed = Passed(end: System, steps: seq<Step>, outcomes: seq<Engine.Persisted>, result: Result<()>)

  /** What a pass of a book does to the system, order by order. */
  ghost predicate BookPass(s: System, ids: seq<OrderId>, book: Engine.Book, awaits: seq<Await>, p: Passed)
    requires |awaits| == |ids|
    decreases |ids|
  {
    |p.outcomes| == |ids| &&
    if ids == [] then p.end == s && p.steps == [] && p.result == Ok(()) else
      var id := ids[0];
      var rest := Passed(p.end, p.steps, p.outcomes[1..], p.result);
      if !Engine.Matches(Inside(s, map[]), id, book) then BookPass(s, ids[1..], book, awaits[1..], rest)
      else
        var m := Engine.MatchOrder(s.orders[id], book, s.market, s.schedule);
        if m.Err? then p.end == s && p.steps == [] && p.result == Err(m.code)
        else if Engine.Idle(s.orders[id], m.value) then BookPass(s, ids[1..], book, awaits[1..], rest)
        else
          var start := Match(id, book);
          s.flight.None? && Possible(After(s, start), Outsides(awaits[0].others)) &&
          var awaited := Awaited(s, start, awaits[0]);
          awaited.flight.Some? && p.outcomes[0] == PersistedAs(awaited, awaits[0].delivery) &&
          var next := After(awaited, Land(awaits[0].delivery));
          var served := ServedSteps(start, awaits[0]);
          served <= p.steps &&
          if p.outcomes[0].Refused? then p.end == next && p.steps == served && p.result == Err(SERVICE_UNAVAILABLE)
          else BookPass(next, ids[1..], book, awaits[1..],
                        Passed(p.end, p.steps[|served|..], p.outcomes[1..], p.result))
  }

  /** The engine's maps after one order of a pass has been served. */
  lemma ServedMatch(s: System, id: OrderId, book: Engine.Book, a: Await, latest: map<string, Engine.Envelope>)
    requires Enabled(s, Match(id, book)) && Possible(After(s, Match(id, book)), Outsides(a.others))
    ensures var awaited := Awaited(s, Match(id, book), a);
            var m := Engine.MatchOrder(s.orders[id], book, s.market, s.schedule).value;
            && awaited.flight.Some? && Enabled(awaited, Land(a.delivery))
            && var next := After(awaited, Land(a.delivery));
            next.flight.None? && next.market == s.market && next.schedule == s.schedule
            && Inside(next, latest)
               == Inside(s, latest).(orders := s.orders[id :=
                    Engine.Settled(s.orders[id], m, PersistedAs(awaited, a.delivery))])
            && Possible(s, ServedSteps(Match(id, book), a)) && RunFrom(s, ServedSteps(Match(id, book), a)) == next
  {
    hide Engine.MatchOrder, Engine.Idle, PersistedAs, Possible, RunFrom, Apply, FlightCommand;
    ServedRun(s, Match(id, book), a);
  }

  /**
    What `#matchBook` does to the engine's maps is a run of single steps, whatever other transactions
    commit while its persistence calls are awaited.
   */
  lemma {:induction false} BookPassIsRun(s: System, ids: seq<OrderId>, book: Engine.Book, awaits: seq<Await>, p: Passed,
                                         latest: map<string, Engine.Envelope>)
    requires |awaits| == |ids| && s.flight.None? && BookPass(s, ids, book, awaits, p)
    ensures Possible(s, p.steps) && RunFrom(s, p.steps) == p.end && p.end.flight.None?
    ensures |p.outcomes| == |ids|
            && Engine.MatchPass(Inside(s, latest), ids, book, s.market, s.schedule, p.outcomes)
               == (Inside(p.end, latest), p.result)
    decreases |ids|
  {
    hide Engine.MatchOrder, Engine.Idle, Engine.Settled, After, Awaited, PersistedAs;
    if ids != [] {
      var id := ids[0];
      var rest := Passed(p.end, p.steps, p.outcomes[1..], p.result);
      if !Engine.Matches(Inside(s, map[]), id, book) {
        BookPassIsRun(s, ids[1..], book, awaits[1..], rest, latest);
      } else {
        var m := Engine.MatchOrder(s.orders[id], book, s.market, s.schedule);
        if m.Ok? {
          if Engine.Idle(s.orders[id], m.value) {
            BookPassIsRun(s, ids[1..], book, awaits[1..], rest, latest);
          } else {
            ServedMatch(s, id, book, awaits[0], latest);
            var served := ServedSteps(Match(id, book), awaits[0]);
            var next := After(Awaited(s, Match(id, book), awaits[0]), Land(awaits[0].delivery));
            if !p.outcomes[0].Refused? {
              var later := Passed(p.end, p.steps[|served|..], p.outcomes[1..], p.result);
              BookPassIsRun(next, ids[1..], book, awaits[1..], later, latest);
              RunConcat(s, served, later.steps);
              assert served + later.steps == p.steps;
            }
          }
        }
      }
    }
  }

  /** Whatever the deliveries, a book pass with nobody else running exists. */
  lemma {:induction false} BookPassExists(s: System, ids: seq<OrderId>, book: Engine.Book, awaits: seq<Await>)
      returns (p: Passed)
    requires |awaits| == |ids| && s.flight.None? && forall i | 0 <= i < |awaits| :: awaits[i].others == []
    ensures BookPass(s, ids, book, awaits, p)
    decreases |ids|
  {
    hide Engine.MatchOrder, Engine.Idle, Engine.Settled, After, PersistedAs;
    if ids == [] {
      p := Passed(s, [], [], Ok(()));
    } else {
      var id := ids[0];
      assert forall i | 0 <= i < |awaits[1..]| :: awaits[1..][i].others == [];
      var m := if Engine.Matches(Inside(s, map[]), id, book)
               then Engine.MatchOrder(s.orders[id], book, s.market, s.schedule) else Err(INVALID_ORDER);
      if Engine.Matches(Inside(s, map[]), id, book) && m.Err? {
        p := Passed(s, [], seq(|ids|, _ => Engine.Refused), Err(m.code));
      } else if !Engine.Matches(Inside(s, map[]), id, book) || Engine.Idle(s.orders[id], m.value) {
        var rest := BookPassExists(s, ids[1..], book, awaits[1..]);
        p := Passed(rest.end, rest.steps, [Engine.Refused] + rest.outcomes, rest.result);
        assert p.outcomes[1..] == rest.outcomes;
      } else {
        var start := Match(id, book);
        assert Outsides(awaits[0].others) == [];
        ServedMatch(s, id, book, awaits[0], map[]);
        var awaited := Awaited(s, start, awaits[0]);
        var next, outcome := After(awaited, Land(awaits[0].delivery)), PersistedAs(awaited, awaits[0].delivery);
        var served := ServedSteps(start, awaits[0]);
        if outcome.Refused? {
          p := Passed(next, served, seq(|ids|, _ => Engine.Refused), Err(SERVICE_UNAVAILABLE));
        } else {
          var rest := BookPassExists(next, ids[1..], book, awaits[1..]);
          p := Passed(rest.end, served + rest.steps, [outcome] + rest.outcomes, rest.result);
          assert p.outcomes[1..] == rest.outcomes && p.steps[|served|..] == rest.steps;
        }
      }
    }
  }

  /** What a trade does to the system, one waiting conditional order after the other. */
  ghost predicate TradePass(s: System, ids: seq<OrderId>, symbol: string, price: Money, awaits: seq<Await>,
                            failures: nat, p: Passed)
    requires |awaits| == |ids|
    decreases |ids|
  {
    |p.outcomes| == |ids| &&
    if ids == [] then
      p.end == s && p.steps == [] && p.result == if failures == 0 then Ok(()) else Err(SERVICE_UNAVAILABLE)
    else
      var id := ids[0];
      var rest := Passed(p.end, p.steps, p.outcomes[1..], p.result);
      if !Engine.Waits(Inside(s, map[]), id, symbol)
      then TradePass(s, ids[1..], symbol, price, awaits[1..], failures, rest)
      else
        var crossed := Engine.EvaluateConditional(s.conditional[id], price);
        if crossed.Err? then p.end == s && p.steps == [] && p.result == Err(crossed.code)
        else if !crossed.value then TradePass(s, ids[1..], symbol, price, awaits[1..], failures, rest)
        else
          var start := Trigger(id, price);
          s.flight.None? && Possible(After(s, start), Outsides(awaits[0].others)) &&
          var awaited := Awaited(s, start, awaits[0]);
          awaited.flight.Some? && p.outcomes[0] == PersistedAs(awaited, awaits[0].delivery) &&
          var next := After(awaited, Land(awaits[0].delivery));
          var served := ServedSteps(start, awaits[0]);
          served <= p.steps &&
          TradePass(next, ids[1..], symbol, price, awaits[1..],
                    if p.outcomes[0].Committed? then failures else failures + 1,
                    Passed(p.end, p.steps[|served|..], p.outcomes[1..], p.result))
  }

  /** Whether each trigger went through. */
  function Through(outcomes: seq<Engine.Persisted>): (flags: seq<bool>)
    ensures |flags| == |outcomes| && forall i | 0 <= i < |flags| :: flags[i] == outcomes[i].Committed?
  {
    seq(|outcomes|, i requires 0 <= i < |outcomes| => outcomes[i].Committed?)
  }

  lemma ServedTrigger(s: System, id: OrderId, price: Money, a: Await, latest: map<string, Engine.Envelope>)
    requires Enabled(s, Trigger(id, price)) && Possible(After(s, Trigger(id, price)), Outsides(a.others))
    ensures var awaited := Awaited(s, Trigger(id, price), a);
            var order := s.conditional[id];
            && awaited.flight.Some? && Enabled(awaited, Land(a.delivery))
            && var next := After(awaited, Land(a.delivery));
            next.flight.None? && next.market == s.market && next.schedule == s.schedule
            && Inside(next, latest)
               == Engine.Marked(Inside(s, latest), id,
                    if PersistedAs(awaited, a.delivery).Committed? then order.(status := TRIGGERED) else order)
            && Possible(s, ServedSteps(Trigger(id, price), a)) && RunFrom(s, ServedSteps(Trigger(id, price), a)) == next
  {
    hide PersistedAs, Possible, RunFrom, After, Enabled, ServedSteps, Awaited;
    TakesOff(s, id, price);
    ServedRun(s, Trigger(id, price), a);
    LandEnabled(Awaited(s, Trigger(id, price), a), a.delivery);
    TriggerLands(s, id, price, Awaited(s, Trigger(id, price), a), a.delivery, latest);
  }

  lemma TakesOff(s: System, id: OrderId, price: Money)
    requires Enabled(s, Trigger(id, price))
    ensures s.flight.None? && id in s.conditional && s.conditional[id].status == PENDING_TRIGGER
    ensures After(s, Trigger(id, price)).flight.Some?
  {
  }

  lemma TriggerLands(s: System, id: OrderId, price: Money, awaited: System, delivery: Delivery,
                     latest: map<string, Engine.Envelope>)
    requires Enabled(s, Trigger(id, price)) && awaited == After(s, Trigger(id, price)).(ledger := awaited.ledger)
    requires Enabled(awaited, Land(delivery))
    ensures var order := s.conditional[id];
            var next := After(awaited, Land(delivery));
            && next.flight.None? && next.market == s.market && next.schedule == s.schedule
            && awaited.flight.Some?
            && Inside(next, latest)
               == Engine.Marked(Inside(s, latest), id,
                    if PersistedAs(awaited, delivery).Committed? then order.(status := TRIGGERED) else order)
  {
    hide PersistedAs, Apply, FlightCommand, ElsewhereOnly, FreshFor, Engine.MatchOrder, Engine.Idle;
  }

  /** And so is what `onTrade` does, its failed triggers put back. */
  lemma {:induction false} TradePassIsRun(s: System, ids: seq<OrderId>, symbol: string, price: Money,
                                          awaits: seq<Await>,
                                          failures: nat, p: Passed, latest: map<string, Engine.Envelope>)
    requires |awaits| == |ids| && s.flight.None? && TradePass(s, ids, symbol, price, awaits, failures, p)
    ensures Possible(s, p.steps) && RunFrom(s, p.steps) == p.end && p.end.flight.None?
    ensures |p.outcomes| == |ids|
            && Engine.TradePass(Inside(s, latest), ids, symbol, price, Through(p.outcomes), failures)
               == (Inside(p.end, latest), p.result)
    decreases |ids|
  {
    hide Engine.EvaluateConditional, Engine.Marked, After, Awaited, PersistedAs;
    if ids != [] {
      var id := ids[0];
      var rest := Passed(p.end, p.steps, p.outcomes[1..], p.result);
      assert Through(p.outcomes)[1..] == Through(p.outcomes[1..]);
      if !Engine.Waits(Inside(s, map[]), id, symbol) {
        TradePassIsRun(s, ids[1..], symbol, price, awaits[1..], failures, rest, latest);
      } else {
        var crossed := Engine.EvaluateConditional(s.conditional[id], price);
        if crossed == Ok(false) {
          TradePassIsRun(s, ids[1..], symbol, price, awaits[1..], failures, rest, latest);
        } else if crossed == Ok(true) {
          ServedTrigger(s, id, price, awaits[0], latest);
          var served := ServedSteps(Trigger(id, price), awaits[0]);
          var next := After(Awaited(s, Trigger(id, price), awaits[0]), Land(awaits[0].delivery));
          var later := Passed(p.end, p.steps[|served|..], p.outcomes[1..], p.result);
          TradePassIsRun(next, ids[1..], symbol, price, awaits[1..],
                         if p.outcomes[0].Committed? then failures else failures + 1, later, latest);
          RunConcat(s, served, later.steps);
          assert served + later.steps == p.steps;
        }
      }
    }
  }

  // ---- Agreement across passes ----

  lemma {:induction false} NoLossNoHarm(s: System, steps: seq<Step>)
    requires Possible(s, steps) && Land(Lost) !in steps
    ensures LossesHarmless(s, steps)
    decreases |steps|
  {
    hide Enabled, After;
    if steps != [] {
      NoLossNoHarm(After(s, steps[0]), steps[1..]);
    }
  }

  lemma {:induction false} BookPassLoses(s: System, ids: seq<OrderId>, book: Engine.Book, awaits: seq<Await>, p: Passed)
    requires |awaits| == |ids| && BookPass(s, ids, book, awaits, p)
    requires forall i | 0 <= i < |awaits| :: awaits[i].delivery != Lost
    ensures Land(Lost) !in p.steps
    decreases |ids|
  {
    hide Engine.MatchOrder, Engine.Idle, After, Awaited, PersistedAs;
    if ids != [] {
      var id := ids[0];
      assert forall i | 0 <= i < |awaits[1..]| :: awaits[1..][i].delivery != Lost;
      var rest := Passed(p.end, p.steps, p.outcomes[1..], p.result);
      if !Engine.Matches(Inside(s, map[]), id, book) {
        BookPassLoses(s, ids[1..], book, awaits[1..], rest);
      } else {
        var m := Engine.MatchOrder(s.orders[id], book, s.market, s.schedule);
        if m.Ok? {
          if Engine.Idle(s.orders[id], m.value) {
            BookPassLoses(s, ids[1..], book, awaits[1..], rest);
          } else {
            var served := ServedSteps(Match(id, book), awaits[0]);
            assert Land(Lost) !in served;
            if !p.outcomes[0].Refused? {
              var next := After(Awaited(s, Match(id, book), awaits[0]), Land(awaits[0].delivery));
              var later := Passed(p.end, p.steps[|served|..], p.outcomes[1..], p.result);
              BookPassLoses(next, ids[1..], book, awaits[1..], later);
              assert p.steps == served + later.steps;
            }
          }
        }
      }
    }
  }

  /**
    A book pass in which every persistence either ran or failed leaves the engine agreeing with the
    ledger, whatever committed meanwhile and wherever the pass stopped.
   */
  lemma BookPassKeepsAgreement(s: System, ids: seq<OrderId>, book: Engine.Book, awaits: seq<Await>, p: Passed)
    requires Agrees(s) && RowsMatch(s.ledger) && |awaits| == |ids| && s.flight.None?
    requires BookPass(s, ids, book, awaits, p)
    requires forall i | 0 <= i < |awaits| :: awaits[i].delivery != Lost
    ensures Agrees(p.end) && RowsMatch(p.end.ledger)
    ensures forall id | id in p.end.orders ::
              && id in p.end.ledger.orders
              && (IsTerminal(p.end.ledger.orders[id].status)
                  || p.end.orders[id].filled == FilledBy(p.end.ledger.fills, id))
  {
    BookPassIsRun(s, ids, book, awaits, p, map[]);
    BookPassLoses(s, ids, book, awaits, p);
    NoLossNoHarm(s, p.steps);
    TenureKeepsAgreement(s, p.steps);
    hide BookPass, RunFrom, Possible, LossesHarmless, FilledBy;
    forall id | id in p.end.orders
      ensures && id in p.end.ledger.orders
              && (IsTerminal(p.end.ledger.orders[id].status)
                  || p.end.orders[id].filled == FilledBy(p.end.ledger.fills, id))
    {
      assert AgreesWith(View(p.end, id), p.end.ledger.orders[id], p.end.market);
    }
  }
}
