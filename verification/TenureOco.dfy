/**
  OCO groups over a tenure: the matcher never fills a leg, so what the ledger promises of runs in
  which nobody does holds of everything one leader's engine and everyone else do together.
 */
module TenureOco {
  import opened Types
  import opened LedgerModel
  import opened LedgerInvariants
  import opened LedgerSteps
  import opened LedgerOco
  import opened Tenure
  import Engine

  // ---- No transaction changes which group an order belongs to ----

  ghost predicate GroupsFixed(t: Tables, after: Tables) {
    forall id | id in t.orders :: id in after.orders && after.orders[id].group == t.orders[id].group
  }

  lemma TriggerFixes(t: Tables, g: TriggerCommand, after: Tables)
    requires g.schedule.Valid() && PersistTrigger(t, g) == Ok(after)
    ensures GroupsFixed(t, after)
  {
    if g.order in t.orders && IsTerminal(t.orders[g.order].status) {
      assert after == t;
    } else {
      hide PersistTrigger, Storable, WinnerSlotFree;
      var fill := TriggerRecords(t, g, after);
    }
  }

  lemma CancelFixes(t: Tables, x: CancelCommand, after: Tables)
    requires CancelOrder(t, x) == Ok(after)
    ensures GroupsFixed(t, after)
  {
    hide Releasable, GivenBack;
  }

  lemma PlacementFixes(t: Tables, c: Command, after: Tables)
    requires (c.Place? || c.PlaceOco?) && Attempt(t, c) == Ok(after)
    ensures GroupsFixed(t, after)
  {
    hide PlaceFresh, PlaceOcoFresh, SameTotals;
    if after != t {
      match c
      case Place(p) => PlaceFrame(t, p, after);
      case PlaceOco(p) => OcoFrame(t, p, after);
    }
  }

  lemma StepFixes(t: Tables, c: Command)
    requires ValidCommand(c)
    ensures GroupsFixed(t, Apply(t, c))
  {
    hide PersistFill, PersistTrigger, CancelOrder, CommitTradingMutation, CommitOcoPlacement;
    var r := Attempt(t, c);
    if r.Ok? {
      match c
      case Place(p) => PlacementFixes(t, c, r.value);
      case PlaceOco(p) => PlacementFixes(t, c, r.value);
      case Fills(f) => FillRecords(t, f, r.value);
      case Triggers(g) => TriggerFixes(t, g, r.value);
      case Cancels(x) => CancelFixes(t, x, r.value);
      case Acquires(m) =>
      case Expires(x) =>
    }
  }

  // ---- The engine never matches a leg ----

  predicate IsGroupLeg(t: Tables, id: OrderId) {
    id in t.orders && t.orders[id].group.Some?
  }

  predicate FlightWaits(t: Tables, f: Flight) {
    && f.id in t.orders
    && match f
       case FillInFlight(id, _, _) => !IsGroupLeg(t, id)
       case TriggerInFlight(_, before, _) => !before.Matchable()
  }

  /**
    No leg can be matched, is being filled, or will be put back as something that can be matched. An
    engine that holds no order yet has it.
   */
  ghost predicate LegsWait(s: System) {
    && (forall id | id in s.orders :: id in s.ledger.orders && (IsGroupLeg(s.ledger, id) ==> !s.orders[id].Matchable()))
    && (forall id | id in s.conditional ::
          id in s.ledger.orders && (IsGroupLeg(s.ledger, id) ==> !s.conditional[id].Matchable()))
    && (s.flight.Some? ==> FlightWaits(s.ledger, s.flight.value))
  }

  lemma LedgerMoves(s: System, ledger: Tables)
    requires LegsWait(s) && GroupsFixed(s.ledger, ledger)
    ensures LegsWait(s.(ledger := ledger))
  {
  }

  lemma LandKeepsLegs(s: System, delivery: Delivery)
    requires LegsWait(s) && s.flight.Some?
    ensures LegsWait(Landed(s, delivery))
  {
    hide PersistedAs, Engine.Settled;
  }

  lemma LandMoves(s: System, delivery: Delivery)
    requires s.flight.Some? && Enabled(s, Land(delivery)) && LegsWait(Landed(s, delivery))
    ensures LegsWait(After(s, Land(delivery)))
  {
    hide LegsWait, Apply, FlightCommand, PersistedAs;
    StepFixes(s.ledger, FlightCommand(s));
    if !delivery.Failed? {
      LedgerMoves(Landed(s, delivery), Apply(s.ledger, FlightCommand(s)));
    } else {
      assert Landed(s, delivery).(ledger := s.ledger) == Landed(s, delivery);
    }
  }

  lemma StepKeepsLegs(s: System, step: Step)
    requires LegsWait(s) && Enabled(s, step)
    ensures LegsWait(After(s, step))
  {
    match step
    case Outside(c) =>
      hide Apply, ElsewhereOnly, LegsWait;
      StepFixes(s.ledger, c);
      LedgerMoves(s, Apply(s.ledger, c));
    case Land(delivery) =>
      hide LegsWait, After, Landed;
      LandKeepsLegs(s, delivery);
      LandMoves(s, delivery);
    case Register(id, order) =>
      hide LegsWait, After, Enabled;
      RegisterKeepsLegs(s, id, order);
    case Match(id, book) =>
      hide LegsWait, After, Enabled;
      MatchKeepsLegs(s, id, book);
    case Trigger(id, price) =>
      hide LegsWait, After, Enabled;
      TriggerKeepsLegs(s, id, price);
    case Notify(id) =>
      hide LegsWait, After, Enabled;
      NotifyKeepsLegs(s, id);
  }

  lemma RegisterKeepsLegs(s: System, id: OrderId, order: Engine.PaperOrder)
    requires LegsWait(s) && Enabled(s, Register(id, order))
    ensures LegsWait(After(s, Register(id, order)))
  {
    hide Apply, FlightCommand, ElsewhereOnly, Engine.MatchOrder, Engine.Idle, Landed;
  }

  lemma MatchKeepsLegs(s: System, id: OrderId, book: Engine.Book)
    requires LegsWait(s) && Enabled(s, Match(id, book))
    ensures LegsWait(After(s, Match(id, book)))
  {
    hide Apply, FlightCommand, ElsewhereOnly, FreshFor, Engine.MatchOrder, Engine.Idle, Engine.Updated, Landed;
  }

  lemma TriggerKeepsLegs(s: System, id: OrderId, price: Money)
    requires LegsWait(s) && Enabled(s, Trigger(id, price))
    ensures LegsWait(After(s, Trigger(id, price)))
  {
    hide Apply, FlightCommand, ElsewhereOnly, FreshFor, Engine.MatchOrder, Engine.Idle, Landed;
  }

  lemma NotifyKeepsLegs(s: System, id: OrderId)
    requires LegsWait(s) && Enabled(s, Notify(id))
    ensures LegsWait(After(s, Notify(id)))
  {
    hide Apply, FlightCommand, ElsewhereOnly, FreshFor, Engine.MatchOrder, Engine.Idle, Landed;
  }

  // ---- A tenure is a run the groups survive ----

  /** Whatever others do for groups is what the services do. */
  ghost predicate OthersGroups(s: System, steps: seq<Step>)
    requires Possible(s, steps)
    decreases |steps|
  {
    steps != [] ==>
      && (steps[0].Outside? ==> GroupCommand(s.ledger, steps[0].command))
      && OthersGroups(After(s, steps[0]), steps[1..])
  }

  lemma StepIsGroupCommand(s: System, step: Step)
    requires LegsWait(s) && Enabled(s, step) && (step.Outside? ==> GroupCommand(s.ledger, step.command))
    ensures CommandOf(s, step).Some? ==> GroupCommand(s.ledger, CommandOf(s, step).value)
  {
    hide ElsewhereOnly;
  }

  /** The transactions of a tenure never fill a leg, so long as nobody outside it does. */
  lemma {:induction false} TenureIsGroupRun(s: System, steps: seq<Step>)
    requires LegsWait(s) && Possible(s, steps) && OthersGroups(s, steps)
    ensures GroupRun(s.ledger, LedgerRun(s, steps))
    decreases |steps|
  {
    hide Apply, Enabled, After, CommandOf, ValidCommand, LegsWait, GroupCommand;
    if steps != [] {
      var next := After(s, steps[0]);
      StepKeepsLegs(s, steps[0]);
      TenureIsGroupRun(next, steps[1..]);
      StepOfLedger(s, steps[0]);
      StepIsGroupCommand(s, steps[0]);
      var c, rest := CommandOf(s, steps[0]), LedgerRun(next, steps[1..]);
      if c.Some? {
        assert LedgerRun(s, steps)[0] == c.value && LedgerRun(s, steps)[1..] == rest;
      } else {
        assert LedgerRun(s, steps) == rest;
      }
    }
  }

  /**
    Arbitration over a whole tenure: whatever books, trades, lost results, registrations,
    cancellations and other transactions come, a live group ends with every leg waiting and its
    reservation untouched, or with at most one leg FILLED, the others CANCELLED, and the reservation
    released by exactly one transaction.
   */
  lemma TenureArbitration(s: System, steps: seq<Step>, g: GroupId) returns (hold: ReservationId)
    requires LegsWait(s) && Possible(s, steps) && OthersGroups(s, steps)
    requires GroupsSound(s.ledger) && g in s.ledger.groups && s.ledger.groups[g].active
    ensures hold in s.ledger.reservations && s.ledger.reservations[hold].owner == OfGroup(g)
    ensures var end := RunFrom(s, steps).ledger;
            && g in end.groups
            && Releases(s.ledger, LedgerRun(s, steps), hold) == (if end.groups[g].active then 0 else 1)
            && (end.groups[g].active ==> forall o | LegOf(end, o, g) :: end.orders[o].status == PENDING_TRIGGER)
            && (!end.groups[g].active ==>
                  && (forall o | LegOf(end, o, g) :: end.orders[o].status in {FILLED, CANCELLED})
                  && (forall o, p | LegOf(end, o, g) && LegOf(end, p, g) && o != p ::
                        end.orders[o].status == FILLED ==> end.orders[p].status == CANCELLED))
  {
    hide LegsWait, OthersGroups, GroupsSound, LedgerRun, RunFrom, Releases, Run, GroupRun, ValidCommands, Possible;
    TenureIsLedgerRun(s, steps);
    TenureIsGroupRun(s, steps);
    hold := OcoArbitration(s.ledger, LedgerRun(s, steps), g);
  }
}
