/**
  Arbitration of OCO groups by the ledger: triggers on either leg and cancellations of either,
  interleaved with everything else, resolve a group once and release its reservation once.
 */
module LedgerOco {
  import opened Types
  import opened Execution
  import opened LedgerModel
  import opened LedgerInvariants
  import opened LedgerSteps

  // ---- What holds between transactions ----

  /** An ACTIVE group has every leg waiting; a resolved one has every leg filled or cancelled. */
  ghost predicate LegSound(t: Tables, o: OrderRow) {
    o.group.Some? ==>
      && o.group.value in t.groups
      && (if t.groups[o.group.value].active then o.status == PENDING_TRIGGER && !o.winner
          else o.status in {FILLED, CANCELLED} && (o.winner <==> o.status == FILLED))
  }

  ghost predicate LegsSound(t: Tables) {
    forall o | o in t.orders :: LegSound(t, t.orders[o])
  }

  /** No two legs of a group are FILLED. */
  ghost predicate OneWinner(t: Tables) {
    forall o, p | o in t.orders && p in t.orders && o != p && t.orders[o].group.Some?
                  && t.orders[o].group == t.orders[p].group ::
      !(t.orders[o].status == FILLED && t.orders[p].status == FILLED)
  }

  /** A group's reservation is released exactly when the group is resolved. */
  ghost predicate HoldSound(t: Tables, row: ReservationRow) {
    row.owner.OfGroup? ==>
      row.owner.group in t.groups && (row.released <==> !t.groups[row.owner.group].active)
  }

  ghost predicate HoldsSound(t: Tables) {
    forall r | r in t.reservations :: HoldSound(t, t.reservations[r])
  }

  ghost predicate OneHold(t: Tables) {
    forall r, s | r in t.reservations && s in t.reservations && t.reservations[r].owner.OfGroup?
                  && t.reservations[r].owner == t.reservations[s].owner :: r == s
  }

  ghost predicate Held(t: Tables, g: GroupId) {
    exists r :: r in t.reservations && t.reservations[r].owner == OfGroup(g)
  }

  ghost predicate AllHeld(t: Tables) {
    forall g | g in t.groups :: Held(t, g)
  }

  ghost predicate GroupsSound(t: Tables) {
    LegsSound(t) && OneWinner(t) && HoldsSound(t) && OneHold(t) && AllHeld(t)
  }

  /**
    The commands the services issue for groups: only an OCO placement makes legs, both waiting
    for their trigger, and the matcher never fills a leg.
   */
  ghost predicate GroupCommand(t: Tables, c: Command) {
    match c
    case Place(p) => p.order.group.None?
    case PlaceOco(p) => p.firstLeg.status == PENDING_TRIGGER && p.secondLeg.status == PENDING_TRIGGER
    case Fills(f) => f.order in t.orders ==> t.orders[f.order].group.None?
    case _ => true
  }

  // ---- Each transaction ----

  lemma PlaceSound(t: Tables, p: PlaceCommand, after: Tables)
    requires GroupsSound(t) && p.order.group.None? && PlaceFresh(t, p) == Ok(after)
    ensures GroupsSound(after)
  {
    hide PlaceFresh, SameTotals, LegsSound, OneWinner, HoldsSound, OneHold, AllHeld, Recorded;
    PlaceFrame(t, p, after);
    PlacedLeg(t, p.id, p.Row().(filled := 0, winner := false), after);
    if Recorded(p).Some? {
      RecordedHasId(p);
      PlacedHold(t, p.reservation.value,
                 ReservationRow(OfOrder(p.id), Recorded(p).value.account, Recorded(p).value.amount, false), after);
    } else {
      SameHolds(t, after);
    }
  }

  lemma PlacedLeg(t: Tables, id: OrderId, row: OrderRow, after: Tables)
    requires LegsSound(t) && OneWinner(t) && row.group.None?
    requires after.orders == t.orders[id := row] && after.groups == t.groups
    ensures LegsSound(after) && OneWinner(after)
  {
    assert forall o | o in t.orders :: LegSound(t, t.orders[o]);
  }

  lemma PlacedHold(t: Tables, r: ReservationId, row: ReservationRow, after: Tables)
    requires HoldsSound(t) && OneHold(t) && AllHeld(t) && row.owner.OfOrder?
    requires r !in t.reservations && after.reservations == t.reservations[r := row] && after.groups == t.groups
    ensures HoldsSound(after) && OneHold(after) && AllHeld(after)
  {
    assert forall k | k in t.reservations :: HoldSound(t, t.reservations[k]);
    forall g | g in after.groups ensures Held(after, g) {
      assert Held(t, g);
      var k :| k in t.reservations && t.reservations[k].owner == OfGroup(g);
      assert k in after.reservations && after.reservations[k].owner == OfGroup(g);
    }
  }

  lemma SameHolds(t: Tables, after: Tables)
    requires HoldsSound(t) && OneHold(t) && AllHeld(t)
    requires after.reservations == t.reservations && after.groups == t.groups
    ensures HoldsSound(after) && OneHold(after) && AllHeld(after)
  {
    assert forall k | k in t.reservations :: HoldSound(t, t.reservations[k]);
    assert forall g | g in t.groups :: Held(t, g);
  }

  lemma PlaceOcoSound(t: Tables, p: OcoCommand, after: Tables)
    requires GroupsSound(t) && PlaceOcoFresh(t, p) == Ok(after)
    requires p.firstLeg.status == PENDING_TRIGGER && p.secondLeg.status == PENDING_TRIGGER
    ensures GroupsSound(after)
  {
    hide PlaceOcoFresh, SameTotals;
    OcoFrame(t, p, after);
    NewLegs(t, p, after);
    NewHold(t, p, after);
    hide LegsSound, OneWinner, HoldsSound, OneHold, AllHeld;
  }

  lemma NewLegs(t: Tables, p: OcoCommand, after: Tables)
    requires LegsSound(t) && OneWinner(t)
    requires p.firstLeg.status == PENDING_TRIGGER && p.secondLeg.status == PENDING_TRIGGER
    requires p.group !in t.groups && after.groups == t.groups[p.group := GroupRow(p.session, true)]
    requires after.orders == t.orders[p.first := p.FirstRow().(filled := 0, winner := false)]
                                     [p.second := p.SecondRow().(filled := 0, winner := false)]
    ensures LegsSound(after) && OneWinner(after)
  {
    assert forall o | o in t.orders :: LegSound(t, t.orders[o]);
  }

  lemma NewHold(t: Tables, p: OcoCommand, after: Tables)
    requires HoldsSound(t) && OneHold(t) && AllHeld(t)
    requires p.group !in t.groups && after.groups == t.groups[p.group := GroupRow(p.session, true)]
    requires p.reservation !in t.reservations
    requires after.reservations == t.reservations[p.reservation :=
               ReservationRow(OfGroup(p.group), p.hold.account, p.hold.amount, false)]
    ensures HoldsSound(after) && OneHold(after) && AllHeld(after)
  {
    assert forall r | r in t.reservations :: HoldSound(t, t.reservations[r]);
    forall g | g in after.groups ensures Held(after, g) {
      if g == p.group {
        assert after.reservations[p.reservation].owner == OfGroup(g);
      } else {
        var r :| r in t.reservations && t.reservations[r].owner == OfGroup(g);
        assert r in after.reservations && after.reservations[r].owner == OfGroup(g);
      }
    }
  }

  /** Rows written for an order outside any group leave every group alone. */
  lemma OutsideSound(t: Tables, id: OrderId, row: OrderRow, r: Option<ReservationId>, released: bool, after: Tables)
    requires GroupsSound(t) && id in t.orders && t.orders[id].group.None? && row.group.None?
    requires after.orders == t.orders[id := row] && after.groups == t.groups
    requires Wrote(t, OfOrder(id), r, released, after)
    ensures GroupsSound(after)
  {
    assert LegsSound(after) by {
      hide Wrote, HoldsSound, OneHold, AllHeld;
      assert forall o | o in t.orders :: LegSound(t, t.orders[o]);
    }
    assert OneWinner(after) by {
      hide Wrote, HoldsSound, OneHold, AllHeld;
    }
    hide LegsSound, OneWinner;
    HeldStill(t, OfOrder(id), r, released, after);
    hide AllHeld;
    assert forall k | k in t.reservations :: HoldSound(t, t.reservations[k]);
  }

  lemma HeldStill(t: Tables, owner: Owner, r: Option<ReservationId>, released: bool, after: Tables)
    requires AllHeld(t) && Wrote(t, owner, r, released, after) && after.groups.Keys == t.groups.Keys
    ensures AllHeld(after)
  {
    forall g | g in after.groups ensures Held(after, g) {
      var k :| k in t.reservations && t.reservations[k].owner == OfGroup(g);
      assert k in after.reservations && after.reservations[k].owner == OfGroup(g);
    }
  }

  lemma FillSound(t: Tables, c: FillCommand, after: Tables)
    requires GroupsSound(t) && c.schedule.Valid() && PersistFill(t, c) == Ok(after)
    requires c.order in t.orders ==> t.orders[c.order].group.None?
    ensures GroupsSound(after)
  {
    hide PersistFill, SettleFill, Storable, GroupsSound, Wrote;
    FillRecords(t, c, after);
    var terminal, desired := FillCommitted(t, c, after);
    var order := t.orders[c.order];
    var recorded := RecordFills(t, c, order);
    var r := SettleWrites(recorded, c.order, order, c.fills, terminal, desired, after);
    SameRows(t, recorded, OfOrder(c.order), r, terminal, after);
    OutsideSound(t, c.order, order.(filled := c.filledAfter, status := c.nextStatus), r, terminal, after);
  }

  lemma SameRows(t: Tables, u: Tables, owner: Owner, r: Option<ReservationId>, released: bool, after: Tables)
    requires u.reservations == t.reservations && Wrote(u, owner, r, released, after)
    ensures Wrote(t, owner, r, released, after)
  {
    assert forall k | k in t.reservations :: OpenFor(u, owner, k) <==> OpenFor(t, owner, k);
  }

  lemma TriggerWrites(t: Tables, c: TriggerCommand, after: Tables) returns (fill: Fill, r: Option<ReservationId>)
    requires c.schedule.Valid() && PersistTrigger(t, c) == Ok(after)
    requires c.order in t.orders && !IsTerminal(t.orders[c.order].status)
    ensures TriggerRows(t, c, fill, after) && WinnerSlotFree(t, c.order, t.orders[c.order].group)
    ensures Wrote(t, t.orders[c.order].Owner(c.order), r, true, after)
  {
    hide PersistTrigger, SettleFill, Storable, Wrote, WinnerSlotFree, TriggerRows;
    var settled;
    fill, settled := TriggerCommitted(t, c, after);
    var order := t.orders[c.order];
    var recorded := RecordTrigger(t, c, order, fill);
    r := SettleWrites(recorded, c.order, order, [fill], true, None, settled);
    SettleFrame(recorded, c.order, order, [fill], true, None, settled);
    SiblingRows(t, c, fill, settled);
    SameRows(t, recorded, order.Owner(c.order), r, true, settled);
    WroteSame(t, order.Owner(c.order), r, true, settled, after);
  }

  lemma WroteSame(t: Tables, owner: Owner, r: Option<ReservationId>, released: bool, u: Tables, after: Tables)
    requires Wrote(t, owner, r, released, u) && after.reservations == u.reservations
    ensures Wrote(t, owner, r, released, after)
  {
  }

  lemma TriggerSound(t: Tables, c: TriggerCommand, after: Tables)
    requires GroupsSound(t) && c.schedule.Valid() && PersistTrigger(t, c) == Ok(after)
    ensures GroupsSound(after)
  {
    if c.order in t.orders && IsTerminal(t.orders[c.order].status) {
      assert after == t;
    } else {
      hide PersistTrigger, Wrote, WinnerSlotFree, TriggerRows, LegsSound, OneWinner, HoldsSound, OneHold, AllHeld;
      assert c.order in t.orders by {
        var _ := TriggerRecords(t, c, after);
      }
      var fill, r := TriggerWrites(t, c, after);
      if t.orders[c.order].group.None? {
        TriggeredAlone(t, c, fill, after);
        OutsideSound(t, c.order, after.orders[c.order], r, true, after);
      } else {
        TriggeredLegs(t, c, fill, after);
        TriggeredGroup(t, c, fill, after);
        TriggeredHold(t, t.orders[c.order].group.value, r, after);
      }
    }
  }

  lemma TriggeredAlone(t: Tables, c: TriggerCommand, fill: Fill, after: Tables)
    requires c.order in t.orders && t.orders[c.order].group.None? && TriggerRows(t, c, fill, after)
    ensures after.orders == t.orders[c.order := after.orders[c.order]] && after.groups == t.groups
    ensures after.orders[c.order].group.None?
  {
  }

  /** The triggered leg is the winner, and every other leg of its group is cancelled. */
  lemma TriggeredLegs(t: Tables, c: TriggerCommand, fill: Fill, after: Tables)
    requires GroupsSound(t) && c.order in t.orders && t.orders[c.order].group.Some? && TriggerRows(t, c, fill, after)
    requires !IsTerminal(t.orders[c.order].status)
    ensures LegsSound(after) && OneWinner(after)
  {
    hide HoldsSound, OneHold, AllHeld;
    assert LegSound(t, t.orders[c.order]);
    forall o | o in after.orders ensures LegSound(after, after.orders[o]) {
      assert LegSound(t, t.orders[o]);
    }
    hide LegSound;
  }

  lemma TriggeredGroup(t: Tables, c: TriggerCommand, fill: Fill, after: Tables)
    requires LegsSound(t) && c.order in t.orders && t.orders[c.order].group.Some? && TriggerRows(t, c, fill, after)
    requires !IsTerminal(t.orders[c.order].status)
    ensures var g := t.orders[c.order].group.value;
            g in t.groups && t.groups[g].active && after.groups == t.groups[g := t.groups[g].(active := false)]
  {
    assert LegSound(t, t.orders[c.order]);
  }

  /** The group's one reservation is the one released. */
  lemma TriggeredHold(t: Tables, g: GroupId, r: Option<ReservationId>, after: Tables)
    requires HoldsSound(t) && OneHold(t) && AllHeld(t)
    requires g in t.groups && t.groups[g].active && after.groups == t.groups[g := t.groups[g].(active := false)]
    requires Wrote(t, OfGroup(g), r, true, after)
    ensures HoldsSound(after) && OneHold(after) && AllHeld(after)
  {
    HeldStill(t, OfGroup(g), r, true, after);
    assert r.Some? by {
      assert Held(t, g);
      var k :| k in t.reservations && t.reservations[k].owner == OfGroup(g);
      assert HoldSound(t, t.reservations[k]);
      assert OpenFor(t, OfGroup(g), k);
    }
    hide AllHeld, Held;
    assert OpenFor(t, OfGroup(g), r.value);
    forall k | k in after.reservations ensures HoldSound(after, after.reservations[k]) {
      assert HoldSound(t, t.reservations[k]);
    }
  }

  lemma CancelSound(t: Tables, c: CancelCommand, after: Tables)
    requires GroupsSound(t) && CancelOrder(t, c) == Ok(after)
    ensures GroupsSound(after)
  {
    if IsTerminal(t.orders[c.order].status) {
      assert after == t;
    } else {
      assert after == Cancelled(t, c.order);
      hide CancelOrder, Releasable, GroupsSound;
      CancelledLegs(t, c.order);
      CancelledHolds(t, c.order);
      assert GroupsSound(after) by {
        hide LegsSound, OneWinner, HoldsSound, OneHold, AllHeld, Cancelled;
      }
    }
  }

  lemma CancelledLegs(t: Tables, id: OrderId)
    requires GroupsSound(t) && id in t.orders && !IsTerminal(t.orders[id].status)
    ensures LegsSound(Cancelled(t, id)) && OneWinner(Cancelled(t, id))
  {
    hide HoldsSound, OneHold, AllHeld, GivenBack;
    var after := Cancelled(t, id);
    assert LegSound(t, t.orders[id]);
    forall o | o in after.orders ensures LegSound(after, after.orders[o]) {
      assert LegSound(t, t.orders[o]);
    }
    hide LegSound;
  }

  lemma CancelledHolds(t: Tables, id: OrderId)
    requires GroupsSound(t) && id in t.orders && !IsTerminal(t.orders[id].status)
    ensures HoldsSound(Cancelled(t, id)) && OneHold(Cancelled(t, id)) && AllHeld(Cancelled(t, id))
  {
    hide OneWinner, GivenBack;
    var after := Cancelled(t, id);
    assert LegSound(t, t.orders[id]);
    hide LegsSound;
    forall g | g in after.groups ensures Held(after, g) {
      assert Held(t, g);
      var k :| k in t.reservations && t.reservations[k].owner == OfGroup(g);
      assert k in after.reservations && after.reservations[k].owner == OfGroup(g);
    }
    hide AllHeld;
    forall k | k in after.reservations ensures HoldSound(after, after.reservations[k]) {
      assert HoldSound(t, t.reservations[k]);
    }
  }

  /** Every transaction the services issue keeps the groups sound. */
  lemma StepKeepsGroups(t: Tables, c: Command)
    requires GroupsSound(t) && ValidCommand(c) && GroupCommand(t, c)
    ensures GroupsSound(Apply(t, c))
  {
    hide GroupsSound, PersistFill, PersistTrigger, CancelOrder, PlaceFresh, PlaceOcoFresh;
    var r := Attempt(t, c);
    if r.Ok? && r.value != t {
      match c
      case Place(p) => PlaceSound(t, p, r.value);
      case PlaceOco(p) => PlaceOcoSound(t, p, r.value);
      case Fills(f) => FillSound(t, f, r.value);
      case Triggers(g) => TriggerSound(t, g, r.value);
      case Cancels(x) => CancelSound(t, x, r.value);
      case Acquires(m) => ElsewhereSound(t, r.value);
      case Expires(x) => ElsewhereSound(t, r.value);
    }
  }

  lemma ElsewhereSound(t: Tables, after: Tables)
    requires GroupsSound(t) && after == t.(epochs := after.epochs, sessions := after.sessions)
    ensures GroupsSound(after)
  {
    assert forall o | o in t.orders :: LegSound(t, t.orders[o]);
    assert forall r | r in t.reservations :: HoldSound(t, t.reservations[r]);
    forall g | g in after.groups ensures Held(after, g) {
      assert Held(t, g);
    }
  }

  // ---- Every run ----

  /** A run of transactions the services issue. */
  ghost predicate GroupRun(t: Tables, cs: seq<Command>)
    requires ValidCommands(cs)
    decreases |cs|
  {
    cs != [] ==> (assert ValidCommand(cs[0]); GroupCommand(t, cs[0])) && GroupRun(Apply(t, cs[0]), cs[1..])
  }

  /** A reservation keeps its owner and is never revived; a resolved group stays resolved. */
  ghost predicate GroupsOnward(t: Tables, after: Tables) {
    && (forall r | r in t.reservations ::
          && r in after.reservations && after.reservations[r].owner == t.reservations[r].owner
          && (t.reservations[r].released ==> after.reservations[r].released))
    && (forall g | g in t.groups :: g in after.groups && (!t.groups[g].active ==> !after.groups[g].active))
  }

  lemma FillOnward(t: Tables, c: FillCommand, after: Tables)
    requires c.schedule.Valid() && PersistFill(t, c) == Ok(after)
    ensures GroupsOnward(t, after)
  {
    hide PersistFill, SettleFill, Storable;
    FillRecords(t, c, after);
    var terminal, desired := FillCommitted(t, c, after);
    var order := t.orders[c.order];
    var _ := SettleWrites(RecordFills(t, c, order), c.order, order, c.fills, terminal, desired, after);
  }

  lemma TriggerOnward(t: Tables, c: TriggerCommand, after: Tables)
    requires c.schedule.Valid() && PersistTrigger(t, c) == Ok(after)
    ensures GroupsOnward(t, after)
  {
    if c.order in t.orders && IsTerminal(t.orders[c.order].status) {
      assert after == t;
    } else {
      hide PersistTrigger, WinnerSlotFree;
      assert c.order in t.orders by {
        var _ := TriggerRecords(t, c, after);
      }
      var _, _ := TriggerWrites(t, c, after);
    }
  }

  lemma CancelOnward(t: Tables, c: CancelCommand, after: Tables)
    requires CancelOrder(t, c) == Ok(after)
    ensures GroupsOnward(t, after)
  {
    hide Releasable, GivenBack;
  }

  lemma PlaceOnward(t: Tables, c: Command, after: Tables)
    requires (c.Place? || c.PlaceOco?) && ValidCommand(c) && Attempt(t, c) == Ok(after)
    ensures GroupsOnward(t, after)
  {
    hide PlaceFresh, PlaceOcoFresh, SameTotals, Recorded;
    if c.Place? && after != t {
      PlaceFrame(t, c.place, after);
    } else if c.PlaceOco? && after != t {
      OcoFrame(t, c.oco, after);
    }
  }

  lemma StepOnward(t: Tables, c: Command)
    requires ValidCommand(c)
    ensures GroupsOnward(t, Apply(t, c))
  {
    var r := Attempt(t, c);
    if r.Ok? {
      hide CommitTradingMutation, CommitOcoPlacement, PersistFill, PersistTrigger, CancelOrder;
      match c
      case Place(_) => PlaceOnward(t, c, r.value);
      case PlaceOco(_) => PlaceOnward(t, c, r.value);
      case Fills(f) => FillOnward(t, f, r.value);
      case Triggers(g) => TriggerOnward(t, g, r.value);
      case Cancels(x) => CancelOnward(t, x, r.value);
      case Acquires(m) =>
      case Expires(x) =>
    }
  }

  /** How many transactions of a run release a reservation. */
  ghost function Releases(t: Tables, cs: seq<Command>, r: ReservationId): nat
    requires ValidCommands(cs)
    decreases |cs|
  {
    if cs == [] then 0 else
      assert ValidCommand(cs[0]);
      var next := Apply(t, cs[0]);
      (if r in t.reservations && !t.reservations[r].released && r in next.reservations && next.reservations[r].released
       then 1 else 0) + Releases(next, cs[1..], r)
  }

  lemma {:induction false} RunKeepsGroups(t: Tables, cs: seq<Command>)
    requires GroupsSound(t) && ValidCommands(cs) && GroupRun(t, cs)
    ensures GroupsSound(Run(t, cs))
    decreases |cs|
  {
    hide GroupsSound, GroupCommand, Apply, ValidCommand;
    if cs != [] {
      StepKeepsGroups(t, cs[0]);
      RunKeepsGroups(Apply(t, cs[0]), cs[1..]);
    }
  }

  lemma {:induction false} ReleasedAtMostOnce(t: Tables, cs: seq<Command>, r: ReservationId)
    requires ValidCommands(cs) && r in t.reservations
    ensures r in Run(t, cs).reservations && Run(t, cs).reservations[r].owner == t.reservations[r].owner
    ensures Releases(t, cs, r)
         == (if Run(t, cs).reservations[r].released then 1 else 0) - (if t.reservations[r].released then 1 else 0)
    decreases |cs|
  {
    hide Apply, ValidCommand;
    if cs != [] {
      StepOnward(t, cs[0]);
      ReleasedAtMostOnce(Apply(t, cs[0]), cs[1..], r);
    }
  }

  lemma {:induction false} GroupsLast(t: Tables, cs: seq<Command>, g: GroupId)
    requires ValidCommands(cs) && g in t.groups
    ensures g in Run(t, cs).groups && (!t.groups[g].active ==> !Run(t, cs).groups[g].active)
    decreases |cs|
  {
    hide Apply, ValidCommand;
    if cs != [] {
      StepOnward(t, cs[0]);
      GroupsLast(Apply(t, cs[0]), cs[1..], g);
    }
  }

  predicate LegOf(t: Tables, o: OrderId, g: GroupId) {
    o in t.orders && t.orders[o].group == Some(g)
  }

  /**
    OCO arbitration over any run from a live group: while it is ACTIVE every leg waits and its
    reservation is untouched; once it is resolved, at most one leg is FILLED, every other leg is
    CANCELLED, and exactly one transaction released the reservation both legs share.
   */
  lemma OcoArbitration(t: Tables, cs: seq<Command>, g: GroupId) returns (hold: ReservationId)
    requires GroupsSound(t) && ValidCommands(cs) && GroupRun(t, cs) && g in t.groups && t.groups[g].active
    ensures hold in t.reservations && t.reservations[hold].owner == OfGroup(g)
    ensures g in Run(t, cs).groups
    ensures Releases(t, cs, hold) == if Run(t, cs).groups[g].active then 0 else 1
    ensures Run(t, cs).groups[g].active ==>
              forall o | LegOf(Run(t, cs), o, g) :: Run(t, cs).orders[o].status == PENDING_TRIGGER
    ensures !Run(t, cs).groups[g].active ==>
              && (forall o | LegOf(Run(t, cs), o, g) :: Run(t, cs).orders[o].status in {FILLED, CANCELLED})
              && (forall o, p | LegOf(Run(t, cs), o, g) && LegOf(Run(t, cs), p, g) && o != p ::
                    Run(t, cs).orders[o].status == FILLED ==> Run(t, cs).orders[p].status == CANCELLED)
  {
    hide Releases, Run, GroupRun, ValidCommands;
    assert Held(t, g);
    hold :| hold in t.reservations && t.reservations[hold].owner == OfGroup(g);
    assert HoldSound(t, t.reservations[hold]);
    RunKeepsGroups(t, cs);
    ReleasedAtMostOnce(t, cs, hold);
    GroupsLast(t, cs, g);
    var end := Run(t, cs);
    assert HoldSound(end, end.reservations[hold]);
    hide HoldsSound, OneHold, AllHeld;
    assert forall o | o in end.orders :: LegSound(end, end.orders[o]);
  }

  // ---- What a trigger reserves ----

  /** A trigger changes what is reserved only on the account its order takes from. */
  lemma TriggerReserves(t: Tables, c: TriggerCommand, after: Tables)
    requires c.schedule.Valid() && PersistTrigger(t, c) == Ok(after)
    requires c.order in t.orders && !IsTerminal(t.orders[c.order].status)
    ensures t.balances.Keys <= after.balances.Keys
    ensures forall a | a != t.orders[c.order].Funding() :: ReservedIn(after, a) == ReservedIn(t, a)
  {
    hide PersistTrigger, SettleFill, Storable, WinnerSlotFree;
    var fill, settled := TriggerCommitted(t, c, after);
    var order := t.orders[c.order];
    var recorded := RecordTrigger(t, c, order, fill);
    SettleFrame(recorded, c.order, order, [fill], true, None, settled);
    SettleReserves(recorded, c.order, order, [fill], true, None, settled);
    forall a | a != order.Funding() ensures ReservedIn(after, a) == ReservedIn(t, a) {
      assert ReservedIn(settled, a) == ReservedIn(recorded, a);
    }
  }

  // ---- One winner, whoever writes ----

  /** No group has two winning rows: what the schema's index forbids. */
  ghost predicate OneWinningRow(t: Tables) {
    forall o, p | o in t.orders && p in t.orders && t.orders[o].winner && t.orders[p].winner
                  && t.orders[o].group.Some? && t.orders[o].group == t.orders[p].group :: o == p
  }

  lemma TriggerKeepsWinners(t: Tables, c: TriggerCommand, after: Tables)
    requires OneWinningRow(t) && c.schedule.Valid() && PersistTrigger(t, c) == Ok(after)
    ensures OneWinningRow(after)
  {
    if c.order in t.orders && IsTerminal(t.orders[c.order].status) {
      assert after == t;
    } else {
      hide PersistTrigger, IsLiveSibling, RowsOf, Storable;
      var fill := TriggerRecords(t, c, after);
    }
  }

  lemma StepKeepsWinners(t: Tables, c: Command)
    requires OneWinningRow(t) && ValidCommand(c)
    ensures OneWinningRow(Apply(t, c))
  {
    hide OneWinningRow, PersistFill, PersistTrigger, CancelOrder, PlaceFresh, PlaceOcoFresh, Storable, RowsOf;
    var r := Attempt(t, c);
    if r.Ok? && r.value != t {
      match c
      case Place(p) => PlaceFrame(t, p, r.value); SameWinners(t, r.value);
      case PlaceOco(p) => OcoFrame(t, p, r.value); SameWinners(t, r.value);
      case Fills(f) => FillRecords(t, f, r.value); SameWinners(t, r.value);
      case Triggers(g) => TriggerKeepsWinners(t, g, r.value);
      case Cancels(x) => CancelledWinners(t, x, r.value); SameWinners(t, r.value);
      case Acquires(m) => SameWinners(t, r.value);
      case Expires(x) => SameWinners(t, r.value);
    }
  }

  lemma SameWinners(t: Tables, after: Tables)
    requires OneWinningRow(t)
    requires forall o | o in after.orders && after.orders[o].winner ::
               o in t.orders && t.orders[o].winner && t.orders[o].group == after.orders[o].group
    ensures OneWinningRow(after)
  {
  }

  lemma CancelledWinners(t: Tables, x: CancelCommand, after: Tables)
    requires CancelOrder(t, x) == Ok(after)
    ensures forall o | o in after.orders && after.orders[o].winner ::
              o in t.orders && t.orders[o].winner && t.orders[o].group == after.orders[o].group
  {
    hide Releasable, GivenBack;
  }

  /** Over any run at all, and whatever the rows of a group were, it never gets a second winner. */
  lemma {:induction false} RunKeepsOneWinner(t: Tables, cs: seq<Command>)
    requires OneWinningRow(t) && ValidCommands(cs)
    ensures OneWinningRow(Run(t, cs))
    decreases |cs|
  {
    hide Apply, ValidCommand, OneWinningRow;
    if cs != [] {
      StepKeepsWinners(t, cs[0]);
      RunKeepsOneWinner(Apply(t, cs[0]), cs[1..]);
    }
  }
}
