/** No reservation outlives its order: what ends an order releases what it reserved, and nothing else. */
module LedgerRelease {
  import opened Types
  import opened Fees
  import opened Settlement
  import opened LedgerModel
  import opened LedgerInvariants
  import opened LedgerSteps
  import opened LedgerOco
  import opened LedgerComposition
  import opened OrderLife

  // ---- What a cancellation gives back ----

  lemma OneCandidate(t: Tables, id: OrderId, r: ReservationId)
    requires Standing(t, id, r)
    ensures Candidates(t, id) == {r}
  {
    forall k | k in Candidates(t, id) ensures k == r {
      assert OpenFor(t, OfOrder(id), k);
    }
    assert IsCandidate(t, id, r);
  }

  lemma OneGivenBack(t: Tables, id: OrderId, r: ReservationId, a: Account)
    requires Standing(t, id, r)
    ensures GivenBack(t, id, a) == if a == t.reservations[r].account then t.reservations[r].amount else 0
  {
    OneCandidate(t, id, r);
    hide Candidates;
    assert Chosen(t.reservations, {r}) == map[r := t.reservations[r]];
    SumRemove(map[r := t.reservations[r]], a, r);
    assert map[r := t.reservations[r]] - {r} == map[];
  }

  /**
    Cancelling a live order of no group: its status, its one reservation marked released, and what
    that held moved from reserved to available on its account. Nothing else changes.
   */
  lemma CancellationGivesBack(t: Tables, x: CancelCommand, r: ReservationId, after: Tables)
    requires Standing(t, x.order, r) && CancelOrder(t, x) == Ok(after) && t.reservations[r].account in t.balances
    ensures var row := t.reservations[r];
            var before := t.balances[row.account];
            after == t.(orders := t.orders[x.order := t.orders[x.order].(status := CANCELLED)],
                        reservations := t.reservations[r := row.(released := true)],
                        balances := t.balances[row.account :=
                          Balance(before.total, before.available + row.amount, before.reserved - row.amount)])
  {
    assert r in t.reservations;
    hide GivenBack, Releasable, Candidates, OnlyHold;
    OneCandidate(t, x.order, r);
    forall a: Account
      ensures GivenBack(t, x.order, a) == if a == t.reservations[r].account then t.reservations[r].amount else 0
    {
      OneGivenBack(t, x.order, r, a);
    }
    assert after.orders == t.orders[x.order := t.orders[x.order].(status := CANCELLED)];
    assert after.reservations == t.reservations[r := t.reservations[r].(released := true)];
  }

  // ---- Nothing is stranded ----

  /** A live reservation of an order belongs to a live order of no group; a group's are the groups' own. */
  ghost predicate NothingStranded(t: Tables) {
    forall r | r in t.reservations && !t.reservations[r].released && t.reservations[r].owner.OfOrder? ::
      HeldByLive(t, t.reservations[r].owner.order)
  }

  predicate HeldByLive(t: Tables, o: OrderId) {
    o in t.orders && t.orders[o].group.None? && !IsTerminal(t.orders[o].status)
  }

  /** Orders are placed live and outside groups, and a fill ends an order only as FILLED or CANCELLED. */
  predicate EndsAsServed(c: Command) {
    match c
    case Place(p) => p.order.group.None? && !IsTerminal(p.order.status)
    case Fills(f) => IsTerminal(f.nextStatus) ==> f.nextStatus in {FILLED, CANCELLED}
    case _ => true
  }

  ghost predicate EndAsServed(cs: seq<Command>) {
    forall i | 0 <= i < |cs| :: EndsAsServed(cs[i])
  }

  /** Another owner's rows and other orders do not matter to an order's reservation. */
  lemma OthersHeld(t: Tables, after: Tables, id: OrderId)
    requires NothingStranded(t) && after.reservations.Keys == t.reservations.Keys
    requires forall k | k in t.reservations && !after.reservations[k].released ::
               !t.reservations[k].released && after.reservations[k].owner == t.reservations[k].owner
    requires forall o | o in t.orders && o != id && HeldByLive(t, o) :: HeldByLive(after, o)
    requires HeldByLive(after, id) || forall k | k in t.reservations && t.reservations[k].owner == OfOrder(id) ::
                                        after.reservations[k].released
    ensures NothingStranded(after)
  {
    forall k | k in after.reservations && !after.reservations[k].released && after.reservations[k].owner.OfOrder?
      ensures HeldByLive(after, after.reservations[k].owner.order)
    {
      assert HeldByLive(t, t.reservations[k].owner.order);
    }
  }

  /** A settlement that ends an order of no group leaves no reservation of it live. */
  lemma EndedReleases(t: Tables, u: Tables, id: OrderId, w: Option<ReservationId>, after: Tables)
    requires OneLive(t) && u.reservations == t.reservations && Wrote(u, OfOrder(id), w, true, after)
    ensures forall k | k in t.reservations && t.reservations[k].owner == OfOrder(id) :: after.reservations[k].released
  {
    forall k | k in t.reservations && t.reservations[k].owner == OfOrder(id) ensures after.reservations[k].released {
      if !t.reservations[k].released && w.Some? {
        assert OpenFor(t, t.reservations[k].owner, k) && OpenFor(t, t.reservations[k].owner, w.value);
      }
    }
  }

  /** No order of a group holds a reservation of its own. */
  lemma LegHoldsNothing(t: Tables, id: OrderId)
    requires NothingStranded(t) && !HeldByLive(t, id)
    ensures forall k | k in t.reservations && t.reservations[k].owner == OfOrder(id) :: t.reservations[k].released
  {
  }

  lemma WroteLive(t: Tables, owner: Owner, w: Option<ReservationId>, released: bool, after: Tables)
    requires Wrote(t, owner, w, released, after)
    ensures after.reservations.Keys == t.reservations.Keys
    ensures forall k | k in t.reservations && !after.reservations[k].released ::
              !t.reservations[k].released && after.reservations[k].owner == t.reservations[k].owner
    ensures forall k | k in t.reservations && t.reservations[k].released :: after.reservations[k].released
  {
  }

  lemma FillStrands(t: Tables, f: FillCommand, after: Tables)
    requires Base(t) && NothingStranded(t) && EndsAsServed(Fills(f))
    requires f.schedule.Valid() && PersistFill(t, f) == Ok(after)
    ensures NothingStranded(after)
  {
    hide PersistFill, SettleFill, Storable, RowsOf, Wrote, NothingStranded, Composed, Backing;
    FillRecords(t, f, after);
    var order, terminal := t.orders[f.order], f.nextStatus == FILLED || f.nextStatus == CANCELLED;
    var desired := FillDesired(t, f, after);
    var recorded := RecordFills(t, f, order);
    var w := SettleWrites(recorded, f.order, order, f.fills, terminal, desired, after);
    WroteLive(recorded, order.Owner(f.order), w, terminal, after);
    if !HeldByLive(after, f.order) {
      if order.group.None? {
        EndedReleases(t, recorded, f.order, w, after);
      } else {
        LegHoldsNothing(t, f.order);
      }
    }
    OthersHeld(t, after, f.order);
  }

  lemma FillDesired(t: Tables, f: FillCommand, after: Tables) returns (desired: Option<Money>)
    requires f.schedule.Valid() && PersistFill(t, f) == Ok(after)
    ensures f.order in t.orders
    ensures SettleFill(RecordFills(t, f, t.orders[f.order]), f.order, t.orders[f.order], f.fills,
                       f.nextStatus == FILLED || f.nextStatus == CANCELLED, desired) == Ok(after)
  {
    hide SettleFill, RecordFills, Storable;
    var terminal := f.nextStatus == FILLED || f.nextStatus == CANCELLED;
    desired := RemainingExposure(t.orders[f.order], f.filledAfter, terminal, f.schedule).value;
  }

  lemma TriggerStrands(t: Tables, g: TriggerCommand, after: Tables)
    requires Base(t) && NothingStranded(t) && g.schedule.Valid() && PersistTrigger(t, g) == Ok(after)
    requires g.order in t.orders && !IsTerminal(t.orders[g.order].status)
    ensures NothingStranded(after)
  {
    hide PersistTrigger, Storable, WinnerSlotFree, Wrote, NothingStranded, Composed, Backing;
    var fill, w := TriggerWrites(t, g, after);
    var order := t.orders[g.order];
    WroteLive(t, order.Owner(g.order), w, true, after);
    if order.group.None? {
      EndedReleases(t, t, g.order, w, after);
    } else {
      LegHoldsNothing(t, g.order);
    }
    OthersHeld(t, after, g.order);
  }

  lemma CancelStrands(t: Tables, x: CancelCommand, after: Tables)
    requires NothingStranded(t) && CancelOrder(t, x) == Ok(after) && !IsTerminal(t.orders[x.order].status)
    ensures NothingStranded(after)
  {
    hide GivenBack, Releasable, NothingStranded;
    assert forall k | k in t.reservations && t.reservations[k].owner == OfOrder(x.order) ::
      after.reservations[k].released;
    OthersHeld(t, after, x.order);
  }

  lemma PlaceStrands(t: Tables, p: PlaceCommand, after: Tables)
    requires NothingStranded(t) && EndsAsServed(Place(p)) && PlaceFresh(t, p) == Ok(after)
    ensures NothingStranded(after)
  {
    hide PlaceFresh, SameTotals, Recorded;
    PlaceFrame(t, p, after);
    assert HeldByLive(after, p.id);
    forall o | HeldByLive(t, o) ensures HeldByLive(after, o) {
    }
  }

  lemma PairStrands(t: Tables, p: OcoCommand, after: Tables)
    requires NothingStranded(t) && PlaceOcoFresh(t, p) == Ok(after)
    ensures NothingStranded(after)
  {
    hide PlaceOcoFresh, SameTotals;
    OcoFrame(t, p, after);
    forall o | HeldByLive(t, o) ensures HeldByLive(after, o) {
    }
  }

  lemma SameStrands(t: Tables, after: Tables)
    requires NothingStranded(t) && after.orders == t.orders && after.reservations == t.reservations
    ensures NothingStranded(after)
  {
  }

  lemma StepStrands(t: Tables, c: Command)
    requires Base(t) && NothingStranded(t) && ValidCommand(c) && EndsAsServed(c)
    ensures NothingStranded(Apply(t, c))
  {
    hide Base, NothingStranded, PersistFill, PersistTrigger, CancelOrder, PlaceFresh, PlaceOcoFresh;
    var r := Attempt(t, c);
    if r.Ok? && r.value != t {
      match c
      case Place(p) => PlaceStrands(t, p, r.value);
      case PlaceOco(p) => PairStrands(t, p, r.value);
      case Fills(f) => FillStrands(t, f, r.value);
      case Triggers(g) =>
        TriggersLive(t, g, r.value);
        TriggerStrands(t, g, r.value);
      case Cancels(x) =>
        CancelsLive(t, x, r.value);
        CancelStrands(t, x, r.value);
      case Acquires(m) => SameStrands(t, r.value);
      case Expires(x) => SameStrands(t, r.value);
    }
  }

  lemma TriggersLive(t: Tables, g: TriggerCommand, after: Tables)
    requires g.schedule.Valid() && PersistTrigger(t, g) == Ok(after) && after != t
    ensures g.order in t.orders && !IsTerminal(t.orders[g.order].status)
  {
    hide SettleFill, Calculate, WinnerSlotFree, Storable, RecordTrigger;
  }

  lemma CancelsLive(t: Tables, x: CancelCommand, after: Tables)
    requires CancelOrder(t, x) == Ok(after) && after != t
    ensures x.order in t.orders && !IsTerminal(t.orders[x.order].status)
  {
    hide Releasable, Cancelled;
  }

  /**
    Over any run of the transactions the services issue no reservation outlives its order: whatever
    ends an order of no group (a last fill, a trigger, a cancellation) has released what it reserved.
   */
  lemma {:induction false} RunStrandsNothing(t: Tables, cs: seq<Command>)
    requires Base(t) && NothingStranded(t) && ValidCommands(cs) && EndAsServed(cs)
    ensures NothingStranded(Run(t, cs))
    decreases |cs|
  {
    hide Base, NothingStranded, Apply, ValidCommand, EndsAsServed;
    if cs != [] {
      StepStrands(t, cs[0]);
      StepComposes(t, cs[0]);
      RunStrandsNothing(Apply(t, cs[0]), cs[1..]);
    }
  }
}
