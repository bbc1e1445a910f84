/**
  What every run of the ledger keeps, coherent or not: each balance composed of its parts, each
  order sound, each live reservation backed by an account that exists and by an owner it is alone
  with. Only the sums of reservations depend on placements being coherent.
 */
module LedgerComposition {
  import opened Types
  import opened ExactMoney
  import opened Execution
  import opened Settlement
  import opened LedgerModel
  import opened LedgerInvariants
  import opened LedgerSteps

  ghost predicate Composed(t: Tables) {
    forall a | a in t.balances :: WellFormed(t.balances[a])
  }

  predicate OwnerKnown(t: Tables, owner: Owner) {
    match owner
    case OfOrder(o) => o in t.orders
    case OfGroup(g) => g in t.groups
  }

  /** Every reservation was made for an order or a group that exists. */
  ghost predicate Owned(t: Tables) {
    forall r | r in t.reservations :: OwnerKnown(t, t.reservations[r].owner)
  }

  /** An order, or a group, has at most one live reservation. */
  ghost predicate OneLive(t: Tables) {
    forall r, s | r in t.reservations && OpenFor(t, t.reservations[r].owner, r)
                  && OpenFor(t, t.reservations[r].owner, s) :: r == s
  }

  ghost predicate Base(t: Tables) {
    Composed(t) && Backing(t) && OrdersSound(t) && GroupsKnown(t) && RequestsCompleted(t) && Owned(t) && OneLive(t)
  }

  // ---- Owners ----

  lemma OwnersCarry(t: Tables, after: Tables)
    requires Owned(t) && OneLive(t) && SameOwners(t, after)
    requires t.orders.Keys <= after.orders.Keys && t.groups.Keys <= after.groups.Keys
    ensures Owned(after) && OneLive(after)
  {
    assert forall r | r in t.reservations :: OwnerKnown(t, t.reservations[r].owner);
    forall r, s | r in after.reservations && OpenFor(after, after.reservations[r].owner, r)
                  && OpenFor(after, after.reservations[r].owner, s)
      ensures r == s
    {
      assert OpenFor(t, t.reservations[r].owner, r) && OpenFor(t, t.reservations[r].owner, s);
    }
  }

  lemma OwnersWithNew(t: Tables, after: Tables, id: ReservationId, row: ReservationRow)
    requires Owned(t) && OneLive(t)
    requires after.reservations == t.reservations[id := row] && id !in t.reservations
    requires t.orders.Keys <= after.orders.Keys && t.groups.Keys <= after.groups.Keys
    requires !OwnerKnown(t, row.owner) && OwnerKnown(after, row.owner)
    ensures Owned(after) && OneLive(after)
  {
    assert forall r | r in t.reservations :: OwnerKnown(t, t.reservations[r].owner);
    forall r, s | r in after.reservations && OpenFor(after, after.reservations[r].owner, r)
                  && OpenFor(after, after.reservations[r].owner, s)
      ensures r == s
    {
      if r != id && s != id {
        assert OpenFor(t, t.reservations[r].owner, r) && OpenFor(t, t.reservations[r].owner, s);
      }
    }
  }

  lemma WroteSameOwners(t: Tables, owner: Owner, r: Option<ReservationId>, released: bool, after: Tables)
    requires Wrote(t, owner, r, released, after)
    ensures SameOwners(t, after)
  {
  }

  // ---- Settlement ----

  /** A settlement leaves a composed balance and a non-negative reservation, backed or not. */
  lemma SettlementComposes(q: Settlement.Request, shortage: ErrorCode)
    requires WellFormed(q.balance) && q.remaining >= 0 && (q.desired.Some? ==> q.desired.value >= 0)
    requires Settle(q, shortage).Ok?
    ensures WellFormed(Settle(q, shortage).value.balance) && Settle(q, shortage).value.remaining >= 0
  {
    hide Exact;
  }

  lemma DebitComposes(t: Tables, id: OrderId, order: OrderRow, consumed: Money, terminal: bool, desired: Option<Money>,
                      after: Tables)
    requires Composed(t) && Backing(t) && order.Funding() in t.balances && (desired.Some? ==> desired.value >= 0)
    requires Debit(t, id, order, consumed, terminal, desired) == Ok(after)
    ensures Composed(after) && Backing(after)
  {
    hide Settle, LockReservation, WellFormed;
    var account, r := order.Funding(), LockReservation(t, order.Owner(id));
    LockIsOpen(t, order.Owner(id));
    var q := Request(t.balances[account], if r.Some? then t.reservations[r.value].amount else 0, consumed, terminal,
                     desired);
    SettlementComposes(q, Shortage(account));
    var debited := t.(balances := t.balances[account := Settle(q, Shortage(account)).value.balance]);
    assert Backing(debited);
    WrittenRows(debited, r, Settle(q, Shortage(account)).value);
  }

  lemma AddComposes(t: Tables, account: Account, amount: Money, after: Tables)
    requires Composed(t) && Backing(t) && AddTo(t, account, amount) == Ok(after)
    ensures Composed(after) && Backing(after)
  {
  }

  lemma SettleComposes(t: Tables, id: OrderId, order: OrderRow, fills: seq<Fill>, terminal: bool,
                       desired: Option<Money>, after: Tables)
    requires Composed(t) && Backing(t) && (desired.Some? ==> desired.value >= 0)
    requires SettleFill(t, id, order, fills, terminal, desired) == Ok(after)
    ensures Composed(after) && Backing(after)
  {
    hide Debit, AddTo, Composed, Backing, Exact, SumFills, Portfolio.AverageCost;
    var consumed := if order.side == BUY then SumFills(fills, 1, 0).value else QuantityOf(fills);
    var paid := Debit(t, id, order, consumed, terminal, desired).value;
    DebitComposes(t, id, order, consumed, terminal, desired, paid);
    if order.side == BUY {
      var grown := AddTo(paid, order.Receiving(), QuantityOf(fills)).value;
      AddComposes(paid, order.Receiving(), QuantityOf(fills), grown);
      SameBalances(grown, after);
    } else {
      AddComposes(paid, order.Receiving(), SumFills(fills, -1, 0).value, after);
    }
  }

  lemma SameBalances(t: Tables, after: Tables)
    requires Composed(t) && Backing(t) && after.balances == t.balances && after.reservations == t.reservations
    ensures Composed(after) && Backing(after)
  {
  }

  // ---- Each transaction ----

  lemma FillComposes(t: Tables, c: FillCommand, after: Tables)
    requires Base(t) && c.schedule.Valid() && PersistFill(t, c) == Ok(after)
    ensures Base(after)
  {
    hide PersistFill, SettleFill, Storable, Composed, Backing, Owned, OneLive, SameOwners, RowsOf;
    FillRecords(t, c, after);
    var terminal, desired := FillCommitted(t, c, after);
    var order := t.orders[c.order];
    var recorded := RecordFills(t, c, order);
    SameBalances(t, recorded);
    SettleComposes(recorded, c.order, order, c.fills, terminal, desired, after);
    var r := SettleWrites(recorded, c.order, order, c.fills, terminal, desired, after);
    WroteSameOwners(recorded, order.Owner(c.order), r, terminal, after);
    SameRowsSameOwners(t, recorded, after);
    OwnersCarry(t, after);
  }

  lemma SameRowsSameOwners(t: Tables, u: Tables, after: Tables)
    requires u.reservations == t.reservations && SameOwners(u, after)
    ensures SameOwners(t, after)
  {
  }

  lemma TriggerComposes(t: Tables, c: TriggerCommand, after: Tables)
    requires Base(t) && c.schedule.Valid() && PersistTrigger(t, c) == Ok(after)
    ensures Base(after)
  {
    if c.order in t.orders && IsTerminal(t.orders[c.order].status) {
      assert after == t;
    } else {
      hide PersistTrigger, SettleFill, Storable, Composed, Backing, Owned, OneLive, SameOwners, WinnerSlotFree, RowsOf,
           OrdersSound, GroupsKnown, RequestsCompleted;
      var fill, settled := TriggerCommitted(t, c, after);
      var order := t.orders[c.order];
      var recorded := RecordTrigger(t, c, order, fill);
      SameBalances(t, recorded);
      SettleComposes(recorded, c.order, order, [fill], true, None, settled);
      SettleFrame(recorded, c.order, order, [fill], true, None, settled);
      SiblingRows(t, c, fill, settled);
      var r := SettleWrites(recorded, c.order, order, [fill], true, None, settled);
      WroteSameOwners(recorded, order.Owner(c.order), r, true, settled);
      SameRowsSameOwners(t, recorded, settled);
      SiblingsOnly(settled, c.order, order.group, after);
      SameBalances(settled, after);
      SameOwnersThrough(t, settled, after);
      hide CancelSiblings, RecordTrigger;
      TriggeredRowsSound(t, c, fill, after);
      TriggeredKeys(t, c, fill, after);
      OwnersCarry(t, after);
    }
  }

  lemma SiblingsOnly(t: Tables, id: OrderId, group: Option<GroupId>, after: Tables)
    requires after == CancelSiblings(t, id, group)
    ensures after.balances == t.balances && after.reservations == t.reservations
  {
  }

  lemma SameOwnersThrough(t: Tables, u: Tables, after: Tables)
    requires SameOwners(t, u) && after.reservations == u.reservations
    ensures SameOwners(t, after)
  {
  }

  lemma TriggeredKeys(t: Tables, c: TriggerCommand, fill: Fill, after: Tables)
    requires c.order in t.orders && TriggerRows(t, c, fill, after)
    ensures t.orders.Keys <= after.orders.Keys && t.groups.Keys <= after.groups.Keys
  {
  }

  lemma TriggeredRowsSound(t: Tables, c: TriggerCommand, fill: Fill, after: Tables)
    requires OrdersSound(t) && GroupsKnown(t) && RequestsCompleted(t)
    requires c.order in t.orders && TriggerRows(t, c, fill, after)
    ensures OrdersSound(after) && GroupsKnown(after) && RequestsCompleted(after)
  {
  }

  lemma CancelledComposed(t: Tables, id: OrderId)
    requires Composed(t) && id in t.orders && Releasable(t, id)
    ensures Composed(Cancelled(t, id))
  {
    hide GivenBack, Candidates, Retired, IsLeg;
    var after := Cancelled(t, id);
    forall a | a in after.balances ensures WellFormed(after.balances[a]) {
      assert WellFormed(t.balances[a]);
    }
  }

  lemma CancelledRows(t: Tables, id: OrderId)
    requires Backing(t) && OrdersSound(t) && GroupsKnown(t) && RequestsCompleted(t) && id in t.orders
    ensures var after := Cancelled(t, id);
            && Backing(after) && OrdersSound(after) && GroupsKnown(after) && RequestsCompleted(after)
            && SameOwners(t, after) && t.orders.Keys <= after.orders.Keys && t.groups.Keys <= after.groups.Keys
  {
    hide GivenBack;
  }

  lemma CancelComposes(t: Tables, c: CancelCommand, after: Tables)
    requires Base(t) && CancelOrder(t, c) == Ok(after)
    ensures Base(after)
  {
    hide Composed, Backing, OrdersSound, GroupsKnown, RequestsCompleted, Owned, OneLive, SameOwners, Releasable,
         Cancelled;
    if !IsTerminal(t.orders[c.order].status) {
      CancelledComposed(t, c.order);
      CancelledRows(t, c.order);
      OwnersCarry(t, after);
    }
  }

  lemma PlaceComposes(t: Tables, c: PlaceCommand, after: Tables)
    requires Base(t) && PlaceFresh(t, c) == Ok(after)
    ensures Base(after)
  {
    hide PlaceFresh, Owned, OneLive, WellFormed;
    PlaceFrame(t, c, after);
    PlaceBalances(t, c, after);
    assert Composed(after);
    if Recorded(c).Some? {
      RecordedHasId(c);
      OwnersWithNew(t, after, c.reservation.value,
                    ReservationRow(OfOrder(c.id), Recorded(c).value.account, Recorded(c).value.amount, false));
    } else {
      OwnersCarry(t, after);
    }
    hide Recorded;
    PlaceFreshGroup(t, c, after);
  }

  lemma PlaceFreshGroup(t: Tables, c: PlaceCommand, after: Tables)
    requires PlaceFresh(t, c) == Ok(after)
    ensures c.order.group.Some? ==> c.order.group.value in t.groups
    ensures c.order.quantity > 0
  {
    hide ReserveOptional, RecordHold;
    var t1 := Completed(t, RequestKey(c.session, c.key), c.hash, c.response);
    var t2 := ReserveOptional(t1, c.Cash()).value;
    var t3 := ReserveOptional(t2, c.Shares()).value;
    ReserveFrame(t1, c.Cash(), t2);
    ReserveFrame(t2, c.Shares(), t3);
  }

  lemma OcoComposes(t: Tables, c: OcoCommand, after: Tables)
    requires Base(t) && PlaceOcoFresh(t, c) == Ok(after)
    ensures Base(after)
  {
    hide PlaceOcoFresh, Owned, OneLive, WellFormed;
    OcoFrame(t, c, after);
    OcoBalances(t, c, after);
    assert Composed(after);
    OwnersWithNew(t, after, c.reservation, ReservationRow(OfGroup(c.group), c.hold.account, c.hold.amount, false));
  }

  lemma ElsewhereComposes(t: Tables, after: Tables)
    requires Base(t) && after == t.(epochs := after.epochs, sessions := after.sessions)
    ensures Base(after)
  {
    hide Composed, Owned, OneLive;
    SameBalances(t, after);
    OwnersCarry(t, after);
  }

  /** Every transaction whatsoever keeps the composition of the ledger. */
  lemma StepComposes(t: Tables, c: Command)
    requires Base(t) && ValidCommand(c)
    ensures Base(Apply(t, c))
  {
    hide Base, PersistFill, PersistTrigger, CancelOrder, PlaceFresh, PlaceOcoFresh;
    var r := Attempt(t, c);
    if r.Ok? && r.value != t {
      match c
      case Place(p) => PlaceComposes(t, p, r.value);
      case PlaceOco(p) => OcoComposes(t, p, r.value);
      case Fills(f) => FillComposes(t, f, r.value);
      case Triggers(g) => TriggerComposes(t, g, r.value);
      case Cancels(x) => CancelComposes(t, x, r.value);
      case Acquires(m) => ElsewhereComposes(t, r.value);
      case Expires(x) => ElsewhereComposes(t, r.value);
    }
  }

  lemma {:induction false} RunComposes(t: Tables, cs: seq<Command>)
    requires Base(t) && ValidCommands(cs)
    ensures Base(Run(t, cs))
    decreases |cs|
  {
    hide Base, Apply, ValidCommand;
    if cs != [] {
      StepComposes(t, cs[0]);
      RunComposes(Apply(t, cs[0]), cs[1..]);
    }
  }

  /**
    Over any run at all, coherent placements or not, the consistency check finds every balance
    composed of its parts and every order sound.
   */
  lemma RunKeepsComposition(t: Tables, cs: seq<Command>)
    requires Base(t) && ValidCommands(cs)
    ensures VerifyLedger(Run(t, cs)).balances == {} && VerifyLedger(Run(t, cs)).orders == {}
  {
    RunComposes(t, cs);
    hide Run, Owned, OneLive, Backing;
  }
}
