/**
  The ledger as it is written: tables updated in place, row by row, inside transactions that are
  rolled back on an error. Every transaction is proved equal to its specification in LedgerModel.
 */
module LedgerStore {
  import opened Types
  import opened ExactMoney
  import opened Fees
  import opened Execution
  import opened Settlement
  import opened LedgerModel
  import opened LedgerInvariants
  import opened LedgerSteps
  import opened LedgerComposition

  /** What a committed transaction keeps: the composition always, the whole invariant if it is coherent. */
  lemma CommitKeeps(t: Tables, c: Command, after: Tables)
    requires Base(t) && ValidCommand(c) && after == Apply(t, c)
    ensures Base(after)
    ensures Inv(t) && CoherentCommand(c) ==> Inv(after)
  {
    hide Base, Inv, Apply, CoherentCommand;
    StepComposes(t, c);
    if Inv(t) && CoherentCommand(c) {
      StepKeeps(t, c);
    }
  }

  /** At most one live reservation each does not depend on anything but the reservation rows. */
  lemma OneLiveCarries(t: Tables, after: Tables)
    requires OneLive(t) && after.reservations == t.reservations
    ensures OneLive(after)
  {
    forall r, s | r in after.reservations && OpenFor(after, after.reservations[r].owner, r)
                  && OpenFor(after, after.reservations[r].owner, s)
      ensures r == s
    {
      assert OpenFor(t, t.reservations[r].owner, r) && OpenFor(t, t.reservations[r].owner, s);
    }
  }

  // ---- Running sums ----

  /** A sum that is refused part of the way is refused. */
  lemma {:induction false} RefusedPrefix(fills: seq<Fill>, sign: int, start: Money, i: nat)
    requires i <= |fills| && SumFills(fills[..i], sign, start).Err?
    ensures SumFills(fills, sign, start) == SumFills(fills[..i], sign, start)
    decreases |fills| - i
  {
    hide Exact;
    if i < |fills| {
      assert fills[..i + 1][..i] == fills[..i];
      RefusedPrefix(fills, sign, start, i + 1);
    } else {
      assert fills[..i] == fills;
    }
  }

  /** The reduction over the fills of an order, checking the running total at every step. */
  method SumOfFills(fills: seq<Fill>, sign: int, start: Money) returns (r: Result<Money>)
    ensures r == SumFills(fills, sign, start)
  {
    hide Exact;
    var sum := start;
    for i := 0 to |fills|
      invariant SumFills(fills[..i], sign, start) == Ok(sum)
    {
      var fill := fills[i];
      assert fills[..i + 1][..i] == fills[..i];
      var notional := Checked(fill.price * fill.quantity);
      if notional.Err? {
        RefusedPrefix(fills, sign, start, i + 1);
        return notional;
      }
      var next := Checked(sum + notional.value + sign * fill.fee);
      if next.Err? {
        RefusedPrefix(fills, sign, start, i + 1);
        return next;
      }
      sum := next.value;
    }
    assert fills[..|fills|] == fills;
    return Ok(sum);
  }

  // ---- Releasing reservations one by one ----

  lemma NothingRetired(rows: map<ReservationId, ReservationRow>)
    ensures Retired(rows, {}) == rows
    ensures forall a :: SumOpen(Chosen(rows, {}), a) == 0
  {
    assert Chosen(rows, {}) == map[];
  }

  /** The balances once some reservations have been given back. */
  ghost predicate GivenBackSoFar(t: Tables, done: set<ReservationId>, balances: map<Account, Balance>) {
    && balances.Keys == t.balances.Keys
    && forall a | a in t.balances ::
         balances[a] == Balance(t.balances[a].total, t.balances[a].available + SumOpen(Chosen(t.reservations, done), a),
                                t.balances[a].reserved - SumOpen(Chosen(t.reservations, done), a))
  }

  lemma ChosenGrows(rows: map<ReservationId, ReservationRow>, done: set<ReservationId>, r: ReservationId,
                    account: Account)
    requires r in rows && r !in done
    ensures SumOpen(Chosen(rows, done + {r}), account)
         == SumOpen(Chosen(rows, done), account) + Contribution(rows[r], account)
  {
    SumRemove(Chosen(rows, done + {r}), account, r);
    hide SumOpen;
    assert Chosen(rows, done + {r}) - {r} == Chosen(rows, done);
  }

  /** The accounts reserve what is to be given back. */
  ghost predicate Affordable(t: Tables, ids: set<ReservationId>) {
    forall a | a in t.balances :: SumOpen(Chosen(t.reservations, ids), a) <= t.balances[a].reserved
  }

  lemma ChosenOfChosen(rows: map<ReservationId, ReservationRow>, ids: set<ReservationId>, some: set<ReservationId>)
    requires some <= ids
    ensures Chosen(Chosen(rows, ids), some) == Chosen(rows, some)
  {
  }

  lemma ChosenMonotone(rows: map<ReservationId, ReservationRow>, ids: set<ReservationId>, some: set<ReservationId>,
                       account: Account)
    requires RowsSound(rows) && some <= ids
    ensures 0 <= SumOpen(Chosen(rows, some), account) <= SumOpen(Chosen(rows, ids), account)
  {
    SumSplit(Chosen(rows, ids), account, some);
    ChosenOfChosen(rows, ids, some);
    SumNonNegative(Retired(Chosen(rows, ids), some), account);
    SumNonNegative(Chosen(rows, some), account);
    hide SumOpen;
  }

  /** A release that is refused part of the way means the whole cannot be given back. */
  lemma RefusedRelease(t: Tables, ids: set<ReservationId>, done: set<ReservationId>, r: ReservationId,
                       balances: map<Account, Balance>)
    requires Backing(t) && GivenBackSoFar(t, done, balances)
    requires done <= ids && r in ids && r in t.reservations && r !in done && !t.reservations[r].released
    requires t.reservations[r].account in t.balances
             && t.reservations[r].amount > balances[t.reservations[r].account].reserved
    ensures !Affordable(t, ids)
  {
    hide SumOpen, Chosen;
    var account := t.reservations[r].account;
    ChosenGrows(t.reservations, done, r, account);
    ChosenMonotone(t.reservations, ids, done + {r}, account);
    assert SumOpen(Chosen(t.reservations, ids), account) > t.balances[account].reserved;
  }

  lemma AllAffordable(t: Tables, ids: set<ReservationId>, balances: map<Account, Balance>)
    requires GivenBackSoFar(t, ids, balances) && forall a | a in balances :: WellFormed(balances[a])
    ensures Affordable(t, ids)
  {
    hide SumOpen, Chosen;
    forall a | a in t.balances ensures SumOpen(Chosen(t.reservations, ids), a) <= t.balances[a].reserved {
      assert WellFormed(balances[a]);
    }
  }

  /** A cancellation is possible exactly when the accounts reserve what it gives back. */
  lemma ReleasableExactly(t: Tables, id: OrderId)
    requires Composed(t) && Backing(t)
    ensures Releasable(t, id) <==> Affordable(t, Candidates(t, id))
  {
    hide SumOpen, Chosen, IsCandidate, WellFormed;
    forall a | a in t.balances
      ensures GivenBack(t, id, a) == SumOpen(Chosen(t.reservations, Candidates(t, id)), a) >= 0
      ensures WellFormed(t.balances[a]) && 0 <= t.balances[a].reserved
    {
      ChosenMonotone(t.reservations, Candidates(t, id), Candidates(t, id), a);
      assert WellFormed(t.balances[a]);
      PartsNonNegative(t.balances[a]);
    }
    CandidatesLive(t, id);
    hide Candidates;
  }

  lemma PartsNonNegative(b: Balance)
    requires WellFormed(b)
    ensures 0 <= b.reserved
  {
  }

  lemma GiveOneBack(t: Tables, done: set<ReservationId>, r: ReservationId, balances: map<Account, Balance>,
                    after: map<Account, Balance>)
    requires GivenBackSoFar(t, done, balances)
    requires r in t.reservations && r !in done && !t.reservations[r].released
    requires var row := t.reservations[r];
             && row.account in balances && Release(balances[row.account], row.amount).Ok?
             && after == balances[row.account := Release(balances[row.account], row.amount).value]
    ensures GivenBackSoFar(t, done + {r}, after)
  {
    hide SumOpen, Chosen;
    forall a | a in t.balances
      ensures after[a] == Balance(t.balances[a].total,
                                  t.balances[a].available + SumOpen(Chosen(t.reservations, done + {r}), a),
                                  t.balances[a].reserved - SumOpen(Chosen(t.reservations, done + {r}), a))
    {
      ChosenGrows(t.reservations, done, r, a);
    }
  }

  lemma CandidatesLive(t: Tables, id: OrderId)
    ensures forall r | r in Candidates(t, id) :: r in t.reservations && !t.reservations[r].released
  {
  }

  /** Orders with some of them cancelled, those still live. */
  function Struck(orders: map<OrderId, OrderRow>, ids: set<OrderId>): map<OrderId, OrderRow> {
    map o | o in orders ::
      if o in ids && !IsTerminal(orders[o].status) then orders[o].(status := CANCELLED) else orders[o]
  }

  lemma StruckNone(orders: map<OrderId, OrderRow>)
    ensures Struck(orders, {}) == orders
  {
  }

  lemma StruckOne(orders: map<OrderId, OrderRow>, done: set<OrderId>, id: OrderId)
    requires id in orders && id !in done
    ensures id in Struck(orders, done) && Struck(orders, done)[id] == orders[id]
    ensures Struck(orders, done + {id}) ==
              if IsTerminal(orders[id].status) then Struck(orders, done)
              else Struck(orders, done)[id := orders[id].(status := CANCELLED)]
  {
  }

  /** The order itself, and every leg of its group. */
  function LegIds(orders: map<OrderId, OrderRow>, id: OrderId): set<OrderId>
    requires id in orders
  {
    set o | o in orders && (o == id || (orders[id].group.Some? && orders[o].group == orders[id].group))
  }

  /** The tables with the legs of an order struck and its group resolved. */
  predicate StruckFrom(t: Tables, id: OrderId, struck: Tables)
    requires id in t.orders
  {
    var group := t.orders[id].group;
    struck == t.(orders := Struck(t.orders, LegIds(t.orders, id)),
                 groups := if group.Some? && group.value in t.groups && t.groups[group.value].active
                           then t.groups[group.value := t.groups[group.value].(active := false)] else t.groups)
  }

  lemma LegsKnown(orders: map<OrderId, OrderRow>, id: OrderId)
    requires id in orders
    ensures LegIds(orders, id) <= orders.Keys
  {
  }

  lemma StruckKeeps(t: Tables, id: OrderId, struck: Tables, ids: set<ReservationId>)
    requires id in t.orders && StruckFrom(t, id, struck) && Composed(t) && Backing(t)
    ensures struck.balances == t.balances && struck.reservations == t.reservations
    ensures Composed(struck) && Backing(struck) && Affordable(struck, ids) == Affordable(t, ids)
  {
    hide Struck, LegIds, SumOpen, WellFormed;
    SameBalances(t, struck);
  }

  /** Striking the legs, resolving the group and giving the reservations back is the cancellation. */
  lemma CancelledInSteps(t: Tables, id: OrderId, struck: Tables, after: Tables)
    requires id in t.orders && StruckFrom(t, id, struck)
    requires GivenBackSoFar(struck, Candidates(t, id), after.balances)
    requires after == struck.(balances := after.balances, reservations := Retired(t.reservations, Candidates(t, id)))
    ensures after == Cancelled(t, id)
  {
    hide SumOpen, Candidates, Chosen, Retired;
    var cancelled := Cancelled(t, id);
    assert after.orders == cancelled.orders by {
      hide GivenBackSoFar;
    }
    assert after.groups == cancelled.groups by {
      hide GivenBackSoFar, Struck, LegIds;
    }
    assert after.balances == cancelled.balances by {
      hide Struck, LegIds;
    }
    hide Struck, LegIds, GivenBackSoFar;
  }

  class Store {
    var sessions: map<SessionId, bool>
    var requests: map<RequestKey, RequestRow>
    var balances: map<Account, Balance>
    var averages: map<Account, Money>
    var groups: map<GroupId, GroupRow>
    var orders: map<OrderId, OrderRow>
    var reservations: map<ReservationId, ReservationRow>
    var fills: seq<FillRow>
    var epochs: map<Market, nat>

    function State(): Tables
      reads this
    {
      Tables(sessions, requests, balances, averages, groups, orders, reservations, fills, epochs)
    }

    ghost predicate Valid()
      reads this
    {
      Base(State())
    }

    constructor (sessions: map<SessionId, bool>, cash: map<Account, Money>)
      requires forall a | a in cash :: a.Wallet? && cash[a] >= 0
      ensures Valid() && Inv(State())
      ensures State() == Tables(sessions, map[], map a | a in cash :: Balance(cash[a], cash[a], 0),
                                map[], map[], map[], map[], [], map[])
    {
      this.sessions := sessions;
      requests := map[];
      balances := map a | a in cash :: Balance(cash[a], cash[a], 0);
      averages, groups, orders, reservations := map[], map[], map[], map[];
      fills := [];
      epochs := map[];
      new;
      assert forall a: Account :: SumOpen(reservations, a) == 0;
      assert forall a: Account :: ReservedIn(State(), a) == 0;
    }

    /** What a transaction does when its work throws: every table is as it was. */
    method Rollback(before: Tables)
      modifies this
      ensures State() == before
    {
      sessions, requests, balances := before.sessions, before.requests, before.balances;
      averages, groups, orders := before.averages, before.groups, before.orders;
      reservations, fills, epochs := before.reservations, before.fills, before.epochs;
    }

    // ---- Placement ----

    method Reserve(hold: Option<Hold>) returns (r: Result<()>)
      modifies this`balances
      ensures r.Ok? ==> ReserveOptional(old(State()), hold) == Ok(State())
      ensures r.Err? ==> ReserveOptional(old(State()), hold) == Err(r.code)
    {
      r := Ok(());
      if hold.Some? {
        var account := hold.value.account;
        if account !in balances {
          return Err(Shortage(account));
        }
        var after := Settlement.Reserve(balances[account], hold.value.amount, Shortage(account));
        if after.Err? {
          return Err(after.code);
        }
        balances := balances[account := after.value];
      }
    }

    method Insert(id: OrderId, order: OrderRow) returns (r: Result<()>)
      modifies this`orders
      ensures r.Ok? ==> InsertOrder(old(State()), id, order) == Ok(State())
      ensures r.Err? ==> InsertOrder(old(State()), id, order) == Err(r.code)
    {
      if id in orders || order.quantity <= 0 {
        return Err(CONSTRAINT_VIOLATION);
      }
      orders := orders[id := order.(filled := 0, winner := false)];
      r := Ok(());
    }

    method Record(id: ReservationId, owner: Owner, hold: Hold) returns (r: Result<()>)
      modifies this`reservations
      ensures r.Ok? ==> RecordReservation(old(State()), id, owner, hold) == Ok(State())
      ensures r.Err? ==> RecordReservation(old(State()), id, owner, hold) == Err(r.code)
    {
      if id in reservations || hold.amount < 0 {
        return Err(CONSTRAINT_VIOLATION);
      }
      reservations := reservations[id := ReservationRow(owner, hold.account, hold.amount, false)];
      r := Ok(());
    }

    /** The work of a placement, once its key is claimed. */
    method PlaceWork(c: PlaceCommand) returns (r: Result<()>)
      modifies this
      ensures r.Ok? ==> PlaceFresh(old(State()), c) == Ok(State())
      ensures r.Err? ==> PlaceFresh(old(State()), c) == Err(r.code)
    {
      hide ReserveOptional, InsertOrder, RecordReservation;
      requests := requests[RequestKey(c.session, c.key) := RequestRow(c.hash, None)];
      requests := requests[RequestKey(c.session, c.key) :=
        requests[RequestKey(c.session, c.key)].(completed := Some(c.response))];
      assert State() == Completed(old(State()), RequestKey(c.session, c.key), c.hash, c.response);
      r := Reserve(c.Cash());
      if r.Err? { return; }
      r := Reserve(c.Shares());
      if r.Err? { return; }
      if c.order.group.Some? && (c.order.group.value !in groups || !groups[c.order.group.value].active) {
        return Err(ORDER_STATE_CONFLICT);
      }
      if !(c.siblings <= orders.Keys) {
        return Err(ORDER_STATE_CONFLICT);
      }
      r := Insert(c.id, c.Row());
      if r.Err? { return; }
      if c.reservation.Some? {
        if c.cash.Some? {
          r := Record(c.reservation.value, OfOrder(c.id), c.Cash().value);
        } else if c.position.Some? {
          r := Record(c.reservation.value, OfOrder(c.id), c.Shares().value);
        }
        if r.Err? { return; }
      }
    }

    /** `commitTradingMutation`. */
    method CommitTradingMutation(c: PlaceCommand) returns (r: Result<Reply>)
      requires Valid()
      modifies this
      ensures Valid() && (old(Inv(State())) && CoherentCommand(Place(c)) ==> Inv(State()))
      ensures var spec := LedgerModel.CommitTradingMutation(old(State()), c);
              && (spec.Ok? ==> r == Ok(spec.value.reply) && State() == spec.value.tables)
              && (spec.Err? ==> r == Err(spec.code) && State() == old(State()))
    {
      hide PlaceFresh, Inv, Base, CoherentCommand;
      if c.session !in sessions || !sessions[c.session] {
        return Err(ACCOUNT_READ_ONLY);
      }
      var claim := Begin(State(), RequestKey(c.session, c.key), c.hash);
      if claim.Err? {
        return Err(claim.code);
      }
      if claim.value.Replayable? {
        return Ok(Reply(true, claim.value.response));
      }
      var before := State();
      var done := PlaceWork(c);
      if done.Err? {
        Rollback(before);
        return Err(done.code);
      }
      r := Ok(Reply(false, c.response));
      CommitKeeps(before, Place(c), State());
    }

    method PlaceOcoWork(c: OcoCommand) returns (r: Result<()>)
      modifies this
      ensures r.Ok? ==> PlaceOcoFresh(old(State()), c) == Ok(State())
      ensures r.Err? ==> PlaceOcoFresh(old(State()), c) == Err(r.code)
    {
      hide ReserveIn, InsertOrder, RecordReservation;
      requests := requests[RequestKey(c.session, c.key) := RequestRow(c.hash, None)];
      requests := requests[RequestKey(c.session, c.key) :=
        requests[RequestKey(c.session, c.key)].(completed := Some(c.response))];
      assert State() == Completed(old(State()), RequestKey(c.session, c.key), c.hash, c.response);
      r := Reserve(Some(c.hold));
      if r.Err? { return; }
      if c.group in groups {
        return Err(CONSTRAINT_VIOLATION);
      }
      groups := groups[c.group := GroupRow(c.session, true)];
      r := Insert(c.first, c.FirstRow());
      if r.Err? { return; }
      r := Insert(c.second, c.SecondRow());
      if r.Err? { return; }
      r := Record(c.reservation, OfGroup(c.group), c.hold);
    }

    /** `commitOcoPlacement`. */
    method CommitOcoPlacement(c: OcoCommand) returns (r: Result<Reply>)
      requires Valid()
      modifies this
      ensures Valid() && (old(Inv(State())) && CoherentCommand(PlaceOco(c)) ==> Inv(State()))
      ensures var spec := LedgerModel.CommitOcoPlacement(old(State()), c);
              && (spec.Ok? ==> r == Ok(spec.value.reply) && State() == spec.value.tables)
              && (spec.Err? ==> r == Err(spec.code) && State() == old(State()))
    {
      hide PlaceOcoFresh, Inv, Base, CoherentCommand;
      if c.session !in sessions || !sessions[c.session] {
        return Err(ACCOUNT_READ_ONLY);
      }
      var claim := Begin(State(), RequestKey(c.session, c.key), c.hash);
      if claim.Err? {
        return Err(claim.code);
      }
      if claim.value.Replayable? {
        return Ok(Reply(true, claim.value.response));
      }
      var before := State();
      var done := PlaceOcoWork(c);
      if done.Err? {
        Rollback(before);
        return Err(done.code);
      }
      r := Ok(Reply(false, c.response));
      CommitKeeps(before, PlaceOco(c), State());
    }

    // ---- Settlement ----

    /** `lockReservation`: the live reservation of an order or of its group. */
    method LockReservation(owner: Owner) returns (r: Option<ReservationId>)
      requires OneLive(State())
      ensures r == LedgerModel.LockReservation(State(), owner)
      ensures r.Some? ==> r.value in reservations
    {
      if id :| id in reservations && reservations[id].owner == owner && !reservations[id].released {
        assert OpenFor(State(), owner, id);
        r := Some(id);
      } else {
        r := None;
      }
    }

    /** The balance an order takes from is settled against its reservation. */
    method SettleAccount(id: OrderId, order: OrderRow, consumed: Money, terminal: bool, desired: Option<Money>)
        returns (r: Result<()>)
      requires OneLive(State()) && order.Funding() in balances
      modifies this`balances, this`reservations
      ensures r.Ok? ==> Debit(old(State()), id, order, consumed, terminal, desired) == Ok(State())
      ensures r.Err? ==> Debit(old(State()), id, order, consumed, terminal, desired) == Err(r.code)
    {
      hide Settle, LedgerModel.LockReservation, OneLive;
      var account := order.Funding();
      var reservation := LockReservation(order.Owner(id));
      var remaining := if reservation.Some? then reservations[reservation.value].amount else 0;
      var plan := PlanSettlement(Request(balances[account], remaining, consumed, terminal, desired), Shortage(account));
      if plan.Err? {
        return Err(plan.code);
      }
      balances := balances[account := plan.value.balance];
      if reservation.Some? {
        reservations := reservations[reservation.value :=
          reservations[reservation.value].(amount := plan.value.remaining, released := plan.value.released)];
      }
      r := Ok(());
    }

    /** The part both upserts share: an amount joins a wallet or a position. */
    method AddToAccount(account: Account, amount: Money) returns (r: Result<()>)
      modifies this`balances
      ensures r.Ok? ==> AddTo(old(State()), account, amount) == Ok(State())
      ensures r.Err? ==> AddTo(old(State()), account, amount) == Err(r.code)
    {
      var before := if account in balances then balances[account] else Balance(0, 0, 0);
      if before.available + amount < 0 || before.total + amount < 0 {
        return Err(CONSTRAINT_VIOLATION);
      }
      balances := balances[account := Balance(before.total + amount, before.available + amount, before.reserved)];
      r := Ok(());
    }

    /** The upsert of sale proceeds. */
    method CreditAccount(account: Account, amount: Money) returns (r: Result<()>)
      modifies this`balances
      ensures r.Ok? ==> Credit(old(State()), account, amount) == Ok(State())
      ensures r.Err? ==> Credit(old(State()), account, amount) == Err(r.code)
    {
      if amount < 0 {
        return Err(CONSTRAINT_VIOLATION);
      }
      r := AddToAccount(account, amount);
    }

    /** `growPosition`: quantity and cost are accumulated fill by fill from the stored average. */
    method GrowPosition(account: Account, bought: seq<Fill>) returns (r: Result<()>)
      modifies this`balances, this`averages
      ensures r.Ok? ==> LedgerModel.GrowPosition(old(State()), account, bought) == Ok(State())
      ensures r.Err? ==> LedgerModel.GrowPosition(old(State()), account, bought) == Err(r.code)
    {
      hide Exact, SumFills, Portfolio.AverageCost, AddTo;
      var held := if account in balances then balances[account].total else 0;
      var average := if account in averages then averages[account] else 0;
      var basis := Checked(average * held);
      if basis.Err? {
        return Err(basis.code);
      }
      var cost := SumOfFills(bought, 1, basis.value);
      if cost.Err? {
        return Err(cost.code);
      }
      var quantity := held;
      for i := 0 to |bought|
        invariant quantity == held + QuantityOf(bought[..i])
      {
        assert bought[..i + 1][..i] == bought[..i];
        quantity := quantity + bought[i].quantity;
      }
      assert bought[..|bought|] == bought;
      var added := Checked(quantity - held);
      if added.Err? {
        return Err(added.code);
      }
      var newAverage := Portfolio.AverageCost(quantity, cost.value);
      if newAverage.Err? {
        return Err(newAverage.code);
      }
      r := AddToAccount(account, added.value);
      if r.Ok? {
        averages := averages[account := newAverage.value];
      }
    }

    /** `settleFill`. */
    method SettleFill(id: OrderId, order: OrderRow, batch: seq<Fill>, terminal: bool, desired: Option<Money>)
        returns (r: Result<()>)
      requires OneLive(State())
      modifies this`balances, this`averages, this`reservations
      ensures r.Ok? ==> LedgerModel.SettleFill(old(State()), id, order, batch, terminal, desired) == Ok(State())
      ensures r.Err? ==> LedgerModel.SettleFill(old(State()), id, order, batch, terminal, desired) == Err(r.code)
    {
      hide SumFills, Debit, LedgerModel.GrowPosition, Credit, OneLive;
      if order.Funding() !in balances {
        return Err(Shortage(order.Funding()));
      }
      if order.side == BUY {
        var cost := SumOfFills(batch, 1, 0);
        if cost.Err? {
          return Err(cost.code);
        }
        r := SettleAccount(id, order, cost.value, terminal, desired);
        if r.Err? { return; }
        r := GrowPosition(order.Receiving(), batch);
      } else {
        r := SettleAccount(id, order, QuantityOf(batch), terminal, desired);
        if r.Err? { return; }
        var proceeds := SumOfFills(batch, -1, 0);
        if proceeds.Err? {
          return Err(proceeds.code);
        }
        r := CreditAccount(order.Receiving(), proceeds.value);
      }
    }

    // ---- Fills and triggers ----

    /** The fill rows of a batch are inserted one by one. */
    method InsertFills(id: OrderId, order: OrderRow, batch: seq<Fill>, token: nat)
      modifies this`fills
      ensures fills == old(fills) + RowsOf(id, order, batch, token)
    {
      for i := 0 to |batch|
        invariant fills == old(fills) + RowsOf(id, order, batch[..i], token)
      {
        assert RowsOf(id, order, batch[..i + 1], token)
            == RowsOf(id, order, batch[..i], token) + [RowOf(id, order, batch[i], token)];
        fills := fills + [RowOf(id, order, batch[i], token)];
      }
      assert batch[..|batch|] == batch;
    }

    method FillWork(c: FillCommand) returns (r: Result<()>)
      requires c.schedule.Valid() && OneLive(State())
      modifies this
      ensures r.Ok? ==> LedgerModel.PersistFill(old(State()), c) == Ok(State())
      ensures r.Err? ==> LedgerModel.PersistFill(old(State()), c) == Err(r.code)
    {
      hide LedgerModel.SettleFill, RemainingExposure, Storable;
      if c.order !in orders {
        return Err(INVALID_ORDER);
      }
      var order := orders[c.order];
      if order.session !in sessions {
        return Err(ACCOUNT_READ_ONLY);
      }
      if IsTerminal(order.status) {
        return Err(ORDER_TERMINAL);
      }
      if order.market !in epochs || epochs[order.market] != c.token {
        return Err(ORDER_STATE_CONFLICT);
      }
      if !(0 <= c.filledAfter <= order.quantity && Storable(c.fills)) {
        return Err(CONSTRAINT_VIOLATION);
      }
      orders := orders[c.order := order.(filled := c.filledAfter, status := c.nextStatus)];
      InsertFills(c.order, order, c.fills, c.token);
      assert State() == RecordFills(old(State()), c, order);
      var terminal := c.nextStatus == FILLED || c.nextStatus == CANCELLED;
      var desired := RemainingExposure(order, c.filledAfter, terminal, c.schedule);
      if desired.Err? {
        return Err(desired.code);
      }
      assert OneLive(State()) by { OneLiveCarries(old(State()), State()); }
      r := SettleFill(c.order, order, c.fills, terminal, desired.value);
    }

    /** `persistFill`. */
    method PersistFill(c: FillCommand) returns (r: Result<()>)
      requires Valid() && c.schedule.Valid()
      modifies this
      ensures Valid() && (old(Inv(State())) ==> Inv(State()))
      ensures var spec := LedgerModel.PersistFill(old(State()), c);
              && (spec.Ok? ==> r.Ok? && State() == spec.value)
              && (spec.Err? ==> r == Err(spec.code) && State() == old(State()))
    {
      hide LedgerModel.PersistFill, Inv, Base, OneLive;
      var before := State();
      BaseOneLive(before);
      r := FillWork(c);
      if r.Err? {
        Rollback(before);
      } else {
        CommitKeeps(before, Fills(c), State());
      }
    }

    method TriggerWork(c: TriggerCommand) returns (r: Result<()>)
      requires c.schedule.Valid() && OneLive(State())
      modifies this
      ensures r.Ok? ==> LedgerModel.PersistTrigger(old(State()), c) == Ok(State())
      ensures r.Err? ==> LedgerModel.PersistTrigger(old(State()), c) == Err(r.code)
    {
      hide LedgerModel.SettleFill, Calculate, Storable;
      if c.order !in orders {
        return Err(INVALID_ORDER);
      }
      var order := orders[c.order];
      if order.session !in sessions {
        return Err(ACCOUNT_READ_ONLY);
      }
      if order.market !in epochs || epochs[order.market] != c.token {
        return Err(ORDER_STATE_CONFLICT);
      }
      if IsTerminal(order.status) {
        return Ok(());
      }
      var fee := Calculate(c.schedule, order.side, c.price, order.quantity);
      if fee.Err? {
        return Err(fee.code);
      }
      var slotFree := WinnerSlotFree(State(), c.order, order.group);
      var fill := Fill(c.price, order.quantity, fee.value);
      if !slotFree || !Storable([fill]) {
        return Err(CONSTRAINT_VIOLATION);
      }
      orders := orders[c.order := order.(filled := order.quantity, status := FILLED, winner := order.group.Some?)];
      InsertFills(c.order, order, [fill], c.token);
      assert State() == RecordTrigger(old(State()), c, order, fill);
      assert OneLive(State()) by { OneLiveCarries(old(State()), State()); }
      r := SettleFill(c.order, order, [fill], true, None);
      if r.Err? { return; }
      if order.group.Some? {
        orders := map o | o in orders ::
          if IsLiveSibling(orders[o], o, c.order, order.group) then orders[o].(status := CANCELLED) else orders[o];
        if order.group.value in groups {
          groups := groups[order.group.value := groups[order.group.value].(active := false)];
        }
      }
    }

    /** `persistTrigger`. */
    method PersistTrigger(c: TriggerCommand) returns (r: Result<()>)
      requires Valid() && c.schedule.Valid()
      modifies this
      ensures Valid() && (old(Inv(State())) ==> Inv(State()))
      ensures var spec := LedgerModel.PersistTrigger(old(State()), c);
              && (spec.Ok? ==> r.Ok? && State() == spec.value)
              && (spec.Err? ==> r == Err(spec.code) && State() == old(State()))
    {
      hide LedgerModel.PersistTrigger, Inv, Base, OneLive;
      var before := State();
      BaseOneLive(before);
      r := TriggerWork(c);
      if r.Err? {
        Rollback(before);
      } else {
        CommitKeeps(before, Triggers(c), State());
      }
    }

    // ---- Cancellation ----

    /** Every live leg is cancelled, one row at a time. */
    method CancelLegs(ids: set<OrderId>)
      requires ids <= orders.Keys
      modifies this`orders
      ensures orders == Struck(old(orders), ids)
    {
      ghost var before := orders;
      var legs := ids;
      StruckNone(before);
      while legs != {}
        invariant legs <= ids && orders == Struck(before, ids - legs)
      {
        var leg :| leg in legs;
        StruckOne(before, ids - legs, leg);
        assert ids - (legs - {leg}) == ids - legs + {leg};
        if !IsTerminal(orders[leg].status) {
          orders := orders[leg := orders[leg].(status := CANCELLED)];
        }
        legs := legs - {leg};
      }
    }

    /** Every candidate reservation is released into its account; refused exactly when one of them holds too little. */
    method GiveBackAll(ids: set<ReservationId>) returns (r: Result<()>)
      requires Composed(State()) && Backing(State())
      requires forall k | k in ids :: k in reservations && !reservations[k].released
      modifies this`balances, this`reservations
      ensures r.Ok? <==> Affordable(old(State()), ids)
      ensures r.Ok? ==> reservations == Retired(old(reservations), ids) && GivenBackSoFar(old(State()), ids, balances)
      ensures r.Err? ==> r.code == INVARIANT_VIOLATION
    {
      hide SumOpen, Affordable;
      ghost var before := State();
      var candidates := ids;
      ghost var done: set<ReservationId> := {};
      NothingRetired(before.reservations);
      while candidates != {}
        invariant done + candidates == ids && done !! candidates
        invariant reservations == Retired(before.reservations, done)
        invariant GivenBackSoFar(before, done, balances)
        invariant forall a | a in balances :: WellFormed(balances[a])
      {
        var k :| k in candidates;
        var row := reservations[k];
        assert row == before.reservations[k] && !row.released && row.amount >= 0 && row.account in before.balances;
        var released := Release(balances[row.account], row.amount);
        if released.Err? {
          RefusedRelease(before, ids, done, k, balances);
          return Err(released.code);
        }
        GiveOneBack(before, done, k, balances, balances[row.account := released.value]);
        balances := balances[row.account := released.value];
        reservations := reservations[k := row.(released := true)];
        candidates, done := candidates - {k}, done + {k};
      }
      assert done == ids;
      AllAffordable(before, ids, balances);
      r := Ok(());
    }

    /** The legs are struck and the group is resolved. */
    method StrikeLegs(id: OrderId)
      requires id in orders
      modifies this`orders, this`groups
      ensures StruckFrom(old(State()), id, State())
    {
      hide Struck, LegIds;
      var group := orders[id].group;
      assert LegIds(orders, id) <= orders.Keys by { LegsKnown(orders, id); }
      CancelLegs(LegIds(orders, id));
      if group.Some? && group.value in groups && groups[group.value].active {
        groups := groups[group.value := groups[group.value].(active := false)];
      }
    }

    /** The work of a cancellation: the legs struck, the group resolved, the reservations given back. */
    method CancelWork(id: OrderId) returns (r: Result<()>)
      requires id in orders && Composed(State()) && Backing(State())
      modifies this
      ensures r.Ok? <==> Releasable(old(State()), id)
      ensures r.Ok? ==> State() == Cancelled(old(State()), id)
      ensures r.Err? ==> r.code == INVARIANT_VIOLATION
    {
      hide Releasable, SumOpen, GivenBack, Cancelled, Composed, Backing, StruckFrom, GivenBackSoFar, Retired,
           Candidates, Affordable;
      ghost var before := State();
      ReleasableExactly(before, id);
      var candidates := Candidates(State(), id);
      CandidatesLive(State(), id);
      StrikeLegs(id);
      StruckKeeps(before, id, State(), candidates);
      ghost var struck := State();
      r := GiveBackAll(candidates);
      if r.Ok? {
        CancelledInSteps(before, id, struck, State());
      }
    }

    /** The ledger half of `cancelOrder`. */
    method CancelOrder(c: CancelCommand) returns (r: Result<()>)
      requires Valid()
      modifies this
      ensures Valid() && (old(Inv(State())) ==> r != Err(INVARIANT_VIOLATION) && Inv(State()))
      ensures var spec := LedgerModel.CancelOrder(old(State()), c);
              && (spec.Ok? ==> r.Ok? && State() == spec.value)
              && (spec.Err? ==> r == Err(spec.code) && State() == old(State()))
    {
      hide Releasable, Cancelled, Base, Inv;
      if c.session !in sessions || !sessions[c.session] {
        return Err(ACCOUNT_READ_ONLY);
      }
      if c.order !in orders || orders[c.order].session != c.session {
        return Err(INVALID_ORDER);
      }
      if IsTerminal(orders[c.order].status) {
        return Ok(());
      }
      var before := State();
      BaseOneLive(before);
      r := CancelWork(c.order);
      if r.Err? {
        Rollback(before);
        NeverRefused(before, c.order);
      } else {
        CommitKeeps(before, Cancels(c), State());
      }
    }

    // ---- Leadership and sessions ----

    method AcquireEpoch(market: Market) returns (token: nat)
      requires Valid()
      modifies this`epochs
      ensures Valid() && (old(Inv(State())) ==> Inv(State()))
      ensures State() == LedgerModel.AcquireEpoch(old(State()), market)
      ensures market in epochs && token == epochs[market]
    {
      hide Base, Inv;
      token := if market in epochs then epochs[market] + 1 else 1;
      ghost var before := State();
      epochs := epochs[market := token];
      CommitKeeps(before, Acquires(market), State());
    }

    /** `expireSession`: only an active session ends, and it never comes back. */
    method ExpireSession(session: SessionId)
      requires Valid()
      modifies this`sessions
      ensures Valid() && (old(Inv(State())) ==> Inv(State()))
      ensures State() == LedgerModel.ExpireSession(old(State()), session)
    {
      hide Base, Inv;
      ghost var before := State();
      if session in sessions && sessions[session] {
        sessions := sessions[session := false];
      }
      CommitKeeps(before, Expires(session), State());
    }
  }

  lemma BaseOneLive(t: Tables)
    requires Base(t)
    ensures OneLive(t) && Composed(t) && Backing(t)
  {
    hide OneLive, Composed, Backing;
  }

  lemma NeverRefused(t: Tables, id: OrderId)
    ensures Inv(t) ==> Releasable(t, id)
  {
    if Inv(t) {
      AlwaysReleasable(t, id);
    }
  }
}
