/**
  OCO placements whose legs trade another market than the hold: the placement service takes the
  hold from the request and the legs from the legs, and never compares the two. Exactly which
  placements the consistency check survives, and the run in which the others fail it.
 */
module LedgerMismatch {
  import opened Types
  import opened Arithmetic
  import opened ExactMoney
  import opened Fees
  import opened Execution
  import opened Reservation
  import opened Settlement
  import opened LedgerModel
  import opened LedgerInvariants
  import opened LedgerSteps
  import opened LedgerRuns
  import opened LedgerOco
  import Portfolio

  /** The account the placement service holds an OCO pair's exposure in: it goes by the request's market. */
  function HoldAccount(p: OcoCommand, market: Market): Account {
    if p.firstLeg.side == BUY then Wallet(p.session, CurrencyFor(market))
    else Position(p.session, market, p.firstLeg.symbol)
  }

  /**
    What the placement service sends for a request in one market: two waiting legs of the same side,
    symbol and quantity, a whole number the exact-money domain has room for, and the amount planned
    for the pair, held in the request's market: the shares as twenty digits carry them, or some cash.
   */
  predicate FromRequest(p: OcoCommand, market: Market) {
    && p.firstLeg.side == p.secondLeg.side && p.firstLeg.symbol == p.secondLeg.symbol
    && p.firstLeg.quantity == p.secondLeg.quantity && 0 < p.firstLeg.quantity < Pow10(PRECISION)
    && p.firstLeg.status == p.secondLeg.status == PENDING_TRIGGER && p.first != p.second
    && p.hold.account == HoldAccount(p, market) && p.hold.amount > 0 && Exact(p.hold.amount)
    && (p.firstLeg.side == SELL ==> p.hold.amount == Carried(p.firstLeg.quantity))
  }

  /** The consistency check finds nothing. */
  ghost predicate Clean(t: Tables) {
    VerifyLedger(t) == InvariantCounts({}, {}, {})
  }

  /**
    From every sound ledger, whatever coherent transactions follow the placement, the consistency
    check finds nothing.
   */
  ghost predicate AlwaysClean(p: OcoCommand) {
    forall t: Tables, cs: seq<Command> | Inv(t) && ValidCommands(cs) && CoherentCommands(cs) ::
      Clean(Run(Apply(t, PlaceOco(p)), cs))
  }

  // ---- The run that fails the check ----

  function LegRow(p: OcoCommand, id: OrderId): OrderRow {
    (if id == p.first then p.FirstRow() else p.SecondRow()).(filled := 0, winner := false)
  }

  /** What the trigger of a leg takes, and what it brings, at a price. */
  function Taken(p: OcoCommand, price: Money): Money {
    if p.firstLeg.side == BUY then price * p.firstLeg.quantity else p.firstLeg.quantity
  }

  /** What the leg's account is opened with: enough for what the trigger takes and for the ordinary order. */
  function Most(p: OcoCommand, price: Money): Money {
    Max(Taken(p, price), p.hold.amount)
  }

  /** At this price the trigger of a leg stays in the exact-money domain. */
  predicate Fitting(p: OcoCommand, price: Money) {
    var quantity := p.firstLeg.quantity;
    && price > 0 && quantity > 0 && p.hold.amount > 0
    && Exact(price * quantity) && Exact(quantity) && Exact(p.hold.amount)
    && Exact(Most(p, price)) && Exact(Most(p, price) - p.hold.amount) && Exact(Most(p, price) - Taken(p, price))
    && (p.firstLeg.side == BUY ==> Portfolio.AverageCost(quantity, price * quantity).Ok?)
  }

  /** A session with what is held in one account, and enough in the account a leg takes from. */
  function Opened(p: OcoCommand, id: OrderId, price: Money): Tables {
    var amount, most := p.hold.amount, Most(p, price);
    Tables(map[p.session := true], map[],
           map[p.hold.account := Balance(amount, amount, 0), LegRow(p, id).Funding() := Balance(most, most, 0)],
           map[], map[], map[], map[], [], map[])
  }

  function Other(p: OcoCommand): OrderId {
    p.first + p.second + 1
  }

  /** An ordinary order that takes from the leg's account and reserves there as much as the pair holds. */
  function Ordinary(p: OcoCommand, id: OrderId): PlaceCommand {
    var row := LegRow(p, id);
    PlaceCommand(p.session, p.key + "+", p.hash, p.response, Other(p), row.(group := None, status := OPEN),
                 if row.side == BUY then Some(CashHold(CurrencyFor(row.market), p.hold.amount)) else None,
                 if row.side == BUY then None else Some(SharesHold(row.market, row.symbol, p.hold.amount)),
                 Some(p.reservation + 1), {})
  }

  /** The ledger once the ordinary order and the pair are placed and the market has a leader. */
  function Placed2(p: OcoCommand, id: OrderId, price: Money): Tables {
    var amount, most, row := p.hold.amount, Most(p, price), LegRow(p, id);
    var o := Ordinary(p, id);
    Tables(map[p.session := true],
           map[RequestKey(p.session, o.key) := RequestRow(o.hash, Some(o.response))]
              [RequestKey(p.session, p.key) := RequestRow(p.hash, Some(p.response))],
           map[p.hold.account := Balance(amount, 0, amount), row.Funding() := Balance(most, most - amount, amount)],
           map[],
           map[p.group := GroupRow(p.session, true)],
           map[Other(p) := o.Row().(filled := 0, winner := false)]
              [p.first := LegRow(p, p.first)][p.second := LegRow(p, p.second)],
           map[p.reservation + 1 := ReservationRow(OfOrder(Other(p)), row.Funding(), amount, false)]
              [p.reservation := ReservationRow(OfGroup(p.group), p.hold.account, amount, false)],
           [],
           map[row.market := 1])
  }

  /** The shape of a pair, its amounts apart. */
  predicate TwoLegs(p: OcoCommand) {
    && p.firstLeg.side == p.secondLeg.side && p.firstLeg.symbol == p.secondLeg.symbol
    && p.firstLeg.quantity == p.secondLeg.quantity > 0 && p.hold.amount > 0
    && p.firstLeg.status == p.secondLeg.status == PENDING_TRIGGER && p.first != p.second
    && p.hold.account.Wallet? == (p.firstLeg.side == BUY)
  }

  predicate OffAccount(p: OcoCommand, id: OrderId) {
    id in {p.first, p.second} && LegRow(p, id).Funding() != p.hold.account
  }

  lemma OpenedIsSound(p: OcoCommand, id: OrderId, price: Money)
    requires p.hold.amount >= 0
    ensures Inv(Opened(p, id, price))
  {
    var t := Opened(p, id, price);
    assert forall a: Account :: SumOpen(t.reservations, a) == 0;
  }

  /** The ledger after the ordinary order. */
  function Placed1(p: OcoCommand, id: OrderId, price: Money): Tables {
    var amount, most, row := p.hold.amount, Most(p, price), LegRow(p, id);
    var o := Ordinary(p, id);
    Opened(p, id, price).(requests := map[RequestKey(p.session, o.key) := RequestRow(o.hash, Some(o.response))],
                   balances := map[p.hold.account := Balance(amount, amount, 0),
                                   row.Funding() := Balance(most, most - amount, amount)],
                   orders := map[Other(p) := o.Row().(filled := 0, winner := false)],
                   reservations := map[p.reservation + 1 :=
                     ReservationRow(OfOrder(Other(p)), row.Funding(), amount, false)])
  }

  lemma OrdinaryCoherent(p: OcoCommand, id: OrderId)
    requires id in {p.first, p.second}
    ensures CoherentCommand(Place(Ordinary(p, id)))
    ensures var o := Ordinary(p, id);
            (if o.cash.Some? then o.Cash() else o.Shares()) == Some(Hold(LegRow(p, id).Funding(), p.hold.amount))
  {
  }

  /** Reserving in an account that reserves nothing yet. */
  lemma ReserveFirst(t: Tables, account: Account, amount: Money, total: Money, before: map<Account, Balance>)
    requires 0 <= amount <= total && t.balances == before && account in before
    requires before[account] == Balance(total, total, 0)
    ensures ReserveIn(t, Hold(account, amount))
         == Ok(t.(balances := before[account := Balance(total, total - amount, amount)]))
  {
  }

  lemma OrdinaryPlaced(p: OcoCommand, id: OrderId, price: Money)
    requires p.hold.amount > 0 && LegRow(p, id).quantity > 0 && OffAccount(p, id)
    ensures Apply(Opened(p, id, price), Place(Ordinary(p, id))) == Placed1(p, id, price)
  {
    OrdinaryCoherent(p, id);
    hide CoherentCommand, LegRow;
    var t, o, amount, most := Opened(p, id, price), Ordinary(p, id), p.hold.amount, Most(p, price);
    var account := LegRow(p, id).Funding();
    var t1 := Completed(t, RequestKey(o.session, o.key), o.hash, o.response);
    ReserveFirst(t1, account, amount, most, t.balances);
    var balances := map[p.hold.account := Balance(amount, amount, 0), account := Balance(most, most - amount, amount)];
    assert t.balances[account := Balance(most, most - amount, amount)] == balances;
    var t2 := t1.(balances := balances);
    hide ReserveIn, Most;
    OrdinaryInserted(p, id, t2);
    hide InsertOrder, RecordHold;
    assert ReserveOptional(ReserveOptional(t1, o.Cash()).value, o.Shares()) == Ok(t2);
    hide ReserveOptional;
    assert PlaceFresh(t, o) == Ok(Placed1(p, id, price));
    hide PlaceFresh, Placed1;
  }

  lemma OrdinaryInserted(p: OcoCommand, id: OrderId, t: Tables)
    requires p.hold.amount > 0 && LegRow(p, id).quantity > 0 && id in {p.first, p.second}
    requires t.orders == map[] && t.reservations == map[]
    ensures var o := Ordinary(p, id);
            InsertOrder(t, o.id, o.Row()).Ok?
            && RecordHold(InsertOrder(t, o.id, o.Row()).value, o)
               == Ok(t.(orders := map[Other(p) := o.Row().(filled := 0, winner := false)],
                        reservations := map[p.reservation + 1 :=
                          ReservationRow(OfOrder(Other(p)), LegRow(p, id).Funding(), p.hold.amount, false)]))
  {
    OrdinaryCoherent(p, id);
    var o := Ordinary(p, id);
    var t1 := InsertOrder(t, o.id, o.Row()).value;
    assert t1.orders == map[Other(p) := o.Row().(filled := 0, winner := false)];
    hide LegRow;
  }

  lemma Positive(a: int, b: int)
    requires a > 0 && b > 0
    ensures a * b > 0
  {
  }

  lemma PairInserted(t: Tables, p: OcoCommand)
    requires p.hold.amount > 0 && p.firstLeg.quantity > 0 && p.secondLeg.quantity > 0 && p.first != p.second
    requires p.first !in t.orders && p.second !in t.orders && p.reservation !in t.reservations
    ensures InsertOrder(t, p.first, p.FirstRow()).Ok?
    ensures var t1 := InsertOrder(t, p.first, p.FirstRow()).value;
            InsertOrder(t1, p.second, p.SecondRow()).Ok?
            && RecordReservation(InsertOrder(t1, p.second, p.SecondRow()).value, p.reservation, OfGroup(p.group),
                                 p.hold)
               == Ok(t.(orders := t.orders[p.first := LegRow(p, p.first)][p.second := LegRow(p, p.second)],
                        reservations := t.reservations[p.reservation :=
                          ReservationRow(OfGroup(p.group), p.hold.account, p.hold.amount, false)]))
  {
  }

  lemma PairPlaced(p: OcoCommand, id: OrderId, price: Money)
    requires TwoLegs(p) && OffAccount(p, id)
    ensures CommitOcoPlacement(Placed1(p, id, price), p).Ok?
    ensures Apply(Placed1(p, id, price), PlaceOco(p)) == Placed2(p, id, price).(epochs := map[])
  {
    hide TwoLegs, OffAccount, LegRow, Placed2, PlaceOcoFresh;
    PairPlacedFresh(p, id, price);
    OtherKey(p);
  }

  lemma PairPlacedFresh(p: OcoCommand, id: OrderId, price: Money)
    requires TwoLegs(p) && OffAccount(p, id)
    ensures PlaceOcoFresh(Placed1(p, id, price), p) == Ok(Placed2(p, id, price).(epochs := map[]))
  {
    var t, amount, most := Placed1(p, id, price), p.hold.amount, Most(p, price);
    var account := LegRow(p, id).Funding();
    hide LegRow, Ordinary, Most;
    var t1 := Completed(t, RequestKey(p.session, p.key), p.hash, p.response);
    ReserveFirst(t1, p.hold.account, amount, amount, t.balances);
    var balances := map[p.hold.account := Balance(amount, 0, amount), account := Balance(most, most - amount, amount)];
    assert t.balances[p.hold.account := Balance(amount, 0, amount)] == balances;
    var t2 := t1.(balances := balances);
    assert ReserveIn(t1, p.hold) == Ok(t2);
    hide ReserveIn;
    var t3 := t2.(groups := t2.groups[p.group := GroupRow(p.session, true)]);
    PairInserted(t3, p);
    hide InsertOrder, RecordReservation;
  }

  lemma OtherKey(p: OcoCommand)
    ensures p.key + "+" != p.key
  {
    assert |p.key + "+"| != |p.key|;
  }

  // ---- The trigger that commits ----

  function Shot(p: OcoCommand, id: OrderId, price: Money): TriggerCommand {
    TriggerCommand(id, price, 1, FREE)
  }

  lemma OneFillSums(fill: Fill, sign: int)
    requires fill.fee == 0 && Exact(fill.price * fill.quantity)
    ensures SumFills([fill], sign, 0) == Ok(fill.price * fill.quantity)
    ensures QuantityOf([fill]) == fill.quantity
  {
    hide Exact;
    assert [fill][..0] == [];
  }

  /** Against the pair's reservation a leg of another account settles out of what that account reserves for others. */
  lemma DebitCommits(t: Tables, p: OcoCommand, id: OrderId, price: Money, fills: seq<FillRow>,
                     orders: map<OrderId, OrderRow>)
    requires Fitting(p, price) && OffAccount(p, id)
    requires t == Placed2(p, id, price).(fills := fills, orders := orders)
    ensures var debited := Debit(t, id, LegRow(p, id), Taken(p, price), true, None);
            var left := Most(p, price) - Taken(p, price);
            && debited.Ok? && debited.value.averages == t.averages
            && debited.value.balances == t.balances[LegRow(p, id).Funding() := Balance(left, left, 0)]
  {
    ZeroFits();
    hide Exact, Portfolio.AverageCost;
    TakesSomething(p, price);
    OnlyHold(t, p, id, price, fills, orders);
    SettlesOnOthers(p, price, Shortage(LegRow(p, id).Funding()));
    hide Settlement.Settle, LockReservation, Most, Taken, LegRow, Ordinary, Fitting;
  }

  lemma OnlyHold(t: Tables, p: OcoCommand, id: OrderId, price: Money, fills: seq<FillRow>,
                 orders: map<OrderId, OrderRow>)
    requires OffAccount(p, id)
    requires t == Placed2(p, id, price).(fills := fills, orders := orders)
    ensures LockReservation(t, LegRow(p, id).Owner(id)) == Some(p.reservation)
  {
    hide Most;
    assert LegRow(p, id).Owner(id) == OfGroup(p.group);
    assert OpenFor(t, OfGroup(p.group), p.reservation);
    assert forall k: ReservationId | OpenFor(t, OfGroup(p.group), k) :: k == p.reservation;
  }

  lemma TakesSomething(p: OcoCommand, price: Money)
    requires price > 0 && p.firstLeg.quantity > 0
    ensures Taken(p, price) > 0 && price * p.firstLeg.quantity > 0
  {
    Positive(price, p.firstLeg.quantity);
  }

  lemma SettlesOnOthers(p: OcoCommand, price: Money, shortage: ErrorCode)
    requires Fitting(p, price) && Exact(0) && Taken(p, price) > 0
    ensures var amount, most, taken := p.hold.amount, Most(p, price), Taken(p, price);
            Settlement.Settle(Settlement.Request(Balance(most, most - amount, amount), amount, taken, true, None),
                              shortage)
            == Ok(Settlement.Plan(Balance(most - taken, most - taken, 0), 0, true))
  {
    hide Exact, Portfolio.AverageCost;
  }

  lemma TriggerCommits(p: OcoCommand, id: OrderId, price: Money)
    requires TwoLegs(p) && Fitting(p, price) && OffAccount(p, id)
    ensures PersistTrigger(Placed2(p, id, price), Shot(p, id, price)).Ok?
  {
    hide Debit, Calculate, Exact, Portfolio.AverageCost, SumFills, Most;
    TakesSomething(p, price);
    var t, row := Placed2(p, id, price), LegRow(p, id);
    FreeOfCharge(row.side, price, row.quantity);
    var fill := Fill(price, row.quantity, 0);
    var recorded := RecordTrigger(t, Shot(p, id, price), row, fill);
    DebitCommits(recorded, p, id, price, recorded.fills, recorded.orders);
    OneFillSums(fill, 1);
    OneFillSums(fill, -1);
    ZeroFits();
    var paid := Debit(recorded, id, row, Taken(p, price), true, None).value;
    assert SettleFill(recorded, id, row, [fill], true, None).Ok? by {
      Received(p, id, price, paid, fill);
    }
    assert t.orders[id] == row && row.session in t.sessions && !IsTerminal(row.status) && Fenced(t, row.market, 1);
    assert WinnerSlotFree(t, id, row.group) && Storable([fill]);
    hide SettleFill;
  }

  /** What was bought, or the proceeds, are taken in. */
  lemma Received(p: OcoCommand, id: OrderId, price: Money, paid: Tables, fill: Fill)
    requires TwoLegs(p) && Fitting(p, price) && OffAccount(p, id)
    requires fill == Fill(price, LegRow(p, id).quantity, 0)
    requires var left := Most(p, price) - Taken(p, price);
             paid.balances == Placed2(p, id, price).balances[LegRow(p, id).Funding() := Balance(left, left, 0)]
    requires paid.averages == map[]
    ensures LegRow(p, id).side == BUY ==> GrowPosition(paid, LegRow(p, id).Receiving(), [fill]).Ok?
    ensures LegRow(p, id).side == SELL ==> Credit(paid, LegRow(p, id).Receiving(), price * LegRow(p, id).quantity).Ok?
  {
    hide Exact, Portfolio.AverageCost, SumFills, Most;
    OneFillSums(fill, 1);
    ZeroFits();
    Positive(price, LegRow(p, id).quantity);
    var account := LegRow(p, id).Receiving();
    assert account !in paid.balances;
  }

  lemma Placed2Rows(p: OcoCommand, id: OrderId, price: Money)
    requires p.hold.amount > 0 && OffAccount(p, id) && p.first != p.second
    ensures var t := Placed2(p, id, price);
            && id in t.orders && t.orders[id] == LegRow(p, id) && LegRow(p, id).Owner(id) == OfGroup(p.group)
            && t.reservations.Keys == {p.reservation, p.reservation + 1}
            && OpenFor(t, OfGroup(p.group), p.reservation) && !OpenFor(t, OfGroup(p.group), p.reservation + 1)
            && t.reservations[p.reservation + 1].account == LegRow(p, id).Funding()
            && p.hold.account in t.balances && ReservedIn(t, p.hold.account) == p.hold.amount
  {
    hide Most;
  }

  lemma StillReserved(t: Tables, account: Account)
    requires account in t.balances && ReservedIn(t, account) != SumOpen(t.reservations, account)
    ensures !Clean(t)
  {
    hide SumOpen;
    assert account in VerifyLedger(t).reservations;
  }

  lemma OnlyOne(t: Tables, p: OcoCommand, r: Option<ReservationId>, after: Tables)
    requires t.reservations.Keys == {p.reservation, p.reservation + 1}
    requires OpenFor(t, OfGroup(p.group), p.reservation) && !OpenFor(t, OfGroup(p.group), p.reservation + 1)
    requires Wrote(t, OfGroup(p.group), r, true, after)
    ensures after.reservations.Keys == t.reservations.Keys && after.reservations[p.reservation].released
    ensures after.reservations[p.reservation + 1] == t.reservations[p.reservation + 1]
  {
    assert r.Some? ==> r.value in t.reservations;
  }

  /**
    Only the two reservations of the run exist, and the trigger releases the pair's: its account
    still reserves for it.
   */
  lemma Unclean(p: OcoCommand, id: OrderId, price: Money)
    requires p.hold.amount > 0 && OffAccount(p, id) && LegRow(p, id).status == PENDING_TRIGGER && p.first != p.second
    requires PersistTrigger(Placed2(p, id, price), Shot(p, id, price)).Ok?
    ensures !Clean(Apply(Placed2(p, id, price), Triggers(Shot(p, id, price))))
  {
    hide PersistTrigger, SumOpen, Placed2, LegRow, Clean, TriggerRows, WinnerSlotFree, OpenFor;
    Placed2Rows(p, id, price);
    var t, c := Placed2(p, id, price), Shot(p, id, price);
    var after := PersistTrigger(t, c).value;
    var fill, r := TriggerWrites(t, c, after);
    TriggerReserves(t, c, after);
    OnlyOne(t, p, r, after);
    ReleasedSum(t.reservations, after.reservations, p.hold.account, p);
    StillReserved(after, p.hold.account);
  }

  lemma ReleasedSum(rows: map<ReservationId, ReservationRow>, after: map<ReservationId, ReservationRow>,
                    account: Account, p: OcoCommand)
    requires rows.Keys == after.Keys == {p.reservation, p.reservation + 1}
    requires after[p.reservation].released
    requires after[p.reservation + 1] == rows[p.reservation + 1] && rows[p.reservation + 1].account != account
    ensures SumOpen(after, account) == 0
  {
    SumRemove(after, account, p.reservation);
    SumRemove(after - {p.reservation}, account, p.reservation + 1);
    assert after - {p.reservation} - {p.reservation + 1} == map[];
  }

  // ---- The price at which a leg is triggered ----

  /** An amount and any quantity are whole multiples, of at most eighty digits, of one power of ten. */
  lemma CommonUnit(amount: Money) returns (a: int, k: nat)
    requires amount > 0 && Exact(amount)
    ensures k <= PRECISION && amount == a * Pow10(k) && 0 < a < Pow10(PRECISION)
  {
    hide Pow10, Digits, Strip;
    var m, j := Scaled(amount, PRECISION);
    DomainBound(amount, PRECISION);
    if j <= PRECISION {
      a, k := m, j;
    } else {
      k := PRECISION;
      Pow10Add(j - k, k);
      Assoc(m, Pow10(j - k), Pow10(k));
      a := m * Pow10(j - k);
      Pow10Add(PRECISION, PRECISION);
      if a >= Pow10(PRECISION) {
        MulMono(Pow10(PRECISION), a, Pow10(k));
      }
    }
    if a <= 0 {
      MulMono(a, 0, Pow10(k));
    }
  }

  lemma UnitFits(x: int, k: nat)
    requires k <= PRECISION && Abs(x) < Pow10(PRECISION)
    ensures Exact(x * Pow10(k))
  {
    hide Pow10;
    ScaledFits(x * Pow10(k), x, k, PRECISION);
    AbsProduct(x, Pow10(k));
    MulStrict(Abs(x), Pow10(PRECISION), Pow10(k));
    Pow10Add(PRECISION, k);
    Pow10Mono(PRECISION + k, 2 * PRECISION);
    DomainBound(x * Pow10(k), PRECISION);
  }

  /** Shares bought at a power of ten have an average the domain accepts: it, or zero below ten decimal places. */
  lemma PowerAverages(quantity: int, k: nat)
    requires quantity > 0 && k <= PRECISION && quantity * Pow10(k) > 0
    ensures Portfolio.AverageCost(quantity, quantity * Pow10(k)).Ok?
  {
    hide Pow10, Exact, RoundDiv, Portfolio.QuotientScale;
    var cost, unit := quantity * Pow10(k), Portfolio.DIVISION_UNIT;
    var scale := Pow10(Portfolio.QuotientScale(cost, quantity));
    MulNonNegative(cost, scale);
    MulStrict(0, scale, unit);
    MulStrict(0, Pow10(k), scale);
    assert RoundDiv(cost * scale, quantity, HALF_UP) == Pow10(k) * scale by {
      Assoc(quantity, Pow10(k), scale);
      Swap(quantity, Pow10(k) * scale);
      Portfolio.WholeQuotient(Pow10(k) * scale, quantity);
    }
    RoundDivScale(Pow10(k), unit, scale, HALF_UP);
    Swap(unit, scale);
    PowerRounds(k);
  }

  lemma PowerRounds(k: nat)
    requires k <= PRECISION
    ensures Exact(Portfolio.DIVISION_UNIT * RoundDiv(Pow10(k), Portfolio.DIVISION_UNIT, HALF_UP))
  {
    hide Pow10, Exact;
    var unit := Portfolio.DIVISION_UNIT;
    if k < 70 {
      Pow10Mono(k, 69);
      assert Pow10(70) == 10 * Pow10(69) by { Pow10Add(1, 69); OnePower(); }
      DivUnique(Pow10(k), unit, 0, Pow10(k));
      ZeroFits();
      assert unit * 0 == 0;
    } else {
      Pow10Add(k - 70, 70);
      Portfolio.WholeQuotient(Pow10(k - 70), unit);
      Swap(unit, Pow10(k - 70));
      Pow10Mono(1, PRECISION);
      OnePower();
      UnitFits(1, k);
      assert 1 * Pow10(k) == Pow10(k);
    }
  }

  lemma OnePower()
    ensures Pow10(1) == 10
  {
    assert Pow10(0) == 1;
  }

  lemma WholeFits(x: int)
    requires Abs(x) < Pow10(PRECISION)
    ensures Exact(x)
  {
    hide Pow10;
    SmallFits(x, PRECISION);
  }

  /** The amount, a quantity, and what one is more than the other, in a unit both are made of. */
  lemma UnitsFit(a: int, quantity: int, unit: int, k: nat)
    requires 0 < a < Pow10(PRECISION) && 0 < quantity < Pow10(PRECISION) && k <= PRECISION && unit == Pow10(k)
    ensures Exact(unit * quantity) && Exact(quantity) && Exact(a * unit - unit * quantity)
    ensures Exact(unit * quantity - a * unit)
    ensures unit * quantity == quantity * unit > 0
  {
    hide Exact, Pow10;
    Swap(unit, quantity);
    Positive(quantity, unit);
    WholeFits(quantity);
    UnitFits(quantity, k);
    UnitFits(a - quantity, k);
    UnitFits(quantity - a, k);
    assert (a - quantity) * unit == a * unit - quantity * unit;
    assert (quantity - a) * unit == quantity * unit - a * unit;
  }

  /** A buy is triggered at the largest power of ten, up to one, that its amount is made of. */
  lemma BuyPrice(p: OcoCommand, market: Market) returns (price: Money)
    requires FromRequest(p, market) && p.firstLeg.side == BUY
    ensures Fitting(p, price)
  {
    hide Exact, Pow10, Portfolio.AverageCost, Carried;
    var quantity := p.firstLeg.quantity;
    ZeroFits();
    var a, k := CommonUnit(p.hold.amount);
    price := Pow10(k);
    UnitsFit(a, quantity, price, k);
    PowerAverages(quantity, k);
  }

  /** A sale at the smallest price. */
  lemma SalePrice(p: OcoCommand, market: Market)
    requires FromRequest(p, market) && p.firstLeg.side == SELL
    ensures Fitting(p, 1)
  {
    hide Exact, Pow10, Portfolio.AverageCost, Carried;
    var quantity := p.firstLeg.quantity;
    ZeroFits();
    WholeFits(quantity);
    CarriedNear(quantity);
    WholeFits(p.hold.amount - quantity);
    WholeFits(quantity - p.hold.amount);
  }

  lemma TriggerPrice(p: OcoCommand, market: Market) returns (price: Money)
    requires FromRequest(p, market)
    ensures TwoLegs(p) && Fitting(p, price)
  {
    if p.firstLeg.side == BUY {
      price := BuyPrice(p, market);
    } else {
      price := 1;
      SalePrice(p, market);
    }
    hide Fitting, Exact, Pow10, Carried;
  }

  /** Twenty digits carry a number to within itself. */
  lemma CarriedNear(x: int)
    requires x > 0
    ensures Abs(Carried(x) - x) <= x
  {
    hide Pow10, Digits;
    var drop := Digits(Abs(x)) - PLAN_DIGITS;
    if drop > 0 {
      DigitsBelow(Abs(x), drop);
      NearMultiple(x, Pow10(drop));
    } else {
      assert Carried(x) == x;
    }
  }

  lemma NearMultiple(x: int, unit: int)
    requires 0 < unit <= x
    ensures Abs((x + unit / 2) / unit * unit - x) <= x
  {
    DivMod(x + unit / 2, unit);
  }

  // ---- Exactly which placements are safe ----

  lemma TwoSteps(t: Tables, u: Tables, first: Command, second: Command)
    requires ValidCommand(first) && ValidCommand(second) && Apply(t, first) == u
    ensures ValidCommands([first, second]) && Run(t, [first, second]) == Apply(u, second)
  {
    hide Apply, ValidCommand;
    assert [first, second][1..] == [second] && [second][1..] == [];
    assert Run(u, [second]) == Run(Apply(u, second), []);
  }

  lemma LegWaits(p: OcoCommand, id: OrderId)
    requires TwoLegs(p)
    ensures LegRow(p, id).status == PENDING_TRIGGER && LegRow(p, id).quantity > 0 && p.first != p.second
    ensures p.hold.amount > 0
  {
  }

  lemma LeaderElected(p: OcoCommand, id: OrderId, price: Money)
    ensures Apply(Placed2(p, id, price).(epochs := map[]), Acquires(LegRow(p, id).market)) == Placed2(p, id, price)
  {
  }

  lemma RunStarts(p: OcoCommand, id: OrderId, price: Money)
    requires TwoLegs(p) && OffAccount(p, id)
    ensures Inv(Opened(p, id, price)) && CoherentCommand(Place(Ordinary(p, id))) && Inv(Placed1(p, id, price))
    ensures Apply(Opened(p, id, price), Place(Ordinary(p, id))) == Placed1(p, id, price)
  {
    LegWaits(p, id);
    Picked(p, id);
    hide TwoLegs, OffAccount, LegRow, Inv, Opened, Ordinary, Placed1, Apply, CoherentCommand;
    OpenedIsSound(p, id, price);
    OrdinaryPlaced(p, id, price);
    OrdinaryCoherent(p, id);
    StepKeeps(Opened(p, id, price), Place(Ordinary(p, id)));
  }

  lemma RunEnds(p: OcoCommand, id: OrderId, price: Money)
    requires TwoLegs(p) && Fitting(p, price) && OffAccount(p, id)
    ensures var later := [Acquires(LegRow(p, id).market), Triggers(Shot(p, id, price))];
            ValidCommands(later) && !Clean(Run(Placed2(p, id, price).(epochs := map[]), later))
  {
    LegWaits(p, id);
    hide TwoLegs, Fitting, OffAccount, LegRow, Clean, Placed2, Apply, Run;
    TriggerCommits(p, id, price);
    Unclean(p, id, price);
    LeaderElected(p, id, price);
    TwoSteps(Placed2(p, id, price).(epochs := map[]), Placed2(p, id, price), Acquires(LegRow(p, id).market),
             Triggers(Shot(p, id, price)));
  }

  /**
    From a sound ledger an ordinary order is placed, then the pair, a leader is elected, and the
    leg's trigger, like everything before it but the pair coherent, leaves a balance whose reserve is
    not the sum of its reservations.
   */
  ghost predicate Unbalances(p: OcoCommand, id: OrderId, price: Money) {
    var t := Apply(Opened(p, id, price), Place(Ordinary(p, id)));
    var later := [Acquires(LegRow(p, id).market), Triggers(Shot(p, id, price))];
    && Inv(Opened(p, id, price)) && CoherentCommand(Place(Ordinary(p, id))) && Inv(t)
    && CommitOcoPlacement(t, p).Ok?
    && ValidCommands(later) && CoherentCommands(later) && !Clean(Run(Apply(t, PlaceOco(p)), later))
  }

  /** The run: open, an ordinary order on the leg's account, the pair, a leader, the leg's trigger. */
  lemma MismatchRun(p: OcoCommand, market: Market, id: OrderId) returns (price: Money)
    requires FromRequest(p, market) && OffAccount(p, id)
    ensures Unbalances(p, id, price)
  {
    price := TriggerPrice(p, market);
    hide FromRequest, Fitting, TwoLegs, OffAccount, Unbalances;
    RunAt(p, id, price);
  }

  lemma RunAt(p: OcoCommand, id: OrderId, price: Money)
    requires TwoLegs(p) && Fitting(p, price) && OffAccount(p, id)
    ensures Unbalances(p, id, price)
  {
    hide Fitting, TwoLegs, OffAccount, LegRow, Clean, Inv, Opened, Ordinary, Placed1, Placed2, Apply,
         CommitOcoPlacement, Run, ValidCommands;
    RunStarts(p, id, price);
    PairPlaced(p, id, price);
    RunEnds(p, id, price);
  }

  lemma Picked(p: OcoCommand, id: OrderId)
    requires OffAccount(p, id)
    ensures id in {p.first, p.second}
  {
  }

  lemma SafeWhenCoherent(p: OcoCommand, t: Tables, cs: seq<Command>)
    requires OcoCoherent(p) && Inv(t) && ValidCommands(cs) && CoherentCommands(cs)
    ensures Clean(Run(Apply(t, PlaceOco(p)), cs))
  {
    hide Inv, Run, Apply, OcoCoherent;
    assert CoherentCommand(PlaceOco(p));
    StepKeeps(t, PlaceOco(p));
    RunKeepsLedger(Apply(t, PlaceOco(p)), cs);
  }

  lemma OffAccountExactly(p: OcoCommand, market: Market, id: OrderId)
    requires FromRequest(p, market) && id in {p.first, p.second}
    ensures OffAccount(p, id) <==> LegRow(p, id).market != market
  {
    hide Exact, Carried;
  }

  lemma NotAlwaysClean(p: OcoCommand, id: OrderId, price: Money)
    requires Unbalances(p, id, price)
    ensures !AlwaysClean(p)
  {
    hide Run, Apply, Clean, Inv, Opened, Ordinary, CommitOcoPlacement, CoherentCommand;
  }

  lemma CoherentIsClean(p: OcoCommand)
    requires OcoCoherent(p)
    ensures AlwaysClean(p)
  {
    hide OcoCoherent, Run, Apply, Clean, Inv;
    forall t: Tables, cs: seq<Command> | Inv(t) && ValidCommands(cs) && CoherentCommands(cs)
      ensures Clean(Run(Apply(t, PlaceOco(p)), cs))
    {
      SafeWhenCoherent(p, t, cs);
    }
  }

  /**
    A pair the placement service accepts leaves the consistency check silent, from every sound
    ledger and whatever coherent transactions follow, exactly when both legs trade the market of the
    request. The service does not compare them: every pair with a leg elsewhere has a run that ends
    with a balance whose reserve is not the sum of its reservations.
   */
  lemma OcoCleanExactly(p: OcoCommand, market: Market)
    requires FromRequest(p, market)
    ensures AlwaysClean(p) <==> p.firstLeg.market == market && p.secondLeg.market == market
  {
    hide AlwaysClean, Exact, Carried, Unbalances;
    OffAccountExactly(p, market, p.first);
    OffAccountExactly(p, market, p.second);
    if OffAccount(p, p.first) || OffAccount(p, p.second) {
      var id := if OffAccount(p, p.first) then p.first else p.second;
      var price := MismatchRun(p, market, id);
      NotAlwaysClean(p, id, price);
    } else {
      CoherentIsClean(p);
    }
  }

  // ---- The smallest one ----

  lemma OneFits()
    ensures Exact(1) && Carried(1) == 1 && 1 < Pow10(PRECISION)
  {
    hide Pow10;
    assert Strip(1) == 1 && Digits(1) == 1;
    Pow10Mono(1, PRECISION);
    OnePower();
    SmallFits(1, PRECISION);
  }

  /** A pair of one share, requested in one market with both legs in the other, is not safe. */
  lemma OneShareElsewhere(session: SessionId, side: Side, market: Market, other: Market, symbol: string)
    requires market != other
    ensures var row := OrderRow(session, other, symbol, STOP, side, None, 1, 0, PENDING_TRIGGER, None, false);
            var account := if side == BUY then Wallet(session, CurrencyFor(market))
                           else Position(session, market, symbol);
            !AlwaysClean(OcoCommand(session, "pair", "hash", Response(201, "pending"), 1, 1, row, 2, row, 1,
                                    Hold(account, 1)))
  {
    OneFits();
    hide Exact, Carried, AlwaysClean;
    var row := OrderRow(session, other, symbol, STOP, side, None, 1, 0, PENDING_TRIGGER, None, false);
    var account := if side == BUY then Wallet(session, CurrencyFor(market)) else Position(session, market, symbol);
    OcoCleanExactly(OcoCommand(session, "pair", "hash", Response(201, "pending"), 1, 1, row, 2, row, 1,
                               Hold(account, 1)), market);
  }
}
