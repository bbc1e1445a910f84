/**
  The ledger's tables as a value, and each of its transactions as a function from the tables
  before to the tables after, or to the error that rolls it back.
 */
module LedgerModel {
  import opened Types
  import opened ExactMoney
  import opened Fees
  import opened Execution
  import opened Settlement
  import Portfolio

  type SessionId = nat
  type OrderId = nat
  type GroupId = nat
  type ReservationId = nat

  /** A wallet or a position, named by its natural key. */
  datatype Account =
    | Wallet(session: SessionId, currency: Currency)
    | Position(session: SessionId, market: Market, symbol: string)

  datatype OrderRow = OrderRow(
    session: SessionId,
    market: Market,
    symbol: string,
    kind: OrderType,
    side: Side,
    limitPrice: Option<Money>,
    quantity: int,
    filled: int,
    status: OrderStatus,
    group: Option<GroupId>,
    winner: bool
  ) {
    /** The account a fill of the order takes from. */
    function Funding(): Account {
      if side == BUY then Wallet(session, CurrencyFor(market)) else Position(session, market, symbol)
    }

    /** The account a fill of the order adds to. */
    function Receiving(): Account {
      if side == BUY then Position(session, market, symbol) else Wallet(session, CurrencyFor(market))
    }

    function Owner(id: OrderId): Owner {
      if group.Some? then OfGroup(group.value) else OfOrder(id)
    }
  }

  datatype Owner = OfOrder(order: OrderId) | OfGroup(group: GroupId)

  datatype ReservationRow = ReservationRow(owner: Owner, account: Account, amount: Money, released: bool)

  datatype GroupRow = GroupRow(session: SessionId, active: bool)

  /** A fill with the columns of its order it is always read with. */
  datatype FillRow = FillRow(
    order: OrderId,
    session: SessionId,
    market: Market,
    symbol: string,
    side: Side,
    price: Money,
    quantity: int,
    fee: Money,
    token: nat
  )

  datatype Response = Response(statusCode: int, body: string)

  datatype RequestKey = RequestKey(session: SessionId, key: string)

  datatype RequestRow = RequestRow(hash: string, completed: Option<Response>)

  datatype Tables = Tables(
    sessions: map<SessionId, bool>,              // true while ACTIVE
    requests: map<RequestKey, RequestRow>,
    balances: map<Account, Balance>,
    averages: map<Account, Money>,               // average cost of the positions
    groups: map<GroupId, GroupRow>,
    orders: map<OrderId, OrderRow>,
    reservations: map<ReservationId, ReservationRow>,
    fills: seq<FillRow>,
    epochs: map<Market, nat>                     // the current fencing token
  )

  function Shortage(account: Account): ErrorCode {
    if account.Wallet? then INSUFFICIENT_AVAILABLE_CASH else INSUFFICIENT_AVAILABLE_POSITION
  }

  // ---- Placement ----

  datatype CashHold = CashHold(currency: Currency, amount: Money)

  datatype SharesHold = SharesHold(market: Market, symbol: string, quantity: int)

  /** What a placement reserves: cash in a wallet of the session, or shares of a position. */
  datatype Hold = Hold(account: Account, amount: Money)

  datatype PlaceCommand = PlaceCommand(
    session: SessionId,
    key: string,
    hash: string,
    response: Response,
    id: OrderId,
    order: OrderRow,
    cash: Option<CashHold>,
    position: Option<SharesHold>,
    reservation: Option<ReservationId>,
    siblings: set<OrderId>
  ) {
    function Row(): OrderRow {
      order.(session := session)
    }

    function Cash(): Option<Hold> {
      if cash.None? then None else Some(Hold(Wallet(session, cash.value.currency), cash.value.amount))
    }

    function Shares(): Option<Hold> {
      if position.None? then None
      else Some(Hold(Position(session, position.value.market, position.value.symbol), position.value.quantity))
    }
  }

  datatype OcoCommand = OcoCommand(
    session: SessionId,
    key: string,
    hash: string,
    response: Response,
    group: GroupId,
    first: OrderId,
    firstLeg: OrderRow,
    second: OrderId,
    secondLeg: OrderRow,
    reservation: ReservationId,
    hold: Hold
  ) {
    function FirstRow(): OrderRow {
      firstLeg.(session := session, group := Some(group))
    }

    function SecondRow(): OrderRow {
      secondLeg.(session := session, group := Some(group))
    }
  }

  datatype Claim = Started | Replayable(response: Response)

  /** Claiming an idempotency key: the first request works, an identical one replays, a different one is refused. */
  function Begin(t: Tables, key: RequestKey, hash: string): Result<Claim> {
    if key !in t.requests then Ok(Started)
    else if t.requests[key].hash != hash then Err(IDEMPOTENCY_CONFLICT)
    else match t.requests[key].completed
      case None => Err(IDEMPOTENCY_CONFLICT)
      case Some(response) => Ok(Replayable(response))
  }

  /** The row claiming a key puts in: in progress until the response is recorded. */
  function Claimed(t: Tables, key: RequestKey, hash: string): Tables {
    t.(requests := t.requests[key := RequestRow(hash, None)])
  }

  /** The claimed key with its response, recorded before anything else is written. */
  function Completed(t: Tables, key: RequestKey, hash: string, response: Response): (after: Tables)
    ensures after == t.(requests := t.requests[key := RequestRow(hash, Some(response))])
  {
    var claimed := Claimed(t, key, hash);
    claimed.(requests := claimed.requests[key := claimed.requests[key].(completed := Some(response))])
  }

  function ReserveIn(t: Tables, hold: Hold): Result<Tables> {
    var _ :- Check(hold.account in t.balances, Shortage(hold.account));
    var after :- Reserve(t.balances[hold.account], hold.amount, Shortage(hold.account));
    Ok(t.(balances := t.balances[hold.account := after]))
  }

  function ReserveOptional(t: Tables, hold: Option<Hold>): Result<Tables> {
    if hold.Some? then ReserveIn(t, hold.value) else Ok(t)
  }

  function InsertOrder(t: Tables, id: OrderId, order: OrderRow): Result<Tables> {
    var _ :- Check(id !in t.orders && order.quantity > 0, CONSTRAINT_VIOLATION);
    Ok(t.(orders := t.orders[id := order.(filled := 0, winner := false)]))
  }

  function RecordReservation(t: Tables, id: ReservationId, owner: Owner, hold: Hold): Result<Tables> {
    var _ :- Check(id !in t.reservations && hold.amount >= 0, CONSTRAINT_VIOLATION);
    Ok(t.(reservations := t.reservations[id := ReservationRow(owner, hold.account, hold.amount, false)]))
  }

  /** The reservation row of a placement: recorded only under an id, and cash before a position. */
  function RecordHold(t: Tables, c: PlaceCommand): Result<Tables> {
    if c.reservation.None? then Ok(t)
    else if c.cash.Some? then RecordReservation(t, c.reservation.value, OfOrder(c.id), c.Cash().value)
    else if c.position.Some? then RecordReservation(t, c.reservation.value, OfOrder(c.id), c.Shares().value)
    else Ok(t)
  }

  datatype Reply = Reply(replayed: bool, response: Response)

  datatype Placed = Placed(tables: Tables, reply: Reply)

  function ActiveSession(t: Tables, session: SessionId): bool {
    session in t.sessions && t.sessions[session]
  }

  /** The effect of a placement whose key was free. */
  function PlaceFresh(t: Tables, c: PlaceCommand): Result<Tables> {
    var t1 := Completed(t, RequestKey(c.session, c.key), c.hash, c.response);
    var t2 :- ReserveOptional(t1, c.Cash());
    var t3 :- ReserveOptional(t2, c.Shares());
    var _ :- Check(c.order.group.Some? ==> c.order.group.value in t.groups && t.groups[c.order.group.value].active,
                   ORDER_STATE_CONFLICT);
    var _ :- Check(c.siblings <= t.orders.Keys, ORDER_STATE_CONFLICT);
    var t4 :- InsertOrder(t3, c.id, c.Row());
    RecordHold(t4, c)
  }

  /** `commitTradingMutation`. */
  function CommitTradingMutation(t: Tables, c: PlaceCommand): Result<Placed> {
    var _ :- Check(ActiveSession(t, c.session), ACCOUNT_READ_ONLY);
    var claim :- Begin(t, RequestKey(c.session, c.key), c.hash);
    match claim
    case Replayable(response) => Ok(Placed(t, Reply(true, response)))
    case Started =>
      var after :- PlaceFresh(t, c);
      Ok(Placed(after, Reply(false, c.response)))
  }

  function PlaceOcoFresh(t: Tables, c: OcoCommand): Result<Tables> {
    var t1 := Completed(t, RequestKey(c.session, c.key), c.hash, c.response);
    var t2 :- ReserveIn(t1, c.hold);
    var _ :- Check(c.group !in t.groups, CONSTRAINT_VIOLATION);
    var t3 := t2.(groups := t2.groups[c.group := GroupRow(c.session, true)]);
    var t4 :- InsertOrder(t3, c.first, c.FirstRow());
    var t5 :- InsertOrder(t4, c.second, c.SecondRow());
    RecordReservation(t5, c.reservation, OfGroup(c.group), c.hold)
  }

  /** `commitOcoPlacement`. */
  function CommitOcoPlacement(t: Tables, c: OcoCommand): Result<Placed> {
    var _ :- Check(ActiveSession(t, c.session), ACCOUNT_READ_ONLY);
    var claim :- Begin(t, RequestKey(c.session, c.key), c.hash);
    match claim
    case Replayable(response) => Ok(Placed(t, Reply(true, response)))
    case Started =>
      var after :- PlaceOcoFresh(t, c);
      Ok(Placed(after, Reply(false, c.response)))
  }

  // ---- Settling fills ----

  ghost predicate OpenFor(t: Tables, owner: Owner, id: ReservationId) {
    id in t.reservations && t.reservations[id].owner == owner && !t.reservations[id].released
  }

  /** The row `lockReservation` reads: some unreleased reservation of the owner, if there is one. */
  ghost function LockReservation(t: Tables, owner: Owner): Option<ReservationId> {
    if id: ReservationId :| OpenFor(t, owner, id) then Some(id) else None
  }

  function WriteReservation(t: Tables, id: Option<ReservationId>, plan: Plan): Tables
    requires id.Some? ==> id.value in t.reservations
  {
    if id.None? then t else
      t.(reservations := t.reservations[id.value :=
        t.reservations[id.value].(amount := plan.remaining, released := plan.released)])
  }

  /** The exposure an order still needs reserved after a non-terminal fill; only limit orders are resized. */
  function RemainingExposure(order: OrderRow, filledAfter: int, terminal: bool, schedule: FeeSchedule)
      : Result<Option<Money>>
    requires schedule.Valid()
  {
    if terminal || order.kind != LIMIT || order.limitPrice.None? then Ok(None) else
      var remaining :- Checked(order.quantity - filledAfter);
      if remaining <= 0 then Ok(Some(0))
      else if order.side == SELL then Ok(Some(remaining))
      else
        var notional :- Checked(remaining * order.limitPrice.value);
        var fee :- Calculate(schedule, BUY, order.limitPrice.value, remaining);
        var exposure :- Checked(notional + fee);
        Ok(Some(exposure))
  }

  /** The running sum of fill notionals and fees, checked at every step. */
  function SumFills(fills: seq<Fill>, sign: int, start: Money): Result<Money> {
    if fills == [] then Ok(start) else
      var before :- SumFills(fills[..|fills| - 1], sign, start);
      var last := fills[|fills| - 1];
      var notional :- Checked(last.price * last.quantity);
      Checked(before + notional + sign * last.fee)
  }

  /** An amount joins a balance; the row it leaves has to pass the schema's checks. */
  function AddTo(t: Tables, account: Account, amount: Money): Result<Tables> {
    var before := if account in t.balances then t.balances[account] else Balance(0, 0, 0);
    var after := Balance(before.total + amount, before.available + amount, before.reserved);
    var _ :- Check(after.available >= 0 && after.total >= 0, CONSTRAINT_VIOLATION);
    Ok(t.(balances := t.balances[account := after]))
  }

  /** The upsert of sale proceeds: the row it proposes is checked even when the wallet exists and is updated instead. */
  function Credit(t: Tables, account: Account, amount: Money): Result<Tables> {
    var _ :- Check(amount >= 0, CONSTRAINT_VIOLATION);
    AddTo(t, account, amount)
  }

  /** The bought quantity joins the position, and the average is rebuilt from the stored one. */
  function GrowPosition(t: Tables, account: Account, fills: seq<Fill>): Result<Tables> {
    var held := if account in t.balances then t.balances[account].total else 0;
    var average := if account in t.averages then t.averages[account] else 0;
    var basis :- Checked(average * held);
    var cost :- SumFills(fills, 1, basis);
    var added :- Checked(QuantityOf(fills));
    var newAverage :- Portfolio.AverageCost(held + added, cost);
    var grown :- AddTo(t, account, added);
    Ok(grown.(averages := grown.averages[account := newAverage]))
  }

  /** The account an order takes from is settled against its reservation. */
  ghost function Debit(t: Tables, id: OrderId, order: OrderRow, consumed: Money, terminal: bool,
                         desired: Option<Money>): Result<Tables>
    requires order.Funding() in t.balances
  {
    var account := order.Funding();
    var reservation := LockReservation(t, order.Owner(id));
    var remaining := if reservation.Some? then t.reservations[reservation.value].amount else 0;
    var plan :- Settle(Request(t.balances[account], remaining, consumed, terminal, desired), Shortage(account));
    Ok(WriteReservation(t.(balances := t.balances[account := plan.balance]), reservation, plan))
  }

  /** `settleFill`. */
  ghost function SettleFill(t: Tables, id: OrderId, order: OrderRow, fills: seq<Fill>, terminal: bool,
                            desired: Option<Money>): Result<Tables>
  {
    var _ :- Check(order.Funding() in t.balances, Shortage(order.Funding()));
    if order.side == BUY then
      var cost :- SumFills(fills, 1, 0);
      var paid :- Debit(t, id, order, cost, terminal, desired);
      GrowPosition(paid, order.Receiving(), fills)
    else
      var sold :- Debit(t, id, order, QuantityOf(fills), terminal, desired);
      var proceeds :- SumFills(fills, -1, 0);
      Credit(sold, order.Receiving(), proceeds)
  }

  // ---- Fills and triggers ----

  datatype FillCommand = FillCommand(
    order: OrderId,
    filledAfter: int,
    nextStatus: OrderStatus,
    fills: seq<Fill>,
    token: nat,
    schedule: FeeSchedule
  )

  predicate Storable(fills: seq<Fill>) {
    forall i | 0 <= i < |fills| :: fills[i].price > 0 && fills[i].quantity > 0 && fills[i].fee >= 0
  }

  function RowOf(id: OrderId, order: OrderRow, fill: Fill, token: nat): FillRow {
    FillRow(id, order.session, order.market, order.symbol, order.side, fill.price, fill.quantity, fill.fee, token)
  }

  function RowsOf(id: OrderId, order: OrderRow, fills: seq<Fill>, token: nat): seq<FillRow> {
    seq(|fills|, i requires 0 <= i < |fills| => RowOf(id, order, fills[i], token))
  }

  predicate Fenced(t: Tables, market: Market, token: nat) {
    market in t.epochs && t.epochs[market] == token
  }

  /** The order and fill rows of a persisted fill. */
  function RecordFills(t: Tables, c: FillCommand, order: OrderRow): Tables {
    t.(orders := t.orders[c.order := order.(filled := c.filledAfter, status := c.nextStatus)],
       fills := t.fills + RowsOf(c.order, order, c.fills, c.token))
  }

  /** `persistFill`: one transaction for the order, its fills and their settlement. */
  ghost function PersistFill(t: Tables, c: FillCommand): Result<Tables>
    requires c.schedule.Valid()
  {
    var _ :- Check(c.order in t.orders, INVALID_ORDER);
    var order := t.orders[c.order];
    var _ :- Check(order.session in t.sessions, ACCOUNT_READ_ONLY);
    var _ :- Check(!IsTerminal(order.status), ORDER_TERMINAL);
    var _ :- Check(Fenced(t, order.market, c.token), ORDER_STATE_CONFLICT);
    var _ :- Check(0 <= c.filledAfter <= order.quantity && Storable(c.fills), CONSTRAINT_VIOLATION);
    var terminal := c.nextStatus == FILLED || c.nextStatus == CANCELLED;
    var desired :- RemainingExposure(order, c.filledAfter, terminal, c.schedule);
    SettleFill(RecordFills(t, c, order), c.order, order, c.fills, terminal, desired)
  }

  datatype TriggerCommand = TriggerCommand(order: OrderId, price: Money, token: nat, schedule: FeeSchedule)

  predicate IsLiveSibling(o: OrderRow, other: OrderId, id: OrderId, group: Option<GroupId>) {
    group.Some? && o.group == group && other != id && !IsTerminal(o.status)
  }

  /** Every live sibling of a triggered leg is cancelled, and the group resolved. */
  function CancelSiblings(t: Tables, id: OrderId, group: Option<GroupId>): Tables {
    if group.None? then t else
      t.(orders := map o | o in t.orders ::
                     if IsLiveSibling(t.orders[o], o, id, group) then t.orders[o].(status := CANCELLED)
                     else t.orders[o],
         groups := if group.value in t.groups
                   then t.groups[group.value := t.groups[group.value].(active := false)] else t.groups)
  }

  /** No other order of the group is its winner: the schema's partial unique index. */
  predicate WinnerSlotFree(t: Tables, id: OrderId, group: Option<GroupId>) {
    group.Some? ==> forall o | o in t.orders && o != id :: t.orders[o].group == group ==> !t.orders[o].winner
  }

  function RecordTrigger(t: Tables, c: TriggerCommand, order: OrderRow, fill: Fill): Tables {
    t.(orders := t.orders[c.order := order.(filled := order.quantity, status := FILLED, winner := order.group.Some?)],
       fills := t.fills + RowsOf(c.order, order, [fill], c.token))
  }

  /** `persistTrigger`: a full fill at the reference price; a leg that is already terminal is left alone. */
  ghost function PersistTrigger(t: Tables, c: TriggerCommand): Result<Tables>
    requires c.schedule.Valid()
  {
    var _ :- Check(c.order in t.orders, INVALID_ORDER);
    var order := t.orders[c.order];
    var _ :- Check(order.session in t.sessions, ACCOUNT_READ_ONLY);
    var _ :- Check(Fenced(t, order.market, c.token), ORDER_STATE_CONFLICT);
    if IsTerminal(order.status) then Ok(t) else
      var fee :- Calculate(c.schedule, order.side, c.price, order.quantity);
      var _ :- Check(WinnerSlotFree(t, c.order, order.group), CONSTRAINT_VIOLATION);
      var fill := Fill(c.price, order.quantity, fee);
      var _ :- Check(Storable([fill]), CONSTRAINT_VIOLATION);
      var settled :- SettleFill(RecordTrigger(t, c, order, fill), c.order, order, [fill], true, None);
      Ok(CancelSiblings(settled, c.order, order.group))
  }

  // ---- Cancellation ----

  /** The leg itself, or every leg of its group. */
  predicate IsLeg(t: Tables, id: OrderId, o: OrderId) {
    o in t.orders
    && (o == id || (id in t.orders && t.orders[id].group.Some? && t.orders[o].group == t.orders[id].group))
  }

  /** A reservation the cancellation of `id` gives back. */
  predicate IsCandidate(t: Tables, id: OrderId, r: ReservationId) {
    && r in t.reservations && id in t.orders && !t.reservations[r].released
    && (t.reservations[r].owner == OfOrder(id)
        || (t.orders[id].group.Some? && t.reservations[r].owner == OfGroup(t.orders[id].group.value)))
  }

  function Candidates(t: Tables, id: OrderId): set<ReservationId> {
    set r | r in t.reservations && IsCandidate(t, id, r)
  }

  /** What a row contributes to the reserved balance of an account. */
  function Contribution(row: ReservationRow, account: Account): Money {
    if row.released || row.account != account then 0 else row.amount
  }

  /** The sum of the unreleased reservations of an account. */
  ghost function SumOpen(rows: map<ReservationId, ReservationRow>, account: Account): Money
    decreases |rows|
  {
    if rows == map[] then 0 else
      var id :| id in rows;
      Contribution(rows[id], account) + SumOpen(rows - {id}, account)
  }

  /** The rows with some of them marked released. */
  function Retired(rows: map<ReservationId, ReservationRow>, ids: set<ReservationId>)
      : map<ReservationId, ReservationRow>
  {
    map r | r in rows :: if r in ids then rows[r].(released := true) else rows[r]
  }

  function Chosen(rows: map<ReservationId, ReservationRow>, ids: set<ReservationId>)
      : map<ReservationId, ReservationRow>
  {
    map r | r in rows && r in ids :: rows[r]
  }

  /** What cancelling gives back to an account. */
  ghost function GivenBack(t: Tables, id: OrderId, account: Account): Money {
    SumOpen(Chosen(t.reservations, Candidates(t, id)), account)
  }

  /** Every release is possible: the accounts exist and hold what is given back. */
  ghost predicate Releasable(t: Tables, id: OrderId) {
    && (forall r | r in Candidates(t, id) :: t.reservations[r].account in t.balances)
    && (forall a | a in t.balances :: GivenBack(t, id, a) != 0 ==>
          WellFormed(t.balances[a]) && 0 <= GivenBack(t, id, a) <= t.balances[a].reserved)
  }

  /** The tables after a cancellation: every live leg cancelled, the group resolved, the reservations given back. */
  ghost function Cancelled(t: Tables, id: OrderId): Tables
    requires id in t.orders
  {
    var group := t.orders[id].group;
    t.(orders := map o | o in t.orders ::
                   if IsLeg(t, id, o) && !IsTerminal(t.orders[o].status) then t.orders[o].(status := CANCELLED)
                   else t.orders[o],
       groups := if group.Some? && group.value in t.groups
                 then t.groups[group.value := t.groups[group.value].(active := false)] else t.groups,
       reservations := Retired(t.reservations, Candidates(t, id)),
       balances := map a | a in t.balances ::
                   Balance(t.balances[a].total, t.balances[a].available + GivenBack(t, id, a),
                           t.balances[a].reserved - GivenBack(t, id, a)))
  }

  datatype CancelCommand = CancelCommand(session: SessionId, order: OrderId)

  /** The ledger half of `cancelOrder`; a terminal order is answered without an effect. */
  ghost function CancelOrder(t: Tables, c: CancelCommand): Result<Tables> {
    var _ :- Check(ActiveSession(t, c.session), ACCOUNT_READ_ONLY);
    var _ :- Check(c.order in t.orders && t.orders[c.order].session == c.session, INVALID_ORDER);
    if IsTerminal(t.orders[c.order].status) then Ok(t) else
      var _ :- Check(Releasable(t, c.order), INVARIANT_VIOLATION);
      Ok(Cancelled(t, c.order))
  }

  // ---- Sessions ----

  /** `expireSession`: an active session ends; it never becomes active again. */
  function ExpireSession(t: Tables, session: SessionId): Tables {
    if ActiveSession(t, session) then t.(sessions := t.sessions[session := false]) else t
  }

  // ---- Leadership ----

  /** The epoch upsert of a lease acquisition: the market's fencing token goes up by one. */
  function NextToken(t: Tables, market: Market): nat {
    if market in t.epochs then t.epochs[market] + 1 else 1
  }

  function AcquireEpoch(t: Tables, market: Market): Tables {
    t.(epochs := t.epochs[market := NextToken(t, market)])
  }

  // ---- Runs ----

  datatype Command =
    | Place(place: PlaceCommand)
    | PlaceOco(oco: OcoCommand)
    | Fills(fill: FillCommand)
    | Triggers(trigger: TriggerCommand)
    | Cancels(cancel: CancelCommand)
    | Acquires(market: Market)
    | Expires(session: SessionId)

  predicate ValidCommand(c: Command) {
    match c
    case Fills(f) => f.schedule.Valid()
    case Triggers(g) => g.schedule.Valid()
    case _ => true
  }

  /** The outcome of one transaction. */
  ghost function Attempt(t: Tables, c: Command): Result<Tables>
    requires ValidCommand(c)
  {
    match c
    case Place(p) =>
      var r :- CommitTradingMutation(t, p);
      Ok(r.tables)
    case PlaceOco(p) =>
      var r :- CommitOcoPlacement(t, p);
      Ok(r.tables)
    case Fills(f) => PersistFill(t, f)
    case Triggers(g) => PersistTrigger(t, g)
    case Cancels(x) => CancelOrder(t, x)
    case Acquires(m) => Ok(AcquireEpoch(t, m))
    case Expires(s) => Ok(ExpireSession(t, s))
  }

  /** The tables after a transaction: a failed one is rolled back. */
  ghost function Apply(t: Tables, c: Command): Tables
    requires ValidCommand(c)
  {
    var r := Attempt(t, c);
    if r.Ok? then r.value else t
  }

  ghost predicate ValidCommands(cs: seq<Command>) {
    forall i | 0 <= i < |cs| :: ValidCommand(cs[i])
  }

  ghost function Run(t: Tables, cs: seq<Command>): Tables
    requires ValidCommands(cs)
    decreases |cs|
  {
    if cs == [] then t else
      assert ValidCommand(cs[0]);
      Run(Apply(t, cs[0]), cs[1..])
  }
}
