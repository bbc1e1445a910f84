/** What holds over every run of the ledger's transactions, in any order and with any failures. */
module LedgerRuns {
  import opened Types
  import opened Execution
  import opened Settlement
  import opened LedgerModel
  import opened LedgerInvariants
  import opened LedgerSteps

  // ---- The invariant ----

  ghost predicate CoherentCommands(cs: seq<Command>) {
    forall i | 0 <= i < |cs| :: CoherentCommand(cs[i])
  }

  lemma {:induction false} RunKeepsInvariant(t: Tables, cs: seq<Command>)
    requires Inv(t) && ValidCommands(cs) && CoherentCommands(cs)
    ensures Inv(Run(t, cs))
    decreases |cs|
  {
    hide Inv, Apply, CoherentCommand, ValidCommand;
    if cs != [] {
      StepKeeps(t, cs[0]);
      RunKeepsInvariant(Apply(t, cs[0]), cs[1..]);
    }
  }

  /** After any run from a sound ledger whose placements are coherent, the consistency check finds nothing to report. */
  lemma RunKeepsLedger(t: Tables, cs: seq<Command>)
    requires Inv(t) && ValidCommands(cs) && CoherentCommands(cs)
    ensures VerifyLedger(Run(t, cs)) == InvariantCounts({}, {}, {})
  {
    RunKeepsInvariant(t, cs);
    hide Run, SumOpen, ValidCommands, CoherentCommands;
    var end := Run(t, cs);
    assert forall a | a in end.balances :: ReservedIn(end, a) == SumOpen(end.reservations, a);
  }

  // ---- Progress ----

  /** What the schema demands of a fill row. */
  predicate SoundFillRow(row: FillRow) {
    row.price > 0 && row.quantity > 0 && row.fee >= 0
  }

  /** The rows a transaction adds: sound fills of orders that were live, under the current token of their market. */
  ghost predicate NewFills(t: Tables, after: Tables) {
    && |t.fills| <= |after.fills| && after.fills[..|t.fills|] == t.fills
    && forall i | |t.fills| <= i < |after.fills| ::
         && after.fills[i].order in t.orders && !IsTerminal(t.orders[after.fills[i].order].status)
         && Fenced(t, after.fills[i].market, after.fills[i].token)
         && SoundFillRow(after.fills[i])
  }

  /** Terminal orders are frozen. */
  ghost predicate KeepsTerminal(t: Tables, after: Tables) {
    forall o | o in t.orders && IsTerminal(t.orders[o].status) :: o in after.orders && after.orders[o] == t.orders[o]
  }

  /** No order disappears, no ended session comes back, no recorded response changes, and no token goes back. */
  ghost predicate Monotone(t: Tables, after: Tables) {
    && t.orders.Keys <= after.orders.Keys
    && after.sessions.Keys == t.sessions.Keys
    && (forall s | s in t.sessions :: after.sessions[s] ==> t.sessions[s])
    && (forall k | k in t.requests :: k in after.requests && after.requests[k] == t.requests[k])
    && (forall m | m in t.epochs :: m in after.epochs && t.epochs[m] <= after.epochs[m])
  }

  ghost predicate Progress(t: Tables, after: Tables) {
    NewFills(t, after) && KeepsTerminal(t, after) && Monotone(t, after)
  }

  lemma PlaceProgress(t: Tables, p: PlaceCommand, after: Placed)
    requires CommitTradingMutation(t, p) == Ok(after)
    ensures Progress(t, after.tables)
  {
    hide PlaceFresh;
    if !after.reply.replayed {
      PlaceFrame(t, p, after.tables);
    }
  }

  lemma OcoProgress(t: Tables, p: OcoCommand, after: Placed)
    requires CommitOcoPlacement(t, p) == Ok(after)
    ensures Progress(t, after.tables)
  {
    hide PlaceOcoFresh;
    if !after.reply.replayed {
      OcoFrame(t, p, after.tables);
    }
  }

  lemma FillProgress(t: Tables, c: FillCommand, after: Tables)
    requires c.schedule.Valid() && PersistFill(t, c) == Ok(after)
    ensures Progress(t, after)
  {
    hide PersistFill;
    FillRecords(t, c, after);
  }

  lemma TriggerProgress(t: Tables, c: TriggerCommand, after: Tables)
    requires c.schedule.Valid() && PersistTrigger(t, c) == Ok(after)
    ensures Progress(t, after)
  {
    if c.order in t.orders && IsTerminal(t.orders[c.order].status) {
      assert after == t;
    } else {
      hide PersistTrigger, WinnerSlotFree, Progress, TriggerRows;
      var fill := TriggerRecords(t, c, after);
      assert fill == [fill][0];
      TriggeredProgress(t, c, fill, after);
    }
  }

  lemma TriggeredProgress(t: Tables, c: TriggerCommand, fill: Fill, after: Tables)
    requires c.order in t.orders && !IsTerminal(t.orders[c.order].status) && TriggerRows(t, c, fill, after)
    requires Fenced(t, t.orders[c.order].market, c.token) && fill.price > 0 && fill.quantity > 0 && fill.fee >= 0
    ensures Progress(t, after)
  {
    assert after.fills[|t.fills|] == RowOf(c.order, t.orders[c.order], fill, c.token);
  }

  lemma CancelProgress(t: Tables, c: CancelCommand, after: Tables)
    requires CancelOrder(t, c) == Ok(after)
    ensures Progress(t, after)
  {
    hide Releasable, GivenBack;
  }

  lemma StepProgress(t: Tables, c: Command)
    requires ValidCommand(c)
    ensures Progress(t, Apply(t, c))
  {
    hide Progress, CommitTradingMutation, CommitOcoPlacement, PersistFill, PersistTrigger, CancelOrder;
    var r := Attempt(t, c);
    if r.Ok? {
      match c
      case Place(p) => PlaceProgress(t, p, CommitTradingMutation(t, p).value);
      case PlaceOco(p) => OcoProgress(t, p, CommitOcoPlacement(t, p).value);
      case Fills(f) => FillProgress(t, f, r.value);
      case Triggers(g) => TriggerProgress(t, g, r.value);
      case Cancels(x) => CancelProgress(t, x, r.value);
      case Acquires(m) => NothingButEpochs(t, m);
      case Expires(x) => NothingButSessions(t, x);
    } else {
      Unmoved(t);
    }
  }

  lemma NothingButEpochs(t: Tables, m: Market)
    ensures Progress(t, AcquireEpoch(t, m))
  {
  }

  lemma NothingButSessions(t: Tables, x: SessionId)
    ensures Progress(t, ExpireSession(t, x))
  {
    var after := ExpireSession(t, x);
    assert after.fills == t.fills && after.orders == t.orders && after.requests == t.requests
           && after.epochs == t.epochs;
    assert NewFills(t, after) && KeepsTerminal(t, after) && Monotone(t, after) by {
      hide ExpireSession, Fenced;
      SessionsEnd(t, x);
    }
    hide NewFills, KeepsTerminal, Monotone;
  }

  lemma SessionsEnd(t: Tables, x: SessionId)
    ensures var after := ExpireSession(t, x);
            && after.sessions.Keys == t.sessions.Keys
            && forall s | s in t.sessions :: after.sessions[s] ==> t.sessions[s]
  {
  }

  lemma Unmoved(t: Tables)
    ensures Progress(t, t)
  {
  }

  // ---- Ended sessions ----

  lemma {:induction false} SessionStaysEnded(t: Tables, cs: seq<Command>, session: SessionId)
    requires ValidCommands(cs) && !ActiveSession(t, session)
    ensures !ActiveSession(Run(t, cs), session)
    decreases |cs|
  {
    hide Apply, ValidCommand;
    if cs != [] {
      StepProgress(t, cs[0]);
      SessionStaysEnded(Apply(t, cs[0]), cs[1..], session);
    }
  }

  /** Ending a session ends that one and no other. */
  lemma EndsOneSession(t: Tables, session: SessionId, other: SessionId)
    ensures ActiveSession(Apply(t, Expires(session)), other) <==> ActiveSession(t, other) && other != session
  {
  }

  /** Once a session has been ended, whatever runs meanwhile, it places nothing and cancels nothing. */
  lemma EndedSessionIsReadOnly(t: Tables, session: SessionId, cs: seq<Command>, c: Command)
    requires ValidCommands(cs) && ValidCommand(c)
    requires match c
             case Place(p) => p.session == session
             case PlaceOco(p) => p.session == session
             case Cancels(x) => x.session == session
             case _ => false
    ensures Attempt(Run(Apply(t, Expires(session)), cs), c) == Err(ACCOUNT_READ_ONLY)
  {
    hide PlaceFresh, PlaceOcoFresh, Releasable, Cancelled, Run;
    EndsOneSession(t, session, session);
    SessionStaysEnded(Apply(t, Expires(session)), cs, session);
    hide Apply, ValidCommands;
  }

  // ---- Terminal orders ----

  ghost predicate NoFillSince(fills: seq<FillRow>, from: nat, id: OrderId) {
    forall i | from <= i < |fills| :: fills[i].order != id
  }

  /** A terminal order never changes again, and no fill row of it is ever written. */
  lemma {:induction false} TerminalIsFinal(t: Tables, cs: seq<Command>, id: OrderId)
    requires ValidCommands(cs) && id in t.orders && IsTerminal(t.orders[id].status)
    ensures id in Run(t, cs).orders && Run(t, cs).orders[id] == t.orders[id]
    ensures |t.fills| <= |Run(t, cs).fills| && NoFillSince(Run(t, cs).fills, |t.fills|, id)
    decreases |cs|
  {
    hide Apply, ValidCommand, Fenced;
    if cs != [] {
      var next := Apply(t, cs[0]);
      StepProgress(t, cs[0]);
      TerminalIsFinal(next, cs[1..], id);
      FillsArePrefix(next, cs[1..]);
    }
  }

  /** Fill rows are only ever appended. */
  lemma {:induction false} FillsArePrefix(t: Tables, cs: seq<Command>)
    requires ValidCommands(cs)
    ensures |t.fills| <= |Run(t, cs).fills| && Run(t, cs).fills[..|t.fills|] == t.fills
    decreases |cs|
  {
    hide Apply, ValidCommand, Fenced;
    if cs != [] {
      var next := Apply(t, cs[0]);
      StepProgress(t, cs[0]);
      FillsArePrefix(next, cs[1..]);
      var end := Run(next, cs[1..]);
      assert end.fills[..|t.fills|] == end.fills[..|next.fills|][..|t.fills|];
    }
  }

  // ---- Fencing ----

  /** Fills carry non-decreasing tokens in commit order, market by market, none ahead of the current one. */
  ghost predicate TokensOrdered(t: Tables) {
    && (forall i | 0 <= i < |t.fills| :: TokenCurrent(t, t.fills[i]))
    && (forall i, j | 0 <= i < j < |t.fills| && t.fills[i].market == t.fills[j].market ::
          t.fills[i].token <= t.fills[j].token)
  }

  ghost predicate TokenCurrent(t: Tables, row: FillRow) {
    row.market in t.epochs && row.token <= t.epochs[row.market]
  }

  lemma StepKeepsTokens(t: Tables, c: Command)
    requires TokensOrdered(t) && ValidCommand(c)
    ensures TokensOrdered(Apply(t, c))
  {
    hide Apply, ValidCommand;
    StepProgress(t, c);
    var after := Apply(t, c);
    hide KeepsTerminal;
    forall i | 0 <= i < |after.fills| ensures TokenCurrent(after, after.fills[i]) {
      if i < |t.fills| {
        assert after.fills[i] == t.fills[i] && TokenCurrent(t, t.fills[i]);
      }
    }
    forall i, j | 0 <= i < j < |after.fills| && after.fills[i].market == after.fills[j].market
      ensures after.fills[i].token <= after.fills[j].token
    {
      assert i < |t.fills| ==> after.fills[i] == t.fills[i] && TokenCurrent(t, t.fills[i]);
      assert j < |t.fills| ==> after.fills[j] == t.fills[j];
    }
  }

  /** Over any run the tokens of committed fills never go back: a superseded leader writes nothing. */
  lemma {:induction false} RunKeepsTokens(t: Tables, cs: seq<Command>)
    requires TokensOrdered(t) && ValidCommands(cs)
    ensures TokensOrdered(Run(t, cs))
    decreases |cs|
  {
    hide Apply, ValidCommand, TokensOrdered;
    if cs != [] {
      StepKeepsTokens(t, cs[0]);
      RunKeepsTokens(Apply(t, cs[0]), cs[1..]);
    }
  }

  ghost predicate FillRowsSound(t: Tables) {
    forall i | 0 <= i < |t.fills| :: SoundFillRow(t.fills[i])
  }

  /** Over any run every fill row the ledger adds passes the schema's checks. */
  lemma {:induction false} RunKeepsFillRows(t: Tables, cs: seq<Command>)
    requires FillRowsSound(t) && ValidCommands(cs)
    ensures FillRowsSound(Run(t, cs))
    decreases |cs|
  {
    hide Apply, ValidCommand, SoundFillRow, FillRowsSound;
    if cs != [] {
      StepKeepsFillRows(t, cs[0]);
      RunKeepsFillRows(Apply(t, cs[0]), cs[1..]);
    }
  }

  lemma StepKeepsFillRows(t: Tables, c: Command)
    requires FillRowsSound(t) && ValidCommand(c)
    ensures FillRowsSound(Apply(t, c))
  {
    hide Apply, ValidCommand, SoundFillRow, KeepsTerminal, Monotone;
    StepProgress(t, c);
    var after := Apply(t, c);
    forall i | 0 <= i < |after.fills| ensures SoundFillRow(after.fills[i]) {
      assert i < |t.fills| ==> after.fills[i] == t.fills[i];
    }
  }

  // ---- Exactly once ----

  lemma {:induction false} RequestsLast(t: Tables, cs: seq<Command>, key: RequestKey)
    requires ValidCommands(cs) && key in t.requests
    ensures key in Run(t, cs).requests && Run(t, cs).requests[key] == t.requests[key]
    decreases |cs|
  {
    hide Apply, ValidCommand, NewFills, KeepsTerminal;
    if cs != [] {
      StepProgress(t, cs[0]);
      RequestsLast(Apply(t, cs[0]), cs[1..], key);
    }
  }

  /**
    Once a placement has committed, whatever runs in between, submitting its key again changes
    nothing: while the session is active the same request gets the recorded response and a
    different one is refused; once the session has ended both are refused for that.
   */
  lemma ReplayIsIdempotent(t: Tables, p: PlaceCommand, placed: Placed, cs: seq<Command>, again: PlaceCommand)
    requires CommitTradingMutation(t, p) == Ok(placed) && !placed.reply.replayed && ValidCommands(cs)
    requires again.session == p.session && again.key == p.key
    ensures var later := Run(placed.tables, cs);
            CommitTradingMutation(later, again) ==
              if !ActiveSession(later, p.session) then Err(ACCOUNT_READ_ONLY)
              else if again.hash == p.hash then Ok(Placed(later, Reply(true, p.response)))
              else Err(IDEMPOTENCY_CONFLICT)
  {
    PlaceRequests(t, p, placed);
    RequestsLast(placed.tables, cs, RequestKey(p.session, p.key));
    hide Run;
  }

  lemma PlaceRequests(t: Tables, p: PlaceCommand, placed: Placed)
    requires CommitTradingMutation(t, p) == Ok(placed) && !placed.reply.replayed
    ensures ActiveSession(placed.tables, p.session)
    ensures RequestKey(p.session, p.key) in placed.tables.requests
    ensures placed.tables.requests[RequestKey(p.session, p.key)] == RequestRow(p.hash, Some(p.response))
    ensures placed.reply.response == p.response
  {
    hide PlaceFresh, SameTotals;
    PlaceFrame(t, p, placed.tables);
  }

  /** The same for an OCO placement. */
  lemma OcoReplayIsIdempotent(t: Tables, p: OcoCommand, placed: Placed, cs: seq<Command>, again: OcoCommand)
    requires CommitOcoPlacement(t, p) == Ok(placed) && !placed.reply.replayed && ValidCommands(cs)
    requires again.session == p.session && again.key == p.key
    ensures var later := Run(placed.tables, cs);
            CommitOcoPlacement(later, again) ==
              if !ActiveSession(later, p.session) then Err(ACCOUNT_READ_ONLY)
              else if again.hash == p.hash then Ok(Placed(later, Reply(true, p.response)))
              else Err(IDEMPOTENCY_CONFLICT)
  {
    hide WellFormed, Run, PlaceFresh;
    assert placed.tables.requests[RequestKey(p.session, p.key)] == RequestRow(p.hash, Some(p.response));
    RequestsLast(placed.tables, cs, RequestKey(p.session, p.key));
  }

  // ---- Conservation ----

  /** One transaction, whatever the ledger holds: totals move by the flow of the fill rows it writes. */
  lemma StepConserves(t: Tables, c: Command, account: Account)
    requires ValidCommand(c)
    ensures TotalIn(Apply(t, c), account) - NetFlow(Apply(t, c).fills, account)
         == TotalIn(t, account) - NetFlow(t.fills, account)
  {
    hide NetFlow, BatchFlow, SumOpen, GivenBack, Releasable, WellFormed, PersistFill, PersistTrigger, CancelOrder,
         Storable, CommitTradingMutation, CommitOcoPlacement;
    var r := Attempt(t, c);
    if r.Ok? {
      match c
      case Place(p) => PlaceTotals(t, p, r.value, account);
      case PlaceOco(p) => OcoTotals(t, p, r.value, account);
      case Fills(f) => FillConserves(t, f, r.value, account);
      case Triggers(g) => TriggerConserves(t, g, r.value, account);
      case Cancels(x) => CancelTotals(t, x, r.value, account);
      case Acquires(m) =>
      case Expires(x) =>
    }
  }

  lemma PlaceTotals(t: Tables, p: PlaceCommand, after: Tables, account: Account)
    requires Attempt(t, Place(p)) == Ok(after)
    ensures TotalIn(after, account) == TotalIn(t, account) && after.fills == t.fills
  {
    hide PlaceFresh;
    var placed := CommitTradingMutation(t, p).value;
    if !placed.reply.replayed {
      PlaceFrame(t, p, placed.tables);
    }
  }

  lemma OcoTotals(t: Tables, p: OcoCommand, after: Tables, account: Account)
    requires Attempt(t, PlaceOco(p)) == Ok(after)
    ensures TotalIn(after, account) == TotalIn(t, account) && after.fills == t.fills
  {
    hide PlaceOcoFresh;
    var placed := CommitOcoPlacement(t, p).value;
    if !placed.reply.replayed {
      OcoFrame(t, p, placed.tables);
    }
  }

  lemma CancelTotals(t: Tables, c: CancelCommand, after: Tables, account: Account)
    requires CancelOrder(t, c) == Ok(after)
    ensures TotalIn(after, account) == TotalIn(t, account) && after.fills == t.fills
  {
    hide Releasable, GivenBack;
  }

  lemma FillConserves(t: Tables, c: FillCommand, after: Tables, account: Account)
    requires c.schedule.Valid() && PersistFill(t, c) == Ok(after)
    ensures TotalIn(after, account) - NetFlow(after.fills, account)
         == TotalIn(t, account) - NetFlow(t.fills, account)
  {
    hide PersistFill, NetFlow, BatchFlow, RowsOf, Storable;
    FillRecords(t, c, after);
    FillFlow(t, c, after);
    RowsFlow(t.fills, c.order, t.orders[c.order], c.fills, c.token, account);
  }

  lemma TriggerConserves(t: Tables, c: TriggerCommand, after: Tables, account: Account)
    requires c.schedule.Valid() && PersistTrigger(t, c) == Ok(after)
    ensures TotalIn(after, account) - NetFlow(after.fills, account)
         == TotalIn(t, account) - NetFlow(t.fills, account)
  {
    if c.order in t.orders && IsTerminal(t.orders[c.order].status) {
      assert after == t;
    } else {
      hide PersistTrigger, NetFlow, BatchFlow, RowsOf, Storable;
      var fill := TriggerFlow(t, c, after);
      RowsFlow(t.fills, c.order, t.orders[c.order], [fill], c.token, account);
    }
  }

  /**
    Conservation: over any run, the total of every wallet and position moves by exactly the flow
    of the fill rows the run wrote, cash and shares and fees to the last unit.
   */
  lemma {:induction false} RunConserves(t: Tables, cs: seq<Command>, account: Account)
    requires ValidCommands(cs)
    ensures TotalIn(Run(t, cs), account) - TotalIn(t, account)
         == NetFlow(Run(t, cs).fills, account) - NetFlow(t.fills, account)
    decreases |cs|
  {
    hide Apply, ValidCommand, NetFlow, TotalIn;
    if cs != [] {
      StepConserves(t, cs[0], account);
      RunConserves(Apply(t, cs[0]), cs[1..], account);
    }
  }

  // ---- Filled quantities and fill rows ----

  function FilledBy(fills: seq<FillRow>, id: OrderId): int {
    if fills == [] then 0 else
      FilledBy(fills[..|fills| - 1], id) + (if fills[|fills| - 1].order == id then fills[|fills| - 1].quantity else 0)
  }

  /** Every order's filled quantity is the sum of its fill rows. */
  ghost predicate RowsMatch(t: Tables) {
    && (forall id | id in t.orders :: t.orders[id].filled == FilledBy(t.fills, id))
    && (forall i | 0 <= i < |t.fills| :: t.fills[i].order in t.orders)
  }

  /** The filled quantity a command writes is what the row holds plus what its fills add. */
  ghost predicate Agreed(t: Tables, c: Command) {
    match c
    case Fills(f) => f.order in t.orders ==> f.filledAfter == t.orders[f.order].filled + QuantityOf(f.fills)
    case Triggers(g) => g.order in t.orders && !IsTerminal(t.orders[g.order].status) ==> t.orders[g.order].filled == 0
    case _ => true
  }

  lemma {:induction false} FilledByRows(base: seq<FillRow>, id: OrderId, order: OrderRow, fills: seq<Fill>, token: nat,
                                        other: OrderId)
    ensures FilledBy(base + RowsOf(id, order, fills, token), other)
         == FilledBy(base, other) + (if other == id then QuantityOf(fills) else 0)
  {
    var rows := base + RowsOf(id, order, fills, token);
    if fills == [] {
      assert rows == base;
    } else {
      var rest := fills[..|fills| - 1];
      FilledByRows(base, id, order, rest, token, other);
      assert rows[..|rows| - 1] == base + RowsOf(id, order, rest, token);
    }
  }

  lemma {:induction false} NoRowsNoQuantity(fills: seq<FillRow>, id: OrderId)
    requires forall i | 0 <= i < |fills| :: fills[i].order != id
    ensures FilledBy(fills, id) == 0
  {
    if fills != [] {
      NoRowsNoQuantity(fills[..|fills| - 1], id);
    }
  }

  lemma FillMatches(t: Tables, c: FillCommand, after: Tables)
    requires RowsMatch(t) && c.schedule.Valid() && PersistFill(t, c) == Ok(after)
    ensures RowsMatch(after) <==> Agreed(t, Fills(c))
  {
    hide PersistFill, FilledBy, Storable, Fenced;
    FillRecords(t, c, after);
    forall id | id in t.orders
      ensures after.orders[id].filled - FilledBy(after.fills, id)
           == if id == c.order then c.filledAfter - t.orders[id].filled - QuantityOf(c.fills) else 0
    {
      FilledByRows(t.fills, c.order, t.orders[c.order], c.fills, c.token, id);
    }
    hide QuantityOf;
    if RowsMatch(after) {
      assert after.orders[c.order].filled == FilledBy(after.fills, c.order);
    }
  }

  lemma TriggerMatches(t: Tables, c: TriggerCommand, after: Tables)
    requires RowsMatch(t) && c.schedule.Valid() && PersistTrigger(t, c) == Ok(after)
    ensures RowsMatch(after) <==> Agreed(t, Triggers(c))
  {
    if c.order in t.orders && IsTerminal(t.orders[c.order].status) {
      assert after == t;
    } else {
      hide PersistTrigger, Storable, WinnerSlotFree, TriggerRows, RowsMatch;
      var fill := TriggerRecords(t, c, after);
      TriggeredMatches(t, c, fill, after);
    }
  }

  lemma TriggeredMatches(t: Tables, c: TriggerCommand, fill: Fill, after: Tables)
    requires RowsMatch(t) && c.order in t.orders && TriggerRows(t, c, fill, after)
    requires fill.quantity == t.orders[c.order].quantity
    ensures RowsMatch(after) <==> t.orders[c.order].filled == 0
  {
    hide FilledBy, QuantityOf;
    forall id | id in t.orders
      ensures after.orders[id].filled - FilledBy(after.fills, id) == if id == c.order then -t.orders[id].filled else 0
    {
      FilledByRows(t.fills, c.order, t.orders[c.order], [fill], c.token, id);
      OneFill(fill);
    }
    if RowsMatch(after) {
      assert after.orders[c.order].filled == FilledBy(after.fills, c.order);
    }
  }

  lemma OneFill(fill: Fill)
    ensures QuantityOf([fill]) == fill.quantity
  {
  }

  lemma PlaceMatches(t: Tables, c: Command, after: Tables)
    requires RowsMatch(t) && (c.Place? || c.PlaceOco?) && ValidCommand(c) && Attempt(t, c) == Ok(after)
    ensures RowsMatch(after)
  {
    hide PlaceFresh, PlaceOcoFresh, SameTotals, FilledBy;
    if c.Place? && after != t {
      PlaceFrame(t, c.place, after);
      NoRowsNoQuantity(t.fills, c.place.id);
    } else if c.PlaceOco? && after != t {
      OcoFrame(t, c.oco, after);
      NoRowsNoQuantity(t.fills, c.oco.first);
      NoRowsNoQuantity(t.fills, c.oco.second);
    }
  }

  lemma CancelMatches(t: Tables, c: CancelCommand, after: Tables)
    requires RowsMatch(t) && CancelOrder(t, c) == Ok(after)
    ensures RowsMatch(after)
  {
    hide FilledBy, Releasable, GivenBack;
  }

  /** A committed step keeps filled quantities equal to the sums of their rows exactly when its writer agreed. */
  lemma StepMatchesExactlyWhenAgreed(t: Tables, c: Command)
    requires RowsMatch(t) && ValidCommand(c) && Attempt(t, c).Ok?
    ensures RowsMatch(Apply(t, c)) <==> Agreed(t, c)
  {
    hide RowsMatch, CommitTradingMutation, CommitOcoPlacement, PersistFill, PersistTrigger, CancelOrder;
    var after := Attempt(t, c).value;
    match c
    case Place(_) => PlaceMatches(t, c, after);
    case PlaceOco(_) => PlaceMatches(t, c, after);
    case Fills(f) => FillMatches(t, f, after);
    case Triggers(g) => TriggerMatches(t, g, after);
    case Cancels(x) => CancelMatches(t, x, after);
    case Acquires(m) => EpochsMatch(t, m);
    case Expires(x) => SessionsMatch(t, x);
  }

  lemma EpochsMatch(t: Tables, m: Market)
    requires RowsMatch(t)
    ensures RowsMatch(AcquireEpoch(t, m))
  {
    hide FilledBy;
  }

  lemma SessionsMatch(t: Tables, x: SessionId)
    requires RowsMatch(t)
    ensures RowsMatch(ExpireSession(t, x))
  {
    hide FilledBy;
  }

  /** Every committed step of the run was written by an agreeing engine. */
  ghost predicate AgreedRun(t: Tables, cs: seq<Command>)
    requires ValidCommands(cs)
    decreases |cs|
  {
    cs != [] ==>
      (assert ValidCommand(cs[0]); (Attempt(t, cs[0]).Ok? ==> Agreed(t, cs[0]))) && AgreedRun(Apply(t, cs[0]), cs[1..])
  }

  lemma {:induction false} RunMatches(t: Tables, cs: seq<Command>)
    requires RowsMatch(t) && ValidCommands(cs) && AgreedRun(t, cs)
    ensures RowsMatch(Run(t, cs))
    decreases |cs|
  {
    hide RowsMatch, Attempt, Agreed;
    if cs != [] {
      if Attempt(t, cs[0]).Ok? {
        StepMatchesExactlyWhenAgreed(t, cs[0]);
      }
      RunMatches(Apply(t, cs[0]), cs[1..]);
    }
  }

  // ---- Refusals ----

  /** Under the invariant a cancellation is refused only for its session or its order. */
  lemma CancelRefusedExactly(t: Tables, c: CancelCommand)
    requires Inv(t)
    ensures CancelOrder(t, c).Ok? <==>
              ActiveSession(t, c.session) && c.order in t.orders && t.orders[c.order].session == c.session
    ensures CancelOrder(t, c).Err? ==> CancelOrder(t, c).code in {ACCOUNT_READ_ONLY, INVALID_ORDER}
  {
    AlwaysReleasable(t, c.order);
    hide Inv, Releasable, Cancelled;
  }

  /** Every fee is within what its fill earns. */
  predicate FeesWithinNotionals(fills: seq<Fill>) {
    forall i | 0 <= i < |fills| :: fills[i].fee <= fills[i].price * fills[i].quantity
  }

  lemma {:induction false} ProceedsNonNegative(fills: seq<Fill>)
    requires FeesWithinNotionals(fills)
    ensures GrossOf(fills) - FeesOf(fills) >= 0
  {
    if fills != [] {
      ProceedsNonNegative(fills[..|fills| - 1]);
    }
  }

  /**
    The proceeds of a sale are refused exactly when they are negative, whatever the wallet holds;
    with every fee within its notional that never happens.
   */
  lemma ProceedsRefusedExactly(t: Tables, account: Account, fills: seq<Fill>)
    requires Books(t) && SumFills(fills, -1, 0).Ok?
    ensures Credit(t, account, SumFills(fills, -1, 0).value).Err? <==> GrossOf(fills) < FeesOf(fills)
    ensures FeesWithinNotionals(fills) ==> Credit(t, account, SumFills(fills, -1, 0).value).Ok?
  {
    SumFillsValue(fills, -1, 0);
    if FeesWithinNotionals(fills) {
      ProceedsNonNegative(fills);
    }
    hide SumOpen, SumFills;
  }
}
