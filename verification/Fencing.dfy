/**
  Leader processes and the ledger together: leases come and go while fills and triggers, sent under
  whatever token a process once acquired, commit or are refused.
 */
module Fencing {
  import opened Types
  import opened LedgerModel
  import opened LedgerInvariants
  import opened LedgerSteps
  import opened LedgerRuns
  import Leases

  /** `writers` says of every fill row which connection's process sent it. */
  datatype System = System(world: Leases.World, ledger: Tables, writers: seq<Leases.ConnId>)

  datatype Step =
    | Lease(step: Leases.Step)
    | Leader(conn: Leases.ConnId, token: nat, market: Market, command: Command)  // a fill or a trigger of that market
    | Anyone(command: Command)

  /** The transaction is a fill or a trigger of an order of the market, under the token. */
  predicate SentBy(t: Tables, c: Command, market: Market, token: nat) {
    match c
    case Fills(f) => f.token == token && (f.order in t.orders ==> t.orders[f.order].market == market)
    case Triggers(g) => g.token == token && (g.order in t.orders ==> t.orders[g.order].market == market)
    case _ => false
  }

  /** A process sends under a token it acquired, whatever has become of its lease since. */
  ghost predicate Enabled(s: System, step: Step) {
    match step
    case Lease(x) => Leases.Enabled(s.world, x)
    case Leader(conn, token, market, c) =>
      && ValidCommand(c) && SentBy(s.ledger, c, market, token)
      && Leases.Wrote(s.world, Leases.Acquisition(market, token, conn))
    case Anyone(c) => ValidCommand(c) && !c.Fills? && !c.Triggers? && !c.Acquires?
  }

  ghost function After(s: System, step: Step): System
    requires Enabled(s, step)
  {
    match step
    case Lease(x) =>
      s.(world := Leases.After(s.world, x),
         ledger := if x.Commit? then Apply(s.ledger, Acquires(s.world.conns[x.conn].market)) else s.ledger)
    case Leader(conn, _, _, c) =>
      var ledger := Apply(s.ledger, c);
      var added := if |ledger.fills| >= |s.ledger.fills| then |ledger.fills| - |s.ledger.fills| else 0;
      s.(ledger := ledger, writers := s.writers + seq(added, _ => conn))
    case Anyone(c) => s.(ledger := Apply(s.ledger, c))
  }

  /** Every fill row carries the token that the connection which sent it acquired in that market. */
  ghost predicate RowsByLeaders(s: System) {
    && |s.writers| == |s.ledger.fills|
    && forall i | 0 <= i < |s.writers| ::
         Leases.Wrote(s.world, Leases.Acquisition(s.ledger.fills[i].market, s.ledger.fills[i].token, s.writers[i]))
  }

  ghost predicate Fenceful(s: System) {
    Leases.Sound(s.world) && s.ledger.epochs == s.world.tokens && TokensOrdered(s.ledger) && RowsByLeaders(s)
  }

  // ---- What a step of the ledger does here ----

  /** Only an acquisition touches the tokens. */
  lemma EpochsStay(t: Tables, c: Command)
    requires ValidCommand(c) && !c.Acquires?
    ensures Apply(t, c).epochs == t.epochs
  {
    hide PersistFill, PersistTrigger, CancelOrder, PlaceFresh, PlaceOcoFresh, Storable, SameTotals, WinnerSlotFree,
         FillRows, TriggerRows;
    var r := Attempt(t, c);
    if r.Ok? && r.value != t {
      match c
      case Place(p) => PlaceFrame(t, p, r.value);
      case PlaceOco(p) => OcoFrame(t, p, r.value);
      case Fills(f) => FillEpochs(t, f, r.value);
      case Triggers(g) => TriggerEpochs(t, g, r.value);
      case Cancels(x) => CancelEpochs(t, x, r.value);
      case Expires(x) =>
    }
  }

  lemma FillEpochs(t: Tables, f: FillCommand, after: Tables)
    requires f.schedule.Valid() && PersistFill(t, f) == Ok(after)
    ensures after.epochs == t.epochs
  {
    hide PersistFill;
    FillRecords(t, f, after);
  }

  lemma TriggerEpochs(t: Tables, g: TriggerCommand, after: Tables)
    requires g.schedule.Valid() && PersistTrigger(t, g) == Ok(after) && after != t
    ensures after.epochs == t.epochs
  {
    if !(g.order in t.orders && IsTerminal(t.orders[g.order].status)) {
      hide PersistTrigger;
      var _ := TriggerRecords(t, g, after);
    }
  }

  lemma CancelEpochs(t: Tables, x: CancelCommand, after: Tables)
    requires CancelOrder(t, x) == Ok(after)
    ensures after.epochs == t.epochs
  {
    hide Releasable, GivenBack;
  }

  /** The rows a sent transaction adds are of its market, under its token. */
  lemma SentRows(t: Tables, c: Command, market: Market, token: nat)
    requires ValidCommand(c) && SentBy(t, c, market, token)
    ensures |t.fills| <= |Apply(t, c).fills| && Apply(t, c).fills[..|t.fills|] == t.fills
    ensures forall i | |t.fills| <= i < |Apply(t, c).fills| ::
              Apply(t, c).fills[i].market == market && Apply(t, c).fills[i].token == token
  {
    hide PersistFill, PersistTrigger, Storable, WinnerSlotFree;
    var r := Attempt(t, c);
    if r.Ok? && r.value != t {
      match c
      case Fills(f) => FillRecords(t, f, r.value);
      case Triggers(g) => SentTriggerRows(t, g, r.value);
    }
  }

  lemma SentTriggerRows(t: Tables, g: TriggerCommand, after: Tables)
    requires g.schedule.Valid() && PersistTrigger(t, g) == Ok(after)
    ensures |t.fills| <= |after.fills| && after.fills[..|t.fills|] == t.fills
    ensures forall i | |t.fills| <= i < |after.fills| ::
              && g.order in t.orders && after.fills[i].market == t.orders[g.order].market
              && after.fills[i].token == g.token
  {
    if g.order in t.orders && IsTerminal(t.orders[g.order].status) {
      assert after == t;
    } else {
      hide PersistTrigger, Storable, WinnerSlotFree;
      var fill := TriggerRecords(t, g, after);
    }
  }

  /** Nobody else writes a fill row. */
  lemma AnyoneAddsNoRow(t: Tables, c: Command)
    requires ValidCommand(c) && !c.Fills? && !c.Triggers?
    ensures Apply(t, c).fills == t.fills
  {
    hide CancelOrder, PlaceFresh, PlaceOcoFresh, SameTotals;
    var r := Attempt(t, c);
    if r.Ok? && r.value != t {
      match c
      case Place(p) => PlaceFrame(t, p, r.value);
      case PlaceOco(p) => OcoFrame(t, p, r.value);
      case Cancels(x) => CancelFills(t, x, r.value);
      case Acquires(m) =>
      case Expires(x) =>
    }
  }

  lemma CancelFills(t: Tables, x: CancelCommand, after: Tables)
    requires CancelOrder(t, x) == Ok(after)
    ensures after.fills == t.fills
  {
    hide Releasable, GivenBack;
  }

  // ---- Every step ----

  lemma CommitterKnown(w: Leases.World, x: Leases.Step)
    requires Leases.Enabled(w, x) && x.Commit?
    ensures x.conn in w.conns
  {
  }

  lemma LeaseKeeps(s: System, x: Leases.Step)
    requires Fenceful(s) && Leases.Enabled(s.world, x)
    ensures Fenceful(After(s, Lease(x)))
  {
    hide Leases.LocksSound, Leases.TokensSound, Leases.WritersSound, Leases.LeasesSound, Leases.After, Leases.Enabled,
         Leases.Wrote, TokensOrdered, Apply;
    Leases.StepKeepsLocks(s.world, x);
    Leases.StepKeepsTokens(s.world, x);
    Leases.StepKeepsWriters(s.world, x);
    Leases.StepKeepsLeases(s.world, x);
    var after := After(s, Lease(x));
    LeaseTokens(s, x);
    if x.Commit? {
      CommitterKnown(s.world, x);
      var m := s.world.conns[x.conn].market;
      StepKeepsTokens(s.ledger, Acquires(m));
    }
  }

  lemma LeaseTokens(s: System, x: Leases.Step)
    requires Fenceful(s) && Leases.Enabled(s.world, x)
    ensures var after := After(s, Lease(x));
            after.ledger.epochs == after.world.tokens && after.ledger.fills == s.ledger.fills
  {
    hide Leases.Sound, TokensOrdered, RowsByLeaders;
  }

  lemma LeaderKeeps(s: System, step: Step)
    requires Fenceful(s) && Enabled(s, step) && step.Leader?
    ensures Fenceful(After(s, step))
  {
    hide Leases.Sound, Leases.Wrote, TokensOrdered, Apply, ValidCommand, SentBy;
    var c := step.command;
    assert !c.Acquires? by { SentKind(s.ledger, c, step.market, step.token); }
    EpochsStay(s.ledger, c);
    StepKeepsTokens(s.ledger, c);
    SentRows(s.ledger, c, step.market, step.token);
    var after := After(s, step);
    forall i | 0 <= i < |after.writers|
      ensures Leases.Wrote(after.world,
                Leases.Acquisition(after.ledger.fills[i].market, after.ledger.fills[i].token, after.writers[i]))
    {
      if i < |s.writers| {
        assert after.ledger.fills[i] == s.ledger.fills[i];
      }
    }
  }

  lemma SentKind(t: Tables, c: Command, market: Market, token: nat)
    requires SentBy(t, c, market, token)
    ensures c.Fills? || c.Triggers?
  {
  }

  lemma StepKeepsFencing(s: System, step: Step)
    requires Fenceful(s) && Enabled(s, step)
    ensures Fenceful(After(s, step))
  {
    match step
    case Lease(x) => LeaseKeeps(s, x);
    case Leader(_, _, _, _) => LeaderKeeps(s, step);
    case Anyone(c) =>
      hide Leases.Sound, TokensOrdered, Apply;
      EpochsStay(s.ledger, c);
      StepKeepsTokens(s.ledger, c);
      AnyoneAddsNoRow(s.ledger, c);
  }

  ghost predicate Possible(s: System, steps: seq<Step>)
    decreases |steps|
  {
    steps != [] ==> Enabled(s, steps[0]) && Possible(After(s, steps[0]), steps[1..])
  }

  ghost function RunFrom(s: System, steps: seq<Step>): System
    requires Possible(s, steps)
    decreases |steps|
  {
    if steps == [] then s else RunFrom(After(s, steps[0]), steps[1..])
  }

  /** The token a fill has to carry is the one of the latest lease, over any run of leases and transactions. */
  lemma {:induction false} RunKeepsFencing(s: System, steps: seq<Step>)
    requires Fenceful(s) && Possible(s, steps)
    ensures Fenceful(RunFrom(s, steps))
    decreases |steps|
  {
    hide Fenceful, Enabled, After;
    if steps != [] {
      StepKeepsFencing(s, steps[0]);
      RunKeepsFencing(After(s, steps[0]), steps[1..]);
    }
  }

  // ---- What fencing gives ----

  /**
    In every reachable state the fill rows of a market change hands in one direction: once another
    process has written a row, the process before it never writes one again, even while it still
    believes it leads.
   */
  lemma LeadersNeverAlternate(s: System, steps: seq<Step>, i: nat, j: nat, k: nat)
    requires Fenceful(s) && Possible(s, steps)
    requires var end := RunFrom(s, steps);
             && i < j < k < |end.writers| && |end.writers| == |end.ledger.fills|
             && end.ledger.fills[i].market == end.ledger.fills[j].market == end.ledger.fills[k].market
             && end.writers[i] == end.writers[k]
    ensures RunFrom(s, steps).writers[j] == RunFrom(s, steps).writers[i]
  {
    RunKeepsFencing(s, steps);
    hide RunFrom, Possible;
    RowsInOrder(RunFrom(s, steps), i, j, k);
  }

  lemma RowsInOrder(s: System, i: nat, j: nat, k: nat)
    requires Fenceful(s) && i < j < k < |s.writers| && s.writers[i] == s.writers[k]
    requires s.ledger.fills[i].market == s.ledger.fills[j].market == s.ledger.fills[k].market
    ensures s.writers[j] == s.writers[i]
  {
    var rows, m := s.ledger.fills, s.ledger.fills[i].market;
    assert rows[i].token <= rows[j].token <= rows[k].token;
    OneTokenEach(s.world, Leases.Acquisition(m, rows[i].token, s.writers[i]),
                 Leases.Acquisition(m, rows[k].token, s.writers[k]));
    Leases.TokenHasOneWriter(s.world, Leases.Acquisition(m, rows[i].token, s.writers[i]),
                             Leases.Acquisition(m, rows[j].token, s.writers[j]));
  }

  lemma OneTokenEach(w: Leases.World, a: Leases.Acquisition, b: Leases.Acquisition)
    requires Leases.WritersSound(w) && Leases.Wrote(w, a) && Leases.Wrote(w, b) && a.conn == b.conn
    ensures a == b
  {
    var i :| 0 <= i < |w.committed| && w.committed[i] == a;
    var j :| 0 <= j < |w.committed| && w.committed[j] == b;
  }

  /** No row since `from` is of the market under the token. */
  ghost predicate NoRowSince(fills: seq<FillRow>, from: nat, market: Market, token: nat) {
    forall i | from <= i < |fills| :: !(fills[i].market == market && fills[i].token <= token)
  }

  /**
    Once a successor's acquisition has committed, no transaction a superseded process sends ever
    writes a row again, over any run and whatever that process still believes.
   */
  lemma {:induction false} SupersededWritesNothing(s: System, steps: seq<Step>, own: Leases.Acquisition)
    requires Fenceful(s) && Possible(s, steps)
    requires Leases.Wrote(s.world, own) && own.market in s.world.tokens && own.token < s.world.tokens[own.market]
    ensures |s.ledger.fills| <= |RunFrom(s, steps).ledger.fills|
    ensures NoRowSince(RunFrom(s, steps).ledger.fills, |s.ledger.fills|, own.market, own.token)
    decreases |steps|
  {
    hide Fenceful, Enabled, After, Leases.Wrote;
    if steps != [] {
      var next := After(s, steps[0]);
      StepKeepsFencing(s, steps[0]);
      StepAddsCurrentRows(s, steps[0], own);
      SupersededWritesNothing(next, steps[1..], own);
      PrefixOfRun(next, steps[1..]);
      var end := RunFrom(next, steps[1..]);
      forall i | |s.ledger.fills| <= i < |end.ledger.fills|
        ensures !(end.ledger.fills[i].market == own.market && end.ledger.fills[i].token <= own.token)
      {
        if i < |next.ledger.fills| {
          assert end.ledger.fills[i] == next.ledger.fills[i];
        }
      }
    }
  }

  lemma LedgerFills(s: System, step: Step)
    requires Enabled(s, step)
    ensures |s.ledger.fills| <= |After(s, step).ledger.fills|
            && After(s, step).ledger.fills[..|s.ledger.fills|] == s.ledger.fills
  {
    hide Apply, Leases.After, Leases.Enabled;
    match step
    case Lease(x) =>
      if x.Commit? {
        CommitterKnown(s.world, x);
        AnyoneAddsNoRow(s.ledger, Acquires(s.world.conns[x.conn].market));
      }
    case Leader(_, token, market, c) => SentRows(s.ledger, c, market, token);
    case Anyone(c) => AnyoneAddsNoRow(s.ledger, c);
  }

  lemma StepAddsCurrentRows(s: System, step: Step, own: Leases.Acquisition)
    requires Fenceful(s) && Enabled(s, step)
    requires Leases.Wrote(s.world, own) && own.market in s.world.tokens && own.token < s.world.tokens[own.market]
    ensures |s.ledger.fills| <= |After(s, step).ledger.fills|
    ensures NoRowSince(After(s, step).ledger.fills, |s.ledger.fills|, own.market, own.token)
    ensures Leases.Wrote(After(s, step).world, own) && own.market in After(s, step).world.tokens
            && own.token < After(s, step).world.tokens[own.market]
  {
    LedgerFills(s, step);
    match step
    case Lease(x) =>
      hide Leases.TokensSound, Leases.LocksSound, Leases.WritersSound, Leases.LeasesSound, Leases.After, Leases.Wrote,
           RowsByLeaders, TokensOrdered;
      Leases.StepKeepsTokens(s.world, x);
      LeaseTokens(s, x);
    case Leader(_, _, _, c) =>
      hide Leases.Sound, RowsByLeaders, TokensOrdered, Apply;
      StepProgress(s.ledger, c);
    case Anyone(c) =>
      hide Leases.Sound, RowsByLeaders, TokensOrdered, Apply;
      AnyoneAddsNoRow(s.ledger, c);
  }

  lemma {:induction false} PrefixOfRun(s: System, steps: seq<Step>)
    requires Possible(s, steps)
    ensures |s.ledger.fills| <= |RunFrom(s, steps).ledger.fills|
            && RunFrom(s, steps).ledger.fills[..|s.ledger.fills|] == s.ledger.fills
    decreases |steps|
  {
    hide Enabled, After;
    if steps != [] {
      var next := After(s, steps[0]);
      LedgerFills(s, steps[0]);
      PrefixOfRun(next, steps[1..]);
      var end := RunFrom(next, steps[1..]);
      assert end.ledger.fills[..|s.ledger.fills|] == end.ledger.fills[..|next.ledger.fills|][..|s.ledger.fills|];
    }
  }
}
