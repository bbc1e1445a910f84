/**
  The lock-order guard of one transaction, and what it buys globally: whatever transactions run,
  each checked only by its own guard, they can wait for one another in a circle only over a row
  and a unique-key claim that share a place in the order.
 */
module LockOrder {
  import opened Types
  import opened LockKeys

  // ---- The order ----

  datatype Table =
    | ANONYMOUS_SESSIONS
    | IDEMPOTENCY_REQUESTS
    | WALLETS
    | POSITIONS
    | OCO_GROUPS
    | ORDERS
    | RESERVATIONS
    | OUTBOX_EVENTS
    | UNRANKED(name: string)

  function Rank(table: Table): Result<nat> {
    match table
    case ANONYMOUS_SESSIONS => Ok(0)
    case IDEMPOTENCY_REQUESTS => Ok(1)
    case WALLETS => Ok(2)
    case POSITIONS => Ok(3)
    case OCO_GROUPS => Ok(4)
    case ORDERS => Ok(5)
    case RESERVATIONS => Ok(6)
    case OUTBOX_EVENTS => Ok(7)
    case UNRANKED(_) => Err(INVARIANT_VIOLATION)
  }

  /** The unique indexes a statement may claim, and every other one. */
  datatype Index = REQUEST_KEY | OCO_WINNER | STREAM_SEQUENCE | UNCLAIMED(name: string)

  predicate Claims(index: Index, table: Table) {
    match index
    case REQUEST_KEY => table == IDEMPOTENCY_REQUESTS
    case OCO_WINNER => table == ORDERS
    case STREAM_SEQUENCE => table == OUTBOX_EVENTS
    case UNCLAIMED(_) => false
  }

  datatype Strength = KEY_SHARE | NO_KEY_UPDATE | UPDATE

  function StrengthRank(s: Strength): nat {
    match s
    case KEY_SHARE => 0
    case NO_KEY_UPDATE => 1
    case UPDATE => 2
  }

  /** Row locks that make one holder wait for the other. */
  predicate StrengthsConflict(a: Strength, b: Strength) {
    StrengthRank(a) + StrengthRank(b) >= 2
  }

  /** A lock for update goes with no other; two updates of no key do not go together; shared locks go with both. */
  lemma StrengthsConflictExactly(a: Strength, b: Strength)
    ensures StrengthsConflict(a, b) <==> a == UPDATE || b == UPDATE || (a == NO_KEY_UPDATE && b == NO_KEY_UPDATE)
  {
  }

  /** A place in the order. */
  datatype Slot = Slot(rank: nat, key: string)

  predicate Before(a: Slot, b: Slot) {
    a.rank < b.rank || (a.rank == b.rank && KeyLess(a.key, b.key))
  }

  predicate AtMost(a: Slot, b: Slot) {
    a == b || Before(a, b)
  }

  lemma AtMostTransitive(a: Slot, b: Slot, c: Slot)
    requires AtMost(a, b) && AtMost(b, c)
    ensures AtMost(a, c)
  {
    if a != b && b != c && a.rank == b.rank == c.rank {
      KeyLessTransitive(a.key, b.key, c.key);
    }
  }

  lemma AtMostTotal(a: Slot, b: Slot)
    ensures AtMost(a, b) || AtMost(b, a)
    ensures AtMost(a, b) && AtMost(b, a) ==> a == b
    ensures Before(a, b) <==> !AtMost(b, a)
  {
    KeyLessTrichotomy(a.key, b.key);
  }

  // ---- The guard ----

  datatype Resource = Row(slot: Slot) | Claim(slot: Slot)

  datatype Request =
    | LockRow(table: Table, key: string, strength: Strength)
    | ClaimKey(table: Table, key: string, index: Index)

  datatype Guard = Guard(held: map<Slot, Strength>, claimed: set<Slot>, last: Option<Slot>)

  const NO_LOCKS := Guard(map[], {}, None)

  /** What a declaration leads to: the guard after it, and the resource the statement then takes, if any. */
  datatype Admission = Admission(guard: Guard, taken: Option<Resource>)

  function Advance(g: Guard, slot: Slot): Result<Guard> {
    if g.last.Some? && Before(slot, g.last.value) then Err(INVARIANT_VIOLATION)
    else Ok(g.(last := Some(slot)))
  }

  /** `acquireLock` and `claimUniqueKey`. */
  function Admit(g: Guard, q: Request): Result<Admission> {
    var rank :- Rank(q.table);
    var slot := Slot(rank, q.key);
    match q
    case LockRow(_, _, strength) =>
      if slot in g.held then
        var _ :- Check(StrengthRank(g.held[slot]) >= StrengthRank(strength), INVARIANT_VIOLATION);
        Ok(Admission(g, None))
      else
        var next :- Advance(g, slot);
        Ok(Admission(next.(held := next.held[slot := strength]), Some(Row(slot))))
    case ClaimKey(table, _, index) =>
      var _ :- Check(Claims(index, table), INVARIANT_VIOLATION);
      if slot in g.claimed then Ok(Admission(g, None))
      else
        var next :- Advance(g, slot);
        Ok(Admission(next.(claimed := next.claimed + {slot}), Some(Claim(slot))))
  }

  class LockOrderGuard {
    var held: map<Slot, Strength>
    var claimed: set<Slot>
    var last: Option<Slot>

    function State(): Guard
      reads this
    {
      Guard(held, claimed, last)
    }

    constructor ()
      ensures State() == NO_LOCKS
    {
      held, claimed, last := map[], {}, None;
    }

    method RefuseIfBackwards(slot: Slot) returns (r: Result<()>)
      modifies this`last
      ensures r.Ok? ==> Advance(old(State()), slot) == Ok(State())
      ensures r.Err? ==> Advance(old(State()), slot) == Err(r.code) && State() == old(State())
    {
      if last.Some? && Before(slot, last.value) {
        return Err(INVARIANT_VIOLATION);
      }
      last := Some(slot);
      r := Ok(());
    }

    /** Returns the row lock the statement takes, None when it is already held. */
    method AcquireLock(table: Table, key: string, strength: Strength) returns (r: Result<Option<Resource>>)
      modifies this
      ensures var spec := Admit(old(State()), LockRow(table, key, strength));
              && (spec.Ok? ==> r == Ok(spec.value.taken) && State() == spec.value.guard)
              && (spec.Err? ==> r == Err(spec.code) && State() == old(State()))
    {
      var rank :- Rank(table);
      var slot := Slot(rank, key);
      if slot in held {
        if StrengthRank(held[slot]) >= StrengthRank(strength) {
          return Ok(None);
        }
        return Err(INVARIANT_VIOLATION);
      }
      var forward := RefuseIfBackwards(slot);
      if forward.Err? {
        return Err(forward.code);
      }
      held := held[slot := strength];
      r := Ok(Some(Row(slot)));
    }

    /** Returns the index entry the statement claims, None when it is already claimed. */
    method ClaimUniqueKey(table: Table, key: string, index: Index) returns (r: Result<Option<Resource>>)
      modifies this
      ensures var spec := Admit(old(State()), ClaimKey(table, key, index));
              && (spec.Ok? ==> r == Ok(spec.value.taken) && State() == spec.value.guard)
              && (spec.Err? ==> r == Err(spec.code) && State() == old(State()))
    {
      var rank :- Rank(table);
      if !Claims(index, table) {
        return Err(INVARIANT_VIOLATION);
      }
      var slot := Slot(rank, key);
      if slot in claimed {
        return Ok(None);
      }
      var forward := RefuseIfBackwards(slot);
      if forward.Err? {
        return Err(forward.code);
      }
      claimed := claimed + {slot};
      r := Ok(Some(Claim(slot)));
    }
  }

  // ---- What one guard lets through ----

  /** The tables in the order a transaction may lock their rows. */
  const LEDGER_LOCK_ORDER: seq<Table> :=
    [ANONYMOUS_SESSIONS, IDEMPOTENCY_REQUESTS, WALLETS, POSITIONS, OCO_GROUPS, ORDERS, RESERVATIONS, OUTBOX_EVENTS]

  /** A table's rank is its place in that list; a table that is not on it has none. */
  lemma RankIsPlace(table: Table)
    ensures forall i: nat :: Rank(table) == Ok(i) <==> i < |LEDGER_LOCK_ORDER| && LEDGER_LOCK_ORDER[i] == table
    ensures table !in LEDGER_LOCK_ORDER <==> Rank(table) == Err(INVARIANT_VIOLATION)
  {
    assert forall i: nat | i < |LEDGER_LOCK_ORDER| :: Rank(LEDGER_LOCK_ORDER[i]) == Ok(i);
    if table !in LEDGER_LOCK_ORDER {
      assert table.UNRANKED? by {
        assert forall i: nat | i < |LEDGER_LOCK_ORDER| :: LEDGER_LOCK_ORDER[i] != table;
        assert LEDGER_LOCK_ORDER[0] != table && LEDGER_LOCK_ORDER[1] != table && LEDGER_LOCK_ORDER[2] != table;
        assert LEDGER_LOCK_ORDER[3] != table && LEDGER_LOCK_ORDER[4] != table && LEDGER_LOCK_ORDER[5] != table;
        assert LEDGER_LOCK_ORDER[6] != table && LEDGER_LOCK_ORDER[7] != table;
      }
    }
  }

  /** An earlier table, or the same table and a key that sorts before. */
  predicate GoesBack(g: Guard, i: nat, key: string) {
    g.last.Some? && (i < g.last.value.rank || (i == g.last.value.rank && KeyLess(key, g.last.value.key)))
  }

  predicate Stronger(a: Strength, b: Strength) {
    (a == UPDATE && b != UPDATE) || (a == NO_KEY_UPDATE && b == KEY_SHARE)
  }

  /**
    A row lock is refused exactly for a table without a place, for a row already held with a weaker
    lock, and for a row not held whose place lies before the last one; it is taken exactly when it is
    neither held nor refused, and the guard then stands at its place.
   */
  lemma RowLockExactly(g: Guard, i: nat, key: string, strength: Strength)
    requires i < |LEDGER_LOCK_ORDER|
    ensures var slot, r := Slot(i, key), Admit(g, LockRow(LEDGER_LOCK_ORDER[i], key, strength));
            && (r.Err? <==> if slot in g.held then Stronger(strength, g.held[slot]) else GoesBack(g, i, key))
            && (r.Ok? ==>
                  && (slot in g.held ==> r.value == Admission(g, None))
                  && (slot !in g.held ==>
                        && r.value.taken == Some(Row(slot)) && r.value.guard.last == Some(slot)
                        && r.value.guard.held == g.held[slot := strength] && r.value.guard.claimed == g.claimed))
  {
    RankIsPlace(LEDGER_LOCK_ORDER[i]);
  }

  /** The index a table's claims go to, for the three tables that have one. */
  function ClaimedIndex(table: Table): Option<Index> {
    if table == IDEMPOTENCY_REQUESTS then Some(REQUEST_KEY)
    else if table == ORDERS then Some(OCO_WINNER)
    else if table == OUTBOX_EVENTS then Some(STREAM_SEQUENCE)
    else None
  }

  /**
    A claim is refused exactly for another index than its table's, or for a key not claimed that lies
    before the last place.
   */
  lemma ClaimExactly(g: Guard, i: nat, key: string, index: Index)
    requires i < |LEDGER_LOCK_ORDER|
    ensures var slot, r := Slot(i, key), Admit(g, ClaimKey(LEDGER_LOCK_ORDER[i], key, index));
            && (r.Err? <==> ClaimedIndex(LEDGER_LOCK_ORDER[i]) != Some(index)
                            || (slot !in g.claimed && GoesBack(g, i, key)))
            && (r.Ok? ==>
                  && (slot in g.claimed ==> r.value == Admission(g, None))
                  && (slot !in g.claimed ==>
                        && r.value.taken == Some(Claim(slot)) && r.value.guard.last == Some(slot)
                        && r.value.guard.held == g.held && r.value.guard.claimed == g.claimed + {slot}))
  {
    RankIsPlace(LEDGER_LOCK_ORDER[i]);
  }

  // ---- Transactions together ----

  type TxnId = nat

  /** An open transaction: what its guard has let through, and the resource it is waiting to be given. */
  datatype Txn = Txn(guard: Guard, pending: Option<Resource>)

  type System = map<TxnId, Txn>

  predicate Declared(g: Guard, r: Resource) {
    match r
    case Row(slot) => slot in g.held
    case Claim(slot) => slot in g.claimed
  }

  /** The resource is really held: declared, and given. */
  predicate Has(x: Txn, r: Resource) {
    Declared(x.guard, r) && x.pending != Some(r)
  }

  /** Two transactions cannot have the resource together; a claim is exclusive. */
  predicate Conflict(x: Txn, y: Txn, r: Resource)
    requires Declared(x.guard, r) && Declared(y.guard, r)
  {
    r.Claim? || StrengthsConflict(x.guard.held[r.slot], y.guard.held[r.slot])
  }

  /** `t` waits for `u`: it asked for something `u` has. */
  predicate WaitsFor(s: System, t: TxnId, u: TxnId) {
    && t in s && u in s && t != u && s[t].pending.Some?
    && Declared(s[t].guard, s[t].pending.value) && Has(s[u], s[t].pending.value)
    && Conflict(s[t], s[u], s[t].pending.value)
  }

  datatype Step = Begin(txn: TxnId) | Declare(txn: TxnId, request: Request) | Grant(txn: TxnId) | End(txn: TxnId)

  ghost predicate Enabled(s: System, step: Step) {
    match step
    case Begin(t) => t !in s
    case Declare(t, _) => t in s && s[t].pending.None?
    case Grant(t) => t in s && s[t].pending.Some? && forall u :: !WaitsFor(s, t, u)
    case End(t) => t in s
  }

  /** A refused declaration takes nothing; a commit or an abort, even while waiting, gives everything back. */
  function After(s: System, step: Step): System {
    match step
    case Begin(t) => s[t := Txn(NO_LOCKS, None)]
    case Declare(t, q) =>
      if t !in s || Admit(s[t].guard, q).Err? then s
      else s[t := Txn(Admit(s[t].guard, q).value.guard, Admit(s[t].guard, q).value.taken)]
    case Grant(t) => if t in s then s[t := s[t].(pending := None)] else s
    case End(t) => s - {t}
  }

  // ---- What every reachable state keeps ----

  /** Everything a guard let through is at most its last slot, and that is where a wait is. */
  predicate Ordered(x: Txn) {
    && (forall slot | slot in x.guard.held :: x.guard.last.Some? && AtMost(slot, x.guard.last.value))
    && (forall slot | slot in x.guard.claimed :: x.guard.last.Some? && AtMost(slot, x.guard.last.value))
    && (x.pending.Some? ==> Declared(x.guard, x.pending.value) && x.guard.last == Some(x.pending.value.slot))
  }

  ghost predicate AllOrdered(s: System) {
    forall t | t in s :: Ordered(s[t])
  }

  /** Nothing is held by two transactions that conflict over it. */
  ghost predicate Exclusive(s: System) {
    forall t, u, r | t in s && u in s && t != u && Has(s[t], r) && Has(s[u], r) :: !Conflict(s[t], s[u], r)
  }

  lemma AdmitKeepsOrder(g: Guard, q: Request)
    requires Ordered(Txn(g, None)) && Admit(g, q).Ok?
    ensures Ordered(Txn(Admit(g, q).value.guard, Admit(g, q).value.taken))
    ensures forall r :: Declared(g, r) ==> Declared(Admit(g, q).value.guard, r)
    ensures forall slot | slot in g.held :: Admit(g, q).value.guard.held[slot] == g.held[slot]
    ensures forall r | Declared(Admit(g, q).value.guard, r) :: Declared(g, r) || Admit(g, q).value.taken == Some(r)
  {
    var after := Admit(g, q).value;
    if after.taken.Some? {
      var slot := after.taken.value.slot;
      hide Admit;
      forall before | before in g.held || before in g.claimed ensures AtMost(before, slot) {
        AtMostTotal(slot, g.last.value);
        AtMostTransitive(before, g.last.value, slot);
      }
    }
  }

  lemma StepKeepsOrder(s: System, step: Step)
    requires AllOrdered(s) && Enabled(s, step)
    ensures AllOrdered(After(s, step))
  {
    if step.Declare? && Admit(s[step.txn].guard, step.request).Ok? {
      assert Ordered(s[step.txn]);
      AdmitKeepsOrder(s[step.txn].guard, step.request);
      hide Admit, Ordered;
    }
  }

  lemma StepKeepsExclusive(s: System, step: Step)
    requires AllOrdered(s) && Exclusive(s) && Enabled(s, step)
    ensures Exclusive(After(s, step))
  {
    var after := After(s, step);
    if step.Declare? && Admit(s[step.txn].guard, step.request).Ok? {
      assert Ordered(s[step.txn]);
      AdmitKeepsOrder(s[step.txn].guard, step.request);
      hide Admit, Ordered;
      forall t, u, r | t in after && u in after && t != u && Has(after[t], r) && Has(after[u], r)
        ensures !Conflict(after[t], after[u], r)
      {
        assert Has(s[t], r) && Has(s[u], r);
      }
    } else if step.Grant? {
      hide Ordered;
      forall t, u, r | t in after && u in after && t != u && Has(after[t], r) && Has(after[u], r)
        ensures !Conflict(after[t], after[u], r)
      {
        if t == step.txn && s[t].pending == Some(r) {
          assert !WaitsFor(s, t, u);
        } else if u == step.txn && s[u].pending == Some(r) {
          assert !WaitsFor(s, u, t);
        } else {
          assert Has(s[t], r) && Has(s[u], r);
        }
      }
    }
  }

  // ---- Cycles ----

  /** A circle of waits, back to where it began. */
  ghost predicate Cycle(s: System, c: seq<TxnId>) {
    && |c| >= 2 && c[0] == c[|c| - 1]
    && forall i, j | 0 <= i && j == i + 1 && j < |c| :: WaitsFor(s, c[i], c[j])
  }

  function WaitSlot(s: System, t: TxnId): Slot
    requires t in s && s[t].pending.Some?
  {
    s[t].pending.value.slot
  }

  /** Who is waited for and waits itself, waits at the same place or further on. */
  lemma WaitsGoForward(s: System, t: TxnId, u: TxnId)
    requires AllOrdered(s) && WaitsFor(s, t, u) && s[u].pending.Some?
    ensures AtMost(WaitSlot(s, t), WaitSlot(s, u))
  {
    assert Ordered(s[u]);
  }

  lemma CycleWaits(s: System, c: seq<TxnId>, k: nat)
    requires Cycle(s, c) && k < |c|
    ensures c[k] in s && s[c[k]].pending.Some?
  {
    if k + 1 < |c| {
      assert WaitsFor(s, c[k], c[k + 1]);
    } else {
      assert WaitsFor(s, c[0], c[1]);
    }
  }

  lemma {:induction false} CycleGoesForward(s: System, c: seq<TxnId>, i: nat, j: nat)
    requires AllOrdered(s) && Cycle(s, c) && i <= j < |c|
    ensures c[i] in s && s[c[i]].pending.Some? && c[j] in s && s[c[j]].pending.Some?
    ensures AtMost(WaitSlot(s, c[i]), WaitSlot(s, c[j]))
    decreases j - i
  {
    hide AllOrdered, AtMost;
    CycleWaits(s, c, i);
    CycleWaits(s, c, j);
    if i < j {
      CycleWaits(s, c, i + 1);
      assert WaitsFor(s, c[i], c[i + 1]);
      hide Cycle, WaitsFor;
      WaitsGoForward(s, c[i], c[i + 1]);
      CycleGoesForward(s, c, i + 1, j);
      AtMostTransitive(WaitSlot(s, c[i]), WaitSlot(s, c[i + 1]), WaitSlot(s, c[j]));
    } else {
      AtMostTotal(WaitSlot(s, c[i]), WaitSlot(s, c[j]));
    }
  }

  /** All waits of a cycle are at one place of the order. */
  lemma CycleStandsStill(s: System, c: seq<TxnId>, i: nat)
    requires AllOrdered(s) && Cycle(s, c) && i < |c|
    ensures c[0] in s && s[c[0]].pending.Some? && c[i] in s && s[c[i]].pending.Some?
    ensures WaitSlot(s, c[i]) == WaitSlot(s, c[0])
  {
    CycleGoesForward(s, c, 0, i);
    CycleGoesForward(s, c, i, |c| - 1);
    AtMostTotal(WaitSlot(s, c[0]), WaitSlot(s, c[i]));
  }

  /** `t` has claimed a slot and waits for its row, `u` has the row and waits for the claim. */
  predicate OppositeTie(s: System, t: TxnId, u: TxnId) {
    && WaitsFor(s, t, u) && WaitsFor(s, u, t)
    && s[t].pending.value.Row? && s[u].pending.value == Claim(s[t].pending.value.slot)
  }

  /** Three waits in a row at one place, the first for a claim, close on the last two. */
  lemma TieAmong(s: System, t: TxnId, u: TxnId, w: TxnId)
    requires WaitsFor(s, t, u) && WaitsFor(s, u, w) && s[w].pending.Some?
    requires WaitSlot(s, t) == WaitSlot(s, u) == WaitSlot(s, w) && s[t].pending.value.Claim?
    requires AllOrdered(s)
    ensures OppositeTie(s, u, w)
  {
    assert Ordered(s[w]);
  }

  lemma CycleHasTie(s: System, c: seq<TxnId>) returns (t: TxnId, u: TxnId)
    requires AllOrdered(s) && Cycle(s, c)
    ensures OppositeTie(s, t, u)
  {
    assert WaitsFor(s, c[0], c[1]);
    assert |c| > 2;
    assert WaitsFor(s, c[1], c[2]);
    var fourth := if |c| > 3 then 3 else 1;
    assert WaitsFor(s, c[2], c[fourth]);
    CycleStandsStill(s, c, 1);
    CycleStandsStill(s, c, 2);
    CycleStandsStill(s, c, fourth);
    t, u := TieAmongFour(s, c[0], c[1], c[2], c[fourth]);
  }

  lemma TieAmongFour(s: System, a: TxnId, b: TxnId, c: TxnId, d: TxnId) returns (t: TxnId, u: TxnId)
    requires AllOrdered(s) && WaitsFor(s, a, b) && WaitsFor(s, b, c) && WaitsFor(s, c, d) && s[d].pending.Some?
    requires WaitSlot(s, a) == WaitSlot(s, b) == WaitSlot(s, c) == WaitSlot(s, d)
    ensures OppositeTie(s, t, u)
  {
    if s[a].pending.value.Claim? {
      TieAmong(s, a, b, c);
      t, u := b, c;
    } else {
      assert s[b].pending.value.Claim? by {
        assert Ordered(s[b]);
      }
      TieAmong(s, b, c, d);
      t, u := c, d;
    }
  }

  lemma TieIsCycle(s: System, t: TxnId, u: TxnId)
    requires OppositeTie(s, t, u)
    ensures Cycle(s, [t, u, t])
  {
  }

  /**
    Transactions that pass their own guards deadlock exactly when two of them have taken a row and
    a claim at one place of the order in opposite directions.
   */
  lemma DeadlockExactlyOnOppositeTie(s: System)
    requires AllOrdered(s)
    ensures (exists c :: Cycle(s, c)) <==> (exists t: TxnId, u: TxnId :: OppositeTie(s, t, u))
  {
    if c :| Cycle(s, c) {
      var t, u := CycleHasTie(s, c);
    }
    if t: TxnId, u: TxnId :| OppositeTie(s, t, u) {
      TieIsCycle(s, t, u);
    }
  }

  // ---- A fixed order of row and claim ----

  /** At every place, either claims always come before the row or always after it. */
  predicate InFixedOrder(claimFirst: set<Slot>, g: Guard, q: Request) {
    Rank(q.table).Ok? ==>
      var slot := Slot(Rank(q.table).value, q.key);
      && (q.LockRow? && slot !in g.held && slot in g.claimed ==> slot in claimFirst)
      && (q.ClaimKey? && slot !in g.claimed && slot in g.held ==> slot !in claimFirst)
  }

  predicate Conforms(claimFirst: set<Slot>, s: System, step: Step) {
    step.Declare? && step.txn in s ==> InFixedOrder(claimFirst, s[step.txn].guard, step.request)
  }

  ghost predicate TiesFixed(claimFirst: set<Slot>, s: System) {
    forall t | t in s && s[t].pending.Some? ::
      match s[t].pending.value
      case Row(slot) => slot in s[t].guard.claimed ==> slot in claimFirst
      case Claim(slot) => slot in s[t].guard.held ==> slot !in claimFirst
  }

  lemma StepKeepsTies(claimFirst: set<Slot>, s: System, step: Step)
    requires TiesFixed(claimFirst, s) && Enabled(s, step) && Conforms(claimFirst, s, step)
    ensures TiesFixed(claimFirst, After(s, step))
  {
  }

  ghost predicate Sound(claimFirst: set<Slot>, s: System) {
    AllOrdered(s) && Exclusive(s) && TiesFixed(claimFirst, s)
  }

  function RunFrom(s: System, steps: seq<Step>): System
    decreases |steps|
  {
    if steps == [] then s else RunFrom(After(s, steps[0]), steps[1..])
  }

  /** A possible run: every step enabled, every declaration in the fixed order. */
  ghost predicate Possible(claimFirst: set<Slot>, s: System, steps: seq<Step>)
    decreases |steps|
  {
    steps != [] ==>
      Enabled(s, steps[0]) && Conforms(claimFirst, s, steps[0]) && Possible(claimFirst, After(s, steps[0]), steps[1..])
  }

  lemma {:induction false} RunKeepsSound(claimFirst: set<Slot>, s: System, steps: seq<Step>)
    requires Sound(claimFirst, s) && Possible(claimFirst, s, steps)
    ensures Sound(claimFirst, RunFrom(s, steps))
    decreases |steps|
  {
    hide AllOrdered, Exclusive, TiesFixed, After, Enabled, Conforms;
    if steps != [] {
      StepKeepsOrder(s, steps[0]);
      StepKeepsExclusive(s, steps[0]);
      StepKeepsTies(claimFirst, s, steps[0]);
      RunKeepsSound(claimFirst, After(s, steps[0]), steps[1..]);
    }
  }

  lemma NoOppositeTie(claimFirst: set<Slot>, s: System, t: TxnId, u: TxnId)
    requires TiesFixed(claimFirst, s)
    ensures !OppositeTie(s, t, u)
  {
  }

  /** Deadlock freedom: in no state any number of guarded transactions can reach is there a circle of waits. */
  lemma DeadlockFree(claimFirst: set<Slot>, steps: seq<Step>, c: seq<TxnId>)
    requires Possible(claimFirst, map[], steps)
    ensures !Cycle(RunFrom(map[], steps), c)
  {
    RunKeepsSound(claimFirst, map[], steps);
    var s := RunFrom(map[], steps);
    if Cycle(s, c) {
      var t, u := CycleHasTie(s, c);
      NoOppositeTie(claimFirst, s, t, u);
    }
  }

  // ---- Progress ----

  /** Everyone the transaction waits for is running. */
  ghost predicate OnlyRunningAhead(s: System, t: TxnId) {
    t in s && s[t].pending.Some? && forall u | WaitsFor(s, t, u) :: s[u].pending.None?
  }

  lemma {:induction false} FurthestWait(s: System, waiting: set<TxnId>) returns (t: TxnId)
    requires waiting != {} && forall u | u in waiting :: u in s && s[u].pending.Some?
    ensures t in waiting && forall u | u in waiting :: AtMost(WaitSlot(s, u), WaitSlot(s, t))
    decreases |waiting|
  {
    var x :| x in waiting;
    if waiting == {x} {
      t := x;
    } else {
      var y := FurthestWait(s, waiting - {x});
      AtMostTotal(WaitSlot(s, x), WaitSlot(s, y));
      t := if AtMost(WaitSlot(s, x), WaitSlot(s, y)) then y else x;
      forall u | u in waiting ensures AtMost(WaitSlot(s, u), WaitSlot(s, t)) {
        if u != x {
          AtMostTransitive(WaitSlot(s, u), WaitSlot(s, y), WaitSlot(s, t));
        }
      }
    }
  }

  ghost predicate Furthest(s: System, t: TxnId) {
    t in s && s[t].pending.Some? && forall u | u in s && s[u].pending.Some? :: AtMost(WaitSlot(s, u), WaitSlot(s, t))
  }

  lemma SamePlace(s: System, t: TxnId, u: TxnId, furthest: TxnId)
    requires AllOrdered(s) && WaitsFor(s, t, u) && s[u].pending.Some?
    requires Furthest(s, furthest) && WaitSlot(s, t) == WaitSlot(s, furthest)
    ensures WaitSlot(s, u) == WaitSlot(s, furthest)
  {
    WaitsGoForward(s, t, u);
    AtMostTotal(WaitSlot(s, t), WaitSlot(s, u));
  }

  lemma LastOfTwo(claimFirst: set<Slot>, s: System, t: TxnId, u: TxnId)
    requires Sound(claimFirst, s) && Furthest(s, t)
    requires WaitsFor(s, t, u) && s[u].pending.Some? && WaitSlot(s, t) == WaitSlot(s, u)
    ensures OnlyRunningAhead(s, u)
  {
    forall w | WaitsFor(s, u, w) ensures s[w].pending.None? {
      if s[w].pending.Some? {
        SamePlace(s, u, w, t);
        assert false;
      }
    }
  }

  /** While anyone waits, someone waits only for transactions that are running. */
  lemma SomeoneCanMove(claimFirst: set<Slot>, s: System) returns (t: TxnId)
    requires Sound(claimFirst, s) && exists u :: u in s && s[u].pending.Some?
    ensures OnlyRunningAhead(s, t)
  {
    var waiting := set u | u in s && s[u].pending.Some?;
    var any :| any in s && s[any].pending.Some?;
    assert any in waiting;
    t := FurthestWait(s, waiting);
    var first := t;
    assert Furthest(s, first);
    if !OnlyRunningAhead(s, first) {
      t :| WaitsFor(s, first, t) && s[t].pending.Some?;
      SamePlace(s, first, t, first);
      LastOfTwo(claimFirst, s, first, t);
    }
  }

  // ---- Why the order of row and claim has to be fixed ----

  const ROW_Q := LockRow(ORDERS, "k", UPDATE)
  const CLAIM_Q := ClaimKey(ORDERS, "k", OCO_WINNER)

  const TAKE_FIRST := [Begin(1), Declare(1, ROW_Q), Grant(1), Begin(2), Declare(2, CLAIM_Q), Grant(2)]
  const TAKE_SECOND := [Declare(1, CLAIM_Q), Declare(2, ROW_Q)]

  lemma {:induction false} RunInParts(s: System, first: seq<Step>, second: seq<Step>)
    ensures RunFrom(s, first + second) == RunFrom(RunFrom(s, first), second)
    decreases |first|
  {
    if first == [] {
      assert first + second == second;
    } else {
      RunInParts(After(s, first[0]), first[1..], second);
      assert (first + second)[1..] == first[1..] + second;
    }
  }

  lemma RunOfTwo(s: System, a: Step, b: Step)
    ensures RunFrom(s, [a, b]) == After(After(s, a), b)
  {
    assert [a, b][1..] == [b];
    assert RunFrom(After(s, a), [b]) == RunFrom(After(After(s, a), b), [b][1..]);
  }

  lemma RunOfThree(s: System, a: Step, b: Step, c: Step)
    ensures RunFrom(s, [a, b, c]) == After(After(After(s, a), b), c)
  {
    assert [a, b, c][1..] == [b, c];
    RunOfTwo(After(s, a), b, c);
  }

  /** Two guards let a row and a claim of one place through in opposite orders, and the transactions deadlock. */
  lemma OppositeOrdersDeadlock()
    ensures Cycle(RunFrom(map[], TAKE_FIRST + TAKE_SECOND), [1, 2, 1])
  {
    var slot := Slot(5, "k");
    KeyLessTrichotomy("k", "k");
    hide KeyLess;
    var one := Txn(Guard(map[slot := UPDATE], {}, Some(slot)), None);
    var two := Txn(Guard(map[], {slot}, Some(slot)), None);
    var taken := map[1 := one, 2 := two];
    FirstTakesRow(slot, one);
    SecondTakesClaim(slot, one, two);
    RunInParts(map[], [Begin(1), Declare(1, ROW_Q), Grant(1)], [Begin(2), Declare(2, CLAIM_Q), Grant(2)]);
    RunInParts(map[], TAKE_FIRST, TAKE_SECOND);
    hide RunFrom;
    assert TAKE_FIRST == [Begin(1), Declare(1, ROW_Q), Grant(1)] + [Begin(2), Declare(2, CLAIM_Q), Grant(2)];
    RunOfTwo(taken, Declare(1, CLAIM_Q), Declare(2, ROW_Q));
    var both := Guard(map[slot := UPDATE], {slot}, Some(slot));
    assert one.guard.claimed + {slot} == {slot};
    assert Admit(one.guard, CLAIM_Q) == Ok(Admission(both, Some(Claim(slot))));
    assert Admit(two.guard, ROW_Q) == Ok(Admission(both, Some(Row(slot))));
    hide Admit;
    var end := map[1 := Txn(both, Some(Claim(slot))), 2 := Txn(both, Some(Row(slot)))];
    assert After(taken, Declare(1, CLAIM_Q)) == map[1 := Txn(both, Some(Claim(slot))), 2 := two];
    assert RunFrom(taken, TAKE_SECOND) == end;
    assert WaitsFor(end, 1, 2) && WaitsFor(end, 2, 1);
    hide After;
  }

  lemma FirstTakesRow(slot: Slot, one: Txn)
    requires slot == Slot(5, "k") && one == Txn(Guard(map[slot := UPDATE], {}, Some(slot)), None)
    ensures RunFrom(map[], [Begin(1), Declare(1, ROW_Q), Grant(1)]) == map[1 := one]
  {
    RunOfThree(map[], Begin(1), Declare(1, ROW_Q), Grant(1));
    hide RunFrom;
    assert After(map[], Begin(1)) == map[1 := Txn(NO_LOCKS, None)];
    assert Admit(NO_LOCKS, ROW_Q) == Ok(Admission(one.guard, Some(Row(slot))));
    assert After(map[1 := Txn(NO_LOCKS, None)], Declare(1, ROW_Q)) == map[1 := one.(pending := Some(Row(slot)))];
    assert After(map[1 := one.(pending := Some(Row(slot)))], Grant(1)) == map[1 := one];
  }

  lemma SecondTakesClaim(slot: Slot, one: Txn, two: Txn)
    requires slot == Slot(5, "k") && two == Txn(Guard(map[], {slot}, Some(slot)), None)
    ensures RunFrom(map[1 := one], [Begin(2), Declare(2, CLAIM_Q), Grant(2)]) == map[1 := one, 2 := two]
  {
    var start := map[1 := one];
    RunOfThree(start, Begin(2), Declare(2, CLAIM_Q), Grant(2));
    hide RunFrom;
    assert After(start, Begin(2)) == map[1 := one, 2 := Txn(NO_LOCKS, None)];
    assert NO_LOCKS.claimed + {slot} == {slot};
    assert Admit(NO_LOCKS, CLAIM_Q) == Ok(Admission(two.guard, Some(Claim(slot))));
    assert After(map[1 := one, 2 := Txn(NO_LOCKS, None)], Declare(2, CLAIM_Q))
        == map[1 := one, 2 := two.(pending := Some(Claim(slot)))];
    assert After(map[1 := one, 2 := two.(pending := Some(Claim(slot)))], Grant(2)) == map[1 := one, 2 := two];
  }
}
