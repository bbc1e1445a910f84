/**
  Fenced leader leases: processes poll for a market's advisory lock, raise its token under it, hold
  or lose the lease, and die at any point.
 */
module Leases {
  import opened Types

  type ConnId = nat

  /** What the process knows of its lease. */
  datatype Phase = Polling | Locked | Upserting | Committed(token: nat) | Held(token: nat) | Lost(token: nat) | Closed

  /** A dedicated connection: what its process knows, and whether its session still exists on the server. */
  datatype Conn = Conn(market: Market, phase: Phase, alive: bool)

  /** An epoch row written: the token, and the connection that wrote it. */
  datatype Acquisition = Acquisition(market: Market, token: nat, conn: ConnId)

  datatype World = World(
    conns: map<ConnId, Conn>,
    locks: map<Market, ConnId>,
    tokens: map<Market, nat>,
    committed: seq<Acquisition>
  )

  datatype Step =
    | Connect(conn: ConnId, market: Market)
    | TryLock(conn: ConnId)
    | Abort(conn: ConnId)          // the abort signal, while polling or just after the lock was got
    | BeginUpsert(conn: ConnId)
    | Commit(conn: ConnId)         // the server commits the epoch row
    | Learn(conn: ConnId)          // the process is told, and holds the lease
    | Fail(conn: ConnId)           // the process is told of a failure instead, true or not
    | Release(conn: ConnId)
    | ServerDrops(conn: ConnId)    // the session ends on the server, and with it its locks
    | Notice(conn: ConnId)         // the process learns of that, whenever its client does
    | CloseLost(conn: ConnId)

  predicate In(w: World, c: ConnId, phase: Phase) {
    c in w.conns && w.conns[c].phase == phase
  }

  /** The phases whose session took the advisory lock and has not given it back. */
  predicate PastPolling(phase: Phase) {
    phase.Locked? || phase.Upserting? || phase.Committed? || phase.Held?
  }

  predicate Holding(conn: Conn) {
    conn.alive && PastPolling(conn.phase)
  }

  predicate Enabled(w: World, step: Step) {
    match step
    case Connect(c, _) => c !in w.conns
    case TryLock(c) => In(w, c, Polling) && w.conns[c].alive
    case Abort(c) => In(w, c, Polling) || In(w, c, Locked)
    case BeginUpsert(c) => In(w, c, Locked)
    case Commit(c) => In(w, c, Upserting) && w.conns[c].alive
    case Learn(c) => c in w.conns && w.conns[c].phase.Committed?
    case Fail(c) => In(w, c, Upserting) || (c in w.conns && w.conns[c].phase.Committed?)
    case Release(c) => c in w.conns && w.conns[c].phase.Held?
    case ServerDrops(c) => c in w.conns && w.conns[c].alive
    case Notice(c) => c in w.conns && !w.conns[c].alive && w.conns[c].phase != Closed
    case CloseLost(c) => c in w.conns && w.conns[c].phase.Lost?
  }

  function Next(w: World, m: Market): nat {
    if m in w.tokens then w.tokens[m] + 1 else 1
  }

  function To(w: World, c: ConnId, phase: Phase): World
    requires c in w.conns
  {
    w.(conns := w.conns[c := w.conns[c].(phase := phase)])
  }

  /** The session ends: its lock, if it has one, is given back. */
  function Drop(w: World, c: ConnId): World
    requires c in w.conns
  {
    var m := w.conns[c].market;
    w.(conns := w.conns[c := w.conns[c].(alive := false)],
       locks := if m in w.locks && w.locks[m] == c then w.locks - {m} else w.locks)
  }

  /** The epoch upsert takes effect. */
  function Raise(w: World, c: ConnId): World
    requires c in w.conns
  {
    var m := w.conns[c].market;
    w.(tokens := w.tokens[m := Next(w, m)], committed := w.committed + [Acquisition(m, Next(w, m), c)])
  }

  /** What a process makes of a dead connection: a loss is reported from HELD only. */
  function Noticed(phase: Phase): Phase {
    match phase
    case Held(t) => Lost(t)
    case Lost(t) => Lost(t)
    case _ => Closed
  }

  function After(w: World, step: Step): World
    requires Enabled(w, step)
  {
    match step
    case Connect(c, m) => w.(conns := w.conns[c := Conn(m, Polling, true)])
    case TryLock(c) =>
      if w.conns[c].market in w.locks then w
      else To(w, c, Locked).(locks := w.locks[w.conns[c].market := c])
    case Abort(c) => To(Drop(w, c), c, Closed)
    case BeginUpsert(c) => To(w, c, Upserting)
    case Commit(c) => To(Raise(w, c), c, Committed(Next(w, w.conns[c].market)))
    case Learn(c) => To(w, c, Held(w.conns[c].phase.token))
    case Fail(c) => To(Drop(w, c), c, Closed)
    case Release(c) => To(Drop(w, c), c, Closed)
    case ServerDrops(c) => Drop(w, c)
    case Notice(c) => To(w, c, Noticed(w.conns[c].phase))
    case CloseLost(c) => To(w, c, Closed)
  }

  // ---- What every reachable state keeps ----

  /** A market's lock is held by one live session, the one past polling; a lost or closed lease has none. */
  ghost predicate LocksSound(w: World) {
    && (forall m | m in w.locks :: w.locks[m] in w.conns && w.conns[w.locks[m]].market == m
                                   && Holding(w.conns[w.locks[m]]))
    && (forall c | c in w.conns && Holding(w.conns[c]) ::
          w.conns[c].market in w.locks && w.locks[w.conns[c].market] == c)
    && (forall c | c in w.conns && (w.conns[c].phase.Lost? || w.conns[c].phase.Closed?) :: !w.conns[c].alive)
  }

  predicate Wrote(w: World, a: Acquisition) {
    a in w.committed
  }

  /** Somebody wrote the market's current token. */
  ghost predicate CurrentWritten(w: World, m: Market)
    requires m in w.tokens
  {
    exists c :: Wrote(w, Acquisition(m, w.tokens[m], c))
  }

  /** Written tokens strictly increase, market by market, up to the current one. */
  ghost predicate TokensOrdered(w: World) {
    && (forall i | 0 <= i < |w.committed| ::
          w.committed[i].market in w.tokens && w.committed[i].token <= w.tokens[w.committed[i].market])
    && (forall i, j | 0 <= i < j < |w.committed| && w.committed[i].market == w.committed[j].market ::
          w.committed[i].token < w.committed[j].token)
  }

  /** And the current one of each market was written by somebody. */
  ghost predicate TokensSound(w: World) {
    TokensOrdered(w) && forall m | m in w.tokens :: CurrentWritten(w, m)
  }

  /** A lease written, whether its process knows, holds it or has lost it. */
  predicate HasLease(w: World, c: ConnId) {
    c in w.conns && (w.conns[c].phase.Committed? || w.conns[c].phase.Held? || w.conns[c].phase.Lost?)
  }

  predicate Current(w: World, c: ConnId)
    requires HasLease(w, c)
  {
    w.conns[c].market in w.tokens && w.tokens[w.conns[c].market] == w.conns[c].phase.token
  }

  /** A lease carries the token its own acquisition wrote, and while its session lives that token is current. */
  ghost predicate LeasesSound(w: World) {
    && (forall c | HasLease(w, c) :: Wrote(w, Acquisition(w.conns[c].market, w.conns[c].phase.token, c)))
    && (forall c | HasLease(w, c) && w.conns[c].alive :: Current(w, c))
  }

  /** A connection writes one token at most, and none before its upsert. */
  ghost predicate WritersSound(w: World) {
    && (forall i | 0 <= i < |w.committed| ::
          w.committed[i].conn in w.conns && w.conns[w.committed[i].conn].phase !in {Polling, Locked, Upserting})
    && (forall i, j | 0 <= i < j < |w.committed| :: w.committed[i].conn != w.committed[j].conn)
  }

  ghost predicate Sound(w: World) {
    LocksSound(w) && TokensSound(w) && WritersSound(w) && LeasesSound(w)
  }

  const NOBODY := World(map[], map[], map[], [])

  /** A connection whose session keeps what it has of the lock. */
  lemma MovingKeepsLocks(w: World, c: ConnId, conn: Conn)
    requires LocksSound(w) && !(conn.alive && (conn.phase.Lost? || conn.phase.Closed?))
    requires if c in w.conns then Holding(conn) == Holding(w.conns[c]) && conn.market == w.conns[c].market
             else !Holding(conn)
    ensures LocksSound(w.(conns := w.conns[c := conn]))
  {
    assert forall m | m in w.locks :: w.locks[m] == c ==> Holding(w.conns[c]);
  }

  /** A connection whose session is gone may be in any phase. */
  lemma DroppingKeepsLocks(w: World, c: ConnId, phase: Phase)
    requires LocksSound(w) && c in w.conns
    ensures LocksSound(To(Drop(w, c), c, phase))
  {
    var m := w.conns[c].market;
    assert forall k | k in w.locks && w.locks[k] == c :: k == m;
  }

  lemma TakingKeepsLocks(w: World, c: ConnId)
    requires LocksSound(w) && In(w, c, Polling) && w.conns[c].alive && w.conns[c].market !in w.locks
    ensures LocksSound(To(w, c, Locked).(locks := w.locks[w.conns[c].market := c]))
  {
    assert forall m | m in w.locks :: w.locks[m] == c ==> Holding(w.conns[c]);
  }

  lemma SameLocks(w: World, after: World)
    requires LocksSound(w) && after.conns == w.conns && after.locks == w.locks
    ensures LocksSound(after)
  {
  }

  lemma ClosedIsDead(w: World, c: ConnId)
    requires LocksSound(w) && c in w.conns && (w.conns[c].phase.Lost? || w.conns[c].phase.Closed?)
    ensures !w.conns[c].alive
  {
  }

  lemma StepKeepsLocks(w: World, step: Step)
    requires LocksSound(w) && Enabled(w, step)
    ensures LocksSound(After(w, step))
  {
    hide LocksSound;
    match step
    case Connect(c, m) => MovingKeepsLocks(w, c, Conn(m, Polling, true));
    case TryLock(c) =>
      if w.conns[c].market !in w.locks {
        TakingKeepsLocks(w, c);
      }
    case Abort(c) => DroppingKeepsLocks(w, c, Closed);
    case BeginUpsert(c) => MovingKeepsLocks(w, c, w.conns[c].(phase := Upserting));
    case Commit(c) =>
      SameLocks(w, Raise(w, c));
      MovingKeepsLocks(Raise(w, c), c, w.conns[c].(phase := Committed(Next(w, w.conns[c].market))));
    case Learn(c) => MovingKeepsLocks(w, c, w.conns[c].(phase := Held(w.conns[c].phase.token)));
    case Fail(c) => DroppingKeepsLocks(w, c, Closed);
    case Release(c) => DroppingKeepsLocks(w, c, Closed);
    case ServerDrops(c) =>
      DroppingKeepsLocks(w, c, w.conns[c].phase);
      assert To(Drop(w, c), c, w.conns[c].phase) == Drop(w, c);
    case Notice(c) => MovingKeepsLocks(w, c, w.conns[c].(phase := Noticed(w.conns[c].phase)));
    case CloseLost(c) =>
      ClosedIsDead(w, c);
      MovingKeepsLocks(w, c, w.conns[c].(phase := Closed));
  }

  lemma RaiseWrites(w: World, c: ConnId)
    requires c in w.conns
    ensures forall a | Wrote(w, a) :: Wrote(Raise(w, c), a)
    ensures Wrote(Raise(w, c), Acquisition(w.conns[c].market, Next(w, w.conns[c].market), c))
  {
    var after := Raise(w, c);
    assert after.committed[|w.committed|] == Acquisition(w.conns[c].market, Next(w, w.conns[c].market), c);
    forall a | Wrote(w, a) ensures Wrote(after, a) {
      var i :| 0 <= i < |w.committed| && w.committed[i] == a;
      assert after.committed[i] == a;
    }
  }

  lemma RaiseOrders(w: World, c: ConnId)
    requires c in w.conns && TokensOrdered(w)
    ensures TokensOrdered(Raise(w, c))
  {
  }

  lemma RaiseKeeps(w: World, c: ConnId)
    requires c in w.conns && TokensSound(w)
    ensures TokensSound(Raise(w, c))
    ensures forall a | Wrote(w, a) :: Wrote(Raise(w, c), a)
    ensures Wrote(Raise(w, c), Acquisition(w.conns[c].market, Next(w, w.conns[c].market), c))
  {
    hide TokensOrdered, Wrote;
    var after := Raise(w, c);
    RaiseWrites(w, c);
    RaiseOrders(w, c);
    forall m | m in after.tokens ensures CurrentWritten(after, m) {
      if m != w.conns[c].market {
        assert CurrentWritten(w, m);
        var d :| Wrote(w, Acquisition(m, w.tokens[m], d));
        assert Wrote(after, Acquisition(m, after.tokens[m], d));
      }
    }
  }

  lemma SameTokens(w: World, after: World)
    requires TokensSound(w) && after.tokens == w.tokens && after.committed == w.committed
    ensures TokensSound(after) && forall a | Wrote(w, a) :: Wrote(after, a)
  {
    forall m | m in after.tokens ensures CurrentWritten(after, m) {
      var d :| Wrote(w, Acquisition(m, w.tokens[m], d));
      assert Wrote(after, Acquisition(m, after.tokens[m], d));
    }
  }

  /** Only a commit touches the tokens, and it raises the one of its market. */
  lemma StepKeepsTokens(w: World, step: Step)
    requires TokensSound(w) && Enabled(w, step)
    ensures TokensSound(After(w, step))
    ensures forall a | Wrote(w, a) :: Wrote(After(w, step), a)
    ensures forall m | m in w.tokens :: m in After(w, step).tokens && w.tokens[m] <= After(w, step).tokens[m]
  {
    hide TokensSound, Wrote;
    if step.Commit? {
      RaiseKeeps(w, step.conn);
      SameTokens(Raise(w, step.conn), After(w, step));
    } else {
      SameTokens(w, After(w, step));
    }
  }

  lemma StepKeepsWriters(w: World, step: Step)
    requires WritersSound(w) && Enabled(w, step)
    ensures WritersSound(After(w, step))
  {
  }

  /** Nobody whose session lives has a lease of a market while somebody else is writing its epoch. */
  lemma WriterIsAlone(w: World, c: ConnId)
    requires LocksSound(w) && In(w, c, Upserting) && w.conns[c].alive
    ensures forall d | HasLease(w, d) && w.conns[d].alive :: w.conns[d].market != w.conns[c].market
  {
    forall d | HasLease(w, d) && w.conns[d].alive ensures w.conns[d].market != w.conns[c].market {
      assert Holding(w.conns[d]) && Holding(w.conns[c]);
    }
  }

  /** A step changes one connection, and gives it a lease only by committing. */
  lemma OneConnMoves(w: World, step: Step)
    requires Enabled(w, step)
    ensures var after := After(w, step);
            && (forall d | d in after.conns && d != step.conn :: d in w.conns && after.conns[d] == w.conns[d])
            && (HasLease(after, step.conn) && !step.Commit? ==>
                  && HasLease(w, step.conn) && after.conns[step.conn].market == w.conns[step.conn].market
                  && after.conns[step.conn].phase.token == w.conns[step.conn].phase.token
                  && (after.conns[step.conn].alive ==> w.conns[step.conn].alive)
                  && after.tokens == w.tokens)
            && (step.Commit? ==>
                  && step.conn in w.conns
                  && after.conns[step.conn]
                     == Conn(w.conns[step.conn].market, Committed(Next(w, w.conns[step.conn].market)), true)
                  && after.tokens == Raise(w, step.conn).tokens && after.committed == Raise(w, step.conn).committed)
            && (!step.Commit? ==> after.tokens == w.tokens)
  {
  }

  /** The other connections' leases, and the lease the moving one already had. */
  lemma OtherLeases(w: World, step: Step, c: ConnId)
    requires Sound(w) && Enabled(w, step) && HasLease(After(w, step), c) && !(step.Commit? && c == step.conn)
    ensures var after := After(w, step);
            Wrote(after, Acquisition(after.conns[c].market, after.conns[c].phase.token, c))
            && (after.conns[c].alive ==> Current(after, c))
  {
    hide LocksSound, TokensSound, After, Enabled, Wrote;
    StepKeepsTokens(w, step);
    OneConnMoves(w, step);
    var after := After(w, step);
    assert HasLease(w, c) && Wrote(w, Acquisition(w.conns[c].market, w.conns[c].phase.token, c));
    if step.Commit? && after.conns[c].alive {
      assert w.conns[c].market != w.conns[step.conn].market by { CommitterAlone(w, step.conn, c); }
    }
  }

  lemma CommitterAlone(w: World, c: ConnId, d: ConnId)
    requires LocksSound(w) && Enabled(w, Commit(c)) && HasLease(w, d) && w.conns[d].alive
    ensures w.conns[d].market != w.conns[c].market
  {
    hide LocksSound;
    WriterIsAlone(w, c);
  }

  lemma StepKeepsLeases(w: World, step: Step)
    requires Sound(w) && Enabled(w, step)
    ensures LeasesSound(After(w, step))
  {
    hide Sound, After, Wrote, Enabled;
    var after := After(w, step);
    OneConnMoves(w, step);
    if step.Commit? {
      assert TokensSound(w) by { SoundTokens(w); }
      CommitWrites(w, step.conn);
    }
    forall c | HasLease(after, c)
      ensures Wrote(after, Acquisition(after.conns[c].market, after.conns[c].phase.token, c))
      ensures after.conns[c].alive ==> Current(after, c)
    {
      if c != step.conn || !step.Commit? {
        OtherLeases(w, step, c);
      }
    }
  }

  lemma SoundTokens(w: World)
    requires Sound(w)
    ensures TokensSound(w)
  {
  }

  lemma CommitWrites(w: World, c: ConnId)
    requires TokensSound(w) && Enabled(w, Commit(c))
    ensures Wrote(After(w, Commit(c)), Acquisition(w.conns[c].market, Next(w, w.conns[c].market), c))
  {
    hide TokensSound, Wrote;
    RaiseKeeps(w, c);
    SameTokens(Raise(w, c), After(w, Commit(c)));
  }

  function RunFrom(w: World, steps: seq<Step>): World
    requires Possible(w, steps)
    decreases |steps|
  {
    if steps == [] then w else RunFrom(After(w, steps[0]), steps[1..])
  }

  predicate Possible(w: World, steps: seq<Step>)
    decreases |steps|
  {
    steps != [] ==> Enabled(w, steps[0]) && Possible(After(w, steps[0]), steps[1..])
  }

  lemma {:induction false} RunKeeps(w: World, steps: seq<Step>)
    requires Sound(w) && Possible(w, steps)
    ensures Sound(RunFrom(w, steps))
    decreases |steps|
  {
    hide LocksSound, TokensSound, WritersSound, LeasesSound, After, Enabled, Wrote;
    if steps != [] {
      StepKeepsWriters(w, steps[0]);
      StepKeepsLocks(w, steps[0]);
      StepKeepsTokens(w, steps[0]);
      StepKeepsLeases(w, steps[0]);
      RunKeeps(After(w, steps[0]), steps[1..]);
    }
  }

  /** A token of a market is written by one connection. */
  lemma TokenHasOneWriter(w: World, a: Acquisition, b: Acquisition)
    requires TokensSound(w) && Wrote(w, a) && Wrote(w, b) && a.market == b.market && a.token == b.token
    ensures a == b
  {
    var i :| 0 <= i < |w.committed| && w.committed[i] == a;
    var j :| 0 <= j < |w.committed| && w.committed[j] == b;
    assert i == j;
  }

  /** In every reachable state no two leases of a market carry the same token. */
  lemma OneCurrentLease(steps: seq<Step>, c: ConnId, d: ConnId)
    requires Possible(NOBODY, steps)
    requires var w := RunFrom(NOBODY, steps);
             HasLease(w, c) && HasLease(w, d) && w.conns[c].market == w.conns[d].market
             && w.conns[c].phase.token == w.conns[d].phase.token
    ensures c == d
  {
    RunKeeps(NOBODY, steps);
    hide RunFrom, Possible, TokensSound, LocksSound;
    var w := RunFrom(NOBODY, steps);
    TokenHasOneWriter(w, Acquisition(w.conns[c].market, w.conns[c].phase.token, c),
                      Acquisition(w.conns[d].market, w.conns[d].phase.token, d));
  }

  /** An acquisition of the market was committed after this one. */
  ghost predicate Superseded(w: World, a: Acquisition) {
    exists i, j :: 0 <= i < j < |w.committed| && w.committed[i] == a && w.committed[j].market == a.market
  }

  /**
    A process that believes it holds a lease is right exactly as long as no later acquisition of its
    market has been committed; while its session lives that is so, and it is the only one.
   */
  lemma HeldIsCurrentExactly(steps: seq<Step>, c: ConnId)
    requires Possible(NOBODY, steps)
    requires var w := RunFrom(NOBODY, steps); c in w.conns && w.conns[c].phase.Held?
    ensures var w := RunFrom(NOBODY, steps);
            && (Current(w, c) <==> !Superseded(w, Acquisition(w.conns[c].market, w.conns[c].phase.token, c)))
            && (w.conns[c].alive ==>
                  Current(w, c)
                  && forall d | HasLease(w, d) && w.conns[d].alive && w.conns[d].market == w.conns[c].market :: d == c)
  {
    RunKeeps(NOBODY, steps);
    hide RunFrom, Possible;
    var w := RunFrom(NOBODY, steps);
    CurrentExactly(w, c);
    forall d | HasLease(w, d) && w.conns[d].alive && w.conns[d].market == w.conns[c].market && w.conns[c].alive
      ensures d == c
    {
      assert Holding(w.conns[d]) && Holding(w.conns[c]);
    }
  }

  lemma SupersededIsPast(w: World, own: Acquisition)
    requires TokensSound(w) && Superseded(w, own)
    ensures own.market in w.tokens && own.token < w.tokens[own.market]
  {
    var k, j :| 0 <= k < j < |w.committed| && w.committed[k] == own && w.committed[j].market == own.market;
    assert w.committed[k].token < w.committed[j].token <= w.tokens[own.market];
  }

  /** The last acquisition of a market wrote its current token. */
  lemma LatestIsCurrent(w: World, own: Acquisition)
    requires TokensSound(w) && Wrote(w, own) && !Superseded(w, own)
    ensures own.market in w.tokens && own.token == w.tokens[own.market]
  {
    var m := own.market;
    var i :| 0 <= i < |w.committed| && w.committed[i] == own;
    assert CurrentWritten(w, m);
    var d :| Wrote(w, Acquisition(m, w.tokens[m], d));
    var j :| 0 <= j < |w.committed| && w.committed[j] == Acquisition(m, w.tokens[m], d);
    assert j <= i;
    assert j >= i;
  }

  lemma CurrentExactly(w: World, c: ConnId)
    requires TokensSound(w) && LeasesSound(w) && HasLease(w, c)
    ensures Current(w, c) <==> !Superseded(w, Acquisition(w.conns[c].market, w.conns[c].phase.token, c))
  {
    hide TokensSound, Superseded;
    var own := Acquisition(w.conns[c].market, w.conns[c].phase.token, c);
    assert Wrote(w, own);
    if Superseded(w, own) {
      SupersededIsPast(w, own);
    } else {
      LatestIsCurrent(w, own);
    }
  }

  // ---- A leader that does not know yet ----

  lemma {:induction false} RunConcat(w: World, first: seq<Step>, rest: seq<Step>)
    requires Possible(w, first) && Possible(RunFrom(w, first), rest)
    ensures Possible(w, first + rest) && RunFrom(w, first + rest) == RunFrom(RunFrom(w, first), rest)
    decreases |first|
  {
    hide Enabled, After;
    if first == [] {
      assert first + rest == rest;
    } else {
      assert (first + rest)[1..] == first[1..] + rest;
      RunConcat(After(w, first[0]), first[1..], rest);
    }
  }

  /** A process that finds the market unlocked. */
  function Acquiring(c: ConnId, m: Market): seq<Step> {
    [Connect(c, m), TryLock(c), BeginUpsert(c), Commit(c), Learn(c)]
  }

  function TakenOver(w: World, c: ConnId, m: Market): World {
    World(w.conns[c := Conn(m, Held(Next(w, m)), true)], w.locks[m := c], w.tokens[m := Next(w, m)],
          w.committed + [Acquisition(m, Next(w, m), c)])
  }

  lemma NextStep(w: World, step: Step, rest: seq<Step>, after: World, end: World)
    requires Enabled(w, step) && After(w, step) == after && Possible(after, rest) && RunFrom(after, rest) == end
    ensures Possible(w, [step] + rest) && RunFrom(w, [step] + rest) == end
  {
    hide Enabled, After;
    assert ([step] + rest)[1..] == rest;
  }

  lemma Overwrite<K, V>(m: map<K, V>, k: K, v: V, v': V)
    ensures m[k := v][k := v'] == m[k := v']
  {
  }

  lemma LockingRuns(w: World, c: ConnId, m: Market, rest: seq<Step>, end: World)
    requires c !in w.conns && m !in w.locks
    requires var w3 := w.(conns := w.conns[c := Conn(m, Upserting, true)], locks := w.locks[m := c]);
             Possible(w3, rest) && RunFrom(w3, rest) == end
    ensures Possible(w, [Connect(c, m)] + ([TryLock(c)] + ([BeginUpsert(c)] + rest)))
    ensures RunFrom(w, [Connect(c, m)] + ([TryLock(c)] + ([BeginUpsert(c)] + rest))) == end
  {
    hide Possible, RunFrom;
    var w1 := w.(conns := w.conns[c := Conn(m, Polling, true)]);
    var w2 := w.(conns := w.conns[c := Conn(m, Locked, true)], locks := w.locks[m := c]);
    var w3 := w2.(conns := w.conns[c := Conn(m, Upserting, true)]);
    Overwrite(w.conns, c, Conn(m, Polling, true), Conn(m, Locked, true));
    Overwrite(w.conns, c, Conn(m, Locked, true), Conn(m, Upserting, true));
    NextStep(w2, BeginUpsert(c), rest, w3, end);
    NextStep(w1, TryLock(c), [BeginUpsert(c)] + rest, w2, end);
    NextStep(w, Connect(c, m), [TryLock(c)] + ([BeginUpsert(c)] + rest), w1, end);
  }

  lemma WritingRuns(w: World, c: ConnId, m: Market)
    requires c in w.conns && w.conns[c] == Conn(m, Upserting, true)
    ensures Possible(w, [Commit(c)] + ([Learn(c)] + []))
    ensures RunFrom(w, [Commit(c)] + ([Learn(c)] + []))
         == World(w.conns[c := Conn(m, Held(Next(w, m)), true)], w.locks, w.tokens[m := Next(w, m)],
                  w.committed + [Acquisition(m, Next(w, m), c)])
  {
    var token := Next(w, m);
    var end := World(w.conns[c := Conn(m, Held(token), true)], w.locks, w.tokens[m := token],
                     w.committed + [Acquisition(m, token, c)]);
    var w4 := end.(conns := w.conns[c := Conn(m, Committed(token), true)]);
    assert Possible(end, []) && RunFrom(end, []) == end;
    hide Possible, RunFrom;
    Overwrite(w.conns, c, Conn(m, Committed(token), true), Conn(m, Held(token), true));
    NextStep(w4, Learn(c), [], end, end);
    NextStep(w, Commit(c), [Learn(c)] + [], w4, end);
  }

  lemma AcquiringRuns(w: World, c: ConnId, m: Market)
    requires c !in w.conns && m !in w.locks
    ensures Possible(w, Acquiring(c, m)) && RunFrom(w, Acquiring(c, m)) == TakenOver(w, c, m)
  {
    hide Possible, RunFrom;
    var w3 := w.(conns := w.conns[c := Conn(m, Upserting, true)], locks := w.locks[m := c]);
    var token := Next(w, m);
    WritingRuns(w3, c, m);
    Overwrite(w.conns, c, Conn(m, Upserting, true), Conn(m, Held(token), true));
    LockingRuns(w, c, m, [Commit(c)] + ([Learn(c)] + []), TakenOver(w, c, m));
    assert Acquiring(c, m) == [Connect(c, m)] + ([TryLock(c)] + ([BeginUpsert(c)] + ([Commit(c)] + ([Learn(c)] + []))));
  }

  lemma OneStep(w: World, step: Step)
    requires Enabled(w, step)
    ensures Possible(w, [step]) && RunFrom(w, [step]) == After(w, step)
  {
    assert [step][1..] == [];
  }

  /** The lock's holder, if there is one, loses its session. */
  function Freeing(w: World, m: Market): seq<Step> {
    if m in w.locks then [ServerDrops(w.locks[m])] else []
  }

  /**
    No failed, aborted or dead acquisition ever blocks a market: whatever has happened, once the
    session of the lock's holder is gone, if there is one, a new process acquires the market, with a
    token greater than every token written before.
   */
  lemma AnyMarketCanBeTakenOver(w: World, m: Market, d: ConnId)
    requires Sound(w) && d !in w.conns
    ensures var steps := Freeing(w, m) + Acquiring(d, m);
            && Possible(w, steps)
            && var end := RunFrom(w, steps);
               && d in end.conns && end.conns[d] == Conn(m, Held(Next(w, m)), true) && Current(end, d)
               && forall a | Wrote(w, a) && a.market == m :: a.token < Next(w, m)
  {
    hide Possible, RunFrom, TokensSound;
    if m in w.locks {
      var c := w.locks[m];
      OneStep(w, ServerDrops(c));
      AcquiringRuns(After(w, ServerDrops(c)), d, m);
      RunConcat(w, [ServerDrops(c)], Acquiring(d, m));
    } else {
      AcquiringRuns(w, d, m);
      assert Freeing(w, m) + Acquiring(d, m) == Acquiring(d, m);
    }
    forall a | Wrote(w, a) && a.market == m ensures a.token < Next(w, m) {
      WrittenUpTo(w, a);
    }
  }

  /**
    Whatever has become of an acquisition, its process can end it, and its lock is then free. A session
    the server has dropped can be noticed at any time: as a loss if the lease was held, as a failed
    acquisition if it was not held yet.
   */
  lemma AnyAcquisitionCanEnd(w: World, c: ConnId) returns (step: Step)
    requires Sound(w) && c in w.conns && w.conns[c].phase != Closed
    ensures step in {Abort(c), Fail(c), Release(c), CloseLost(c)} && Enabled(w, step)
    ensures var after := After(w, step);
            && after.conns[c].phase == Closed && !after.conns[c].alive
            && forall m | m in after.locks :: after.locks[m] != c
    ensures !w.conns[c].alive ==>
              && Enabled(w, Notice(c))
              && After(w, Notice(c)).conns[c].phase ==
                   match w.conns[c].phase
                   case Held(token) => Lost(token)
                   case Lost(token) => Lost(token)
                   case _ => Closed
  {
    hide TokensSound;
    step := match w.conns[c].phase
      case Polling => Abort(c)
      case Locked => Abort(c)
      case Upserting => Fail(c)
      case Committed(_) => Fail(c)
      case Held(_) => Release(c)
      case Lost(_) => CloseLost(c);
  }

  lemma WrittenUpTo(w: World, a: Acquisition)
    requires TokensSound(w) && Wrote(w, a)
    ensures a.market in w.tokens && a.token <= w.tokens[a.market]
  {
  }

  /**
    Any held lease can go stale unnoticed: its session ends on the server, a successor takes the
    market over, and both processes believe they hold it, the first with a token that is no longer
    current. This is the window fencing is for.
   */
  lemma HeldCanBeStale(w: World, c: ConnId, d: ConnId)
    requires Sound(w) && c in w.conns && w.conns[c].phase.Held? && w.conns[c].alive && d !in w.conns
    ensures var m := w.conns[c].market;
            var steps := [ServerDrops(c)] + Acquiring(d, m);
            && Possible(w, steps)
            && var end := RunFrom(w, steps);
               && c in end.conns && end.conns[c] == w.conns[c].(alive := false) && end.conns[c].phase.Held?
               && d in end.conns && end.conns[d].phase.Held? && end.conns[d].market == m
               && !Current(end, c) && Current(end, d)
  {
    var m := w.conns[c].market;
    assert Holding(w.conns[c]) && Current(w, c);
    hide Sound, Possible, RunFrom;
    OneStep(w, ServerDrops(c));
    var dropped := After(w, ServerDrops(c));
    AcquiringRuns(dropped, d, m);
    RunConcat(w, [ServerDrops(c)], Acquiring(d, m));
  }

  // ---- One process acquiring its bundle ----

  datatype Lease = Lease(market: Market, token: nat)

  const BUNDLE_ORDER := [KR, US]

  /** What acquiring one market comes to, and whether a lease already held was lost meanwhile. */
  datatype Acquired = Acquired(lease: Option<nat>, lostMeanwhile: bool)

  datatype Returned = GivenBack(market: Market, token: nat)

  /** The leases acquired from the i-th market on, until an acquisition fails or a loss stops it. */
  function Gathered(world: nat -> Acquired, i: nat): seq<Lease>
    decreases |BUNDLE_ORDER| - i
  {
    if i >= |BUNDLE_ORDER| || world(i).lease.None? then []
    else [Lease(BUNDLE_ORDER[i], world(i).lease.value)]
         + if world(i).lostMeanwhile then [] else Gathered(world, i + 1)
  }

  predicate AllAcquired(world: nat -> Acquired, i: nat)
    decreases |BUNDLE_ORDER| - i
  {
    i >= |BUNDLE_ORDER| || (world(i).lease.Some? && !world(i).lostMeanwhile && AllAcquired(world, i + 1))
  }

  /** One more market, read off what is gathered from there on. */
  lemma GatherOne(world: nat -> Acquired, i: nat, before: seq<Lease>)
    requires i < |BUNDLE_ORDER|
    ensures world(i).lease.None? ==> before + Gathered(world, i) == before && !AllAcquired(world, i)
    ensures world(i).lease.Some? ==>
              && (before + [Lease(BUNDLE_ORDER[i], world(i).lease.value)])
                 + (if world(i).lostMeanwhile then [] else Gathered(world, i + 1)) == before + Gathered(world, i)
              && (AllAcquired(world, i) <==> !world(i).lostMeanwhile && AllAcquired(world, i + 1))
  {
  }

  lemma NothingLeft(world: nat -> Acquired)
    ensures Gathered(world, |BUNDLE_ORDER|) == [] && AllAcquired(world, |BUNDLE_ORDER|)
  {
  }

  class LeaseRegistry {
    var bundle: map<Market, Lease>
    var held: seq<Lease>
    var releases: seq<Returned>       // every lease given back, in order
    var settled: bool
    var lost: bool
    var reelected: bool
    var notified: nat                 // how often the supervisor was told

    constructor ()
      ensures bundle == map[] && held == [] && releases == [] && !settled && !lost && !reelected && notified == 0
    {
      bundle, held, releases := map[], [], [];
      settled, lost, reelected, notified := false, false, false, 0;
    }

    /** `#releasePartial`: what was acquired is given back, the latest first. */
    method ReleasePartial()
      modifies this`held, this`releases
      ensures held == [] && releases == old(releases) + Reversed(old(held))
    {
      var todo := held;
      held := [];
      while todo != []
        invariant held == [] && todo <= old(held)
        invariant releases + Reversed(todo) == old(releases) + Reversed(old(held))
      {
        var last := todo[|todo| - 1];
        assert Reversed(todo) == [GivenBack(last.market, last.token)] + Reversed(todo[..|todo| - 1]);
        releases := releases + [GivenBack(last.market, last.token)];
        todo := todo[..|todo| - 1];
      }
      assert releases + Reversed([]) == releases;
    }

    /** `acquireAll`: the markets in their fixed order; all of them are acquired, or none stays held. */
    method AcquireAll(world: nat -> Acquired) returns (ok: bool)
      requires held == [] && bundle == map[] && !settled && !lost
      modifies this
      ensures settled && notified == old(notified) && reelected == old(reelected)
      ensures ok <==> AllAcquired(world, 0)
      ensures ok ==> releases == old(releases) && held == Gathered(world, 0)
                     && |held| == |BUNDLE_ORDER| && bundle == map[KR := held[0], US := held[1]]
      ensures !ok ==> held == [] && bundle == map[] && releases == old(releases) + Reversed(Gathered(world, 0))
    {
      hide Reversed, Gathered, AllAcquired;
      var i := 0;
      var failed := false;
      while i < |BUNDLE_ORDER| && !failed
        invariant 0 <= i <= |BUNDLE_ORDER| && (!failed ==> |held| == i && !lost)
        invariant bundle == map[] && releases == old(releases)
        invariant notified == old(notified) && reelected == old(reelected)
        invariant held + (if failed then [] else Gathered(world, i)) == Gathered(world, 0)
        invariant AllAcquired(world, 0) <==> !failed && AllAcquired(world, i)
        decreases |BUNDLE_ORDER| - i
      {
        var a := world(i);
        GatherOne(world, i, held);
        if a.lease.Some? {
          held := held + [Lease(BUNDLE_ORDER[i], a.lease.value)];
        }
        if a.lostMeanwhile {
          lost := true;
        }
        failed := a.lease.None? || lost;
        i := i + 1;
      }
      if failed {
        assert held == Gathered(world, 0);
        ReleasePartial();
      } else {
        NothingLeft(world);
        assert held == Gathered(world, 0);
        bundle := map[KR := held[0], US := held[1]];
      }
      settled := true;
      ok := !failed;
    }

    /** `#onLost`: a settled bundle tells the supervisor of a loss once, whichever leases go. */
    method OnLost(market: Market)
      modifies this
      ensures bundle == old(bundle) && held == old(held) && releases == old(releases) && settled == old(settled)
      ensures notified == old(notified) + if old(settled) && market in old(bundle) && !old(reelected) then 1 else 0
      ensures reelected == (old(reelected) || (old(settled) && market in old(bundle)))
      ensures lost == (old(lost) || !old(settled))
    {
      if !settled {
        lost := true;
        return;
      }
      if market !in bundle || reelected {
        return;
      }
      reelected := true;
      notified := notified + 1;
    }

    /** However many losses are reported, the supervisor hears of exactly one, if any was of the bundle. */
    method ReportLosses(markets: seq<Market>)
      requires settled && !reelected
      modifies this
      ensures notified == old(notified) + if exists i :: 0 <= i < |markets| && markets[i] in old(bundle) then 1 else 0
    {
      for i := 0 to |markets|
        invariant bundle == old(bundle) && settled
        invariant reelected <==> exists k :: 0 <= k < i && markets[k] in old(bundle)
        invariant notified == old(notified) + if reelected then 1 else 0
      {
        OnLost(markets[i]);
      }
    }
  }

  function Reversed(leases: seq<Lease>): seq<Returned> {
    if leases == [] then [] else
      var last := leases[|leases| - 1];
      [GivenBack(last.market, last.token)] + Reversed(leases[..|leases| - 1])
  }
}
