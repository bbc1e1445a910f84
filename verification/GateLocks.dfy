/**
  Reader/writer gates with a first-come queue: mutual exclusion, no overtaking, progress, and
  ordered multi-acquire.
 */
module GateLocks {
  /** A scope, as the key its gate is kept under. */
  type Scope = string

  /** One acquisition of one scope by a process; the ticket tells two acquisitions of a scope apart. */
  datatype Request = Request(process: nat, scope: Scope, ticket: nat)

  datatype Waiter = Waiter(request: Request, exclusive: bool)

  datatype Gate = Gate(readers: nat, writer: bool, queue: seq<Waiter>)

  const IDLE := Gate(0, false, [])

  predicate AnyExclusive(queue: seq<Waiter>) {
    exists i :: 0 <= i < |queue| && queue[i].exclusive
  }

  /** A request is let in at once; a shared one only if no writer is waiting. */
  predicate Admits(g: Gate, exclusive: bool) {
    if exclusive then !g.writer && g.readers == 0 else !g.writer && !AnyExclusive(g.queue)
  }

  function Enter(g: Gate, exclusive: bool): Gate {
    if exclusive then g.(writer := true) else g.(readers := g.readers + 1)
  }

  function Leave(g: Gate, exclusive: bool): Gate {
    if exclusive then g.(writer := false) else if g.readers > 0 then g.(readers := g.readers - 1) else g
  }

  /** How many waiters at the head of a queue are shared. */
  function SharedRun(queue: seq<Waiter>): (n: nat)
    ensures n <= |queue| && (forall i | 0 <= i < n :: !queue[i].exclusive)
    ensures n < |queue| ==> queue[n].exclusive
  {
    if queue == [] || queue[0].exclusive then 0 else 1 + SharedRun(queue[1..])
  }

  /** How many waiters a freed gate lets in: the writer at the head, or every reader before the next writer. */
  function Admitted(g: Gate): (n: nat)
    ensures n <= |g.queue|
  {
    if g.writer || g.readers > 0 || g.queue == [] then 0
    else if g.queue[0].exclusive then 1
    else SharedRun(g.queue)
  }

  function Drain(g: Gate): Gate {
    var n := Admitted(g);
    if n == 0 then g
    else if g.queue[0].exclusive then Gate(0, true, g.queue[1..])
    else Gate(n, false, g.queue[n..])
  }

  /** All the gates, and the leases that have not been released: true for an exclusive one. */
  datatype Locks = Locks(gates: map<Scope, Gate>, leases: map<Request, bool>)

  function GateAt(l: Locks, s: Scope): Gate {
    if s in l.gates then l.gates[s] else IDLE
  }

  function Acquire(l: Locks, q: Request, exclusive: bool): Locks {
    var g := GateAt(l, q.scope);
    if Admits(g, exclusive) then Locks(l.gates[q.scope := Enter(g, exclusive)], l.leases[q := exclusive])
    else l.(gates := l.gates[q.scope := g.(queue := g.queue + [Waiter(q, exclusive)])])
  }

  function Granted(leases: map<Request, bool>, waiters: seq<Waiter>): map<Request, bool> {
    if waiters == [] then leases
    else Granted(leases, waiters[..|waiters| - 1])
           [waiters[|waiters| - 1].request := waiters[|waiters| - 1].exclusive]
  }

  /** A lease releases once; releasing it again does nothing. */
  function Release(l: Locks, q: Request): Locks {
    if q !in l.leases then l else
      var freed := Leave(GateAt(l, q.scope), l.leases[q]);
      Locks(l.gates[q.scope := Drain(freed)],
            Granted(l.leases - {q}, freed.queue[..Admitted(freed)]))
  }

  lemma GrantedOne(leases: map<Request, bool>, waiter: Waiter)
    ensures Granted(leases, [waiter]) == leases[waiter.request := waiter.exclusive]
  {
    assert [waiter][..0] == [];
  }

  lemma GrantedNext(leases: map<Request, bool>, queue: seq<Waiter>, i: nat)
    requires i < |queue|
    ensures Granted(leases, queue[..i + 1]) == Granted(leases, queue[..i])[queue[i].request := queue[i].exclusive]
  {
    assert queue[..i + 1][..i] == queue[..i];
  }

  class Gates {
    var gates: map<Scope, Gate>
    var leases: map<Request, bool>

    function State(): Locks
      reads this
    {
      Locks(gates, leases)
    }

    constructor ()
      ensures State() == Locks(map[], map[])
    {
      gates, leases := map[], map[];
    }

    method AcquireGate(q: Request, exclusive: bool) returns (granted: bool)
      modifies this
      ensures State() == Acquire(old(State()), q, exclusive)
      ensures granted <==> Admits(GateAt(old(State()), q.scope), exclusive)
    {
      var g := GateAt(State(), q.scope);
      if (!exclusive && !g.writer && !AnyExclusive(g.queue)) || (exclusive && !g.writer && g.readers == 0) {
        gates := gates[q.scope := if exclusive then g.(writer := true) else g.(readers := g.readers + 1)];
        leases := leases[q := exclusive];
        return true;
      }
      gates := gates[q.scope := g.(queue := g.queue + [Waiter(q, exclusive)])];
      return false;
    }

    method ReleaseLease(q: Request)
      modifies this
      ensures State() == Release(old(State()), q)
    {
      if q !in leases {
        return;
      }
      var freed := Leave(GateAt(State(), q.scope), leases[q]);
      gates := gates[q.scope := freed];
      leases := leases - {q};
      DrainGate(q.scope);
      assert gates == old(gates)[q.scope := Drain(freed)];
    }

    /** `#drain`. */
    method DrainGate(s: Scope)
      requires s in gates
      modifies this
      ensures gates == old(gates)[s := Drain(old(gates)[s])]
      ensures leases == Granted(old(leases), old(gates)[s].queue[..Admitted(old(gates)[s])])
    {
      var g := gates[s];
      if g.writer || g.readers > 0 || g.queue == [] {
        assert gates == gates[s := g] && g.queue[..0] == [];
        return;
      }
      if g.queue[0].exclusive {
        var waiter := g.queue[0];
        GrantedOne(leases, waiter);
        assert g.queue[..1] == [waiter];
        gates := gates[s := Gate(g.readers, true, g.queue[1..])];
        leases := leases[waiter.request := true];
        return;
      }
      var readers, queue := 0, g.queue;
      assert g.queue[..0] == [];
      while queue != [] && !queue[0].exclusive
        invariant gates == old(gates) && readers <= |g.queue| && queue == g.queue[readers..]
        invariant readers + SharedRun(queue) == SharedRun(g.queue)
        invariant leases == Granted(old(leases), g.queue[..readers])
        decreases |queue|
      {
        var waiter := queue[0];
        GrantedNext(old(leases), g.queue, readers);
        queue := queue[1..];
        readers := readers + 1;
        leases := leases[waiter.request := false];
      }
      assert readers == SharedRun(g.queue) == Admitted(g);
      hide Granted, SharedRun;
      gates := gates[s := Gate(readers, false, queue)];
    }
  }

  // ---- What every state keeps ----

  /** No writer beside readers; nobody waits at an idle gate; readers are only ever kept waiting behind a writer. */
  predicate GateSound(g: Gate) {
    && (g.writer ==> g.readers == 0)
    && (g.queue != [] && !g.writer ==> g.readers > 0 && g.queue[0].exclusive)
  }

  function Readers(leases: map<Request, bool>, s: Scope): set<Request> {
    set q | q in leases && q.scope == s && !leases[q]
  }

  function Writers(leases: map<Request, bool>, s: Scope): set<Request> {
    set q | q in leases && q.scope == s && leases[q]
  }

  /** The queue holds requests for this gate, each once, none of them holding a lease. */
  ghost predicate QueueSound(l: Locks, s: Scope) {
    var queue := GateAt(l, s).queue;
    && (forall i | 0 <= i < |queue| :: queue[i].request.scope == s && queue[i].request !in l.leases)
    && (forall i, j | 0 <= i < j < |queue| :: queue[i].request != queue[j].request)
  }

  /** A gate counts the leases it has given. */
  ghost predicate CountsSound(l: Locks, s: Scope) {
    var g := GateAt(l, s);
    g.readers == |Readers(l.leases, s)| && |Writers(l.leases, s)| == if g.writer then 1 else 0
  }

  ghost predicate ScopeSound(l: Locks, s: Scope) {
    GateSound(GateAt(l, s)) && QueueSound(l, s) && CountsSound(l, s)
  }

  ghost predicate Sound(l: Locks) {
    forall s :: ScopeSound(l, s)
  }

  predicate Waiting(l: Locks, q: Request) {
    exists i :: 0 <= i < |GateAt(l, q.scope).queue| && GateAt(l, q.scope).queue[i].request == q
  }

  lemma EmptySound()
    ensures Sound(Locks(map[], map[]))
  {
    forall s ensures ScopeSound(Locks(map[], map[]), s) {
      assert Readers(map[], s) == {} && Writers(map[], s) == {};
    }
  }

  /** Leases of other scopes do not matter to a gate. */
  lemma Elsewhere(l: Locks, after: Locks, s: Scope)
    requires ScopeSound(l, s) && GateAt(after, s) == GateAt(l, s)
    requires forall q: Request | q.scope == s :: (q in after.leases <==> q in l.leases)
    requires forall q: Request | q.scope == s && q in l.leases :: after.leases[q] == l.leases[q]
    ensures ScopeSound(after, s)
  {
    assert Readers(after.leases, s) == Readers(l.leases, s);
    assert Writers(after.leases, s) == Writers(l.leases, s);
  }

  lemma AcquireKeeps(l: Locks, q: Request, exclusive: bool)
    requires Sound(l) && q !in l.leases && !Waiting(l, q)
    ensures Sound(Acquire(l, q, exclusive))
  {
    var after := Acquire(l, q, exclusive);
    forall s ensures ScopeSound(after, s) {
      assert ScopeSound(l, s);
      if s != q.scope {
        Elsewhere(l, after, s);
      } else if Admits(GateAt(l, s), exclusive) {
        AdmitKeeps(l, q, exclusive);
      } else {
        QueueKeeps(l, q, exclusive);
      }
    }
  }

  lemma AdmitKeeps(l: Locks, q: Request, exclusive: bool)
    requires ScopeSound(l, q.scope) && q !in l.leases && !Waiting(l, q) && Admits(GateAt(l, q.scope), exclusive)
    ensures ScopeSound(Acquire(l, q, exclusive), q.scope)
  {
    var s := q.scope;
    var after := Acquire(l, q, exclusive);
    assert Readers(after.leases, s) == if exclusive then Readers(l.leases, s) else Readers(l.leases, s) + {q};
    assert Writers(after.leases, s) == if exclusive then Writers(l.leases, s) + {q} else Writers(l.leases, s);
  }

  lemma QueueKeeps(l: Locks, q: Request, exclusive: bool)
    requires ScopeSound(l, q.scope) && q !in l.leases && !Waiting(l, q) && !Admits(GateAt(l, q.scope), exclusive)
    ensures ScopeSound(Acquire(l, q, exclusive), q.scope)
  {
    var g := GateAt(l, q.scope);
    assert !exclusive && g.queue == [] ==> g.writer;
  }

  /** The lease taken back, before the queue is drained. */
  function Freed(l: Locks, q: Request): Locks
    requires q in l.leases
  {
    Locks(l.gates[q.scope := Leave(GateAt(l, q.scope), l.leases[q])], l.leases - {q})
  }

  lemma FreedCounts(l: Locks, q: Request)
    requires ScopeSound(l, q.scope) && q in l.leases
    ensures CountsSound(Freed(l, q), q.scope) && QueueSound(Freed(l, q), q.scope)
    ensures var g := GateAt(Freed(l, q), q.scope); g.writer ==> g.readers == 0
  {
    var s := q.scope;
    var after := Freed(l, q);
    assert q in if l.leases[q] then Writers(l.leases, s) else Readers(l.leases, s);
    assert Readers(after.leases, s) == Readers(l.leases, s) - {q};
    assert Writers(after.leases, s) == Writers(l.leases, s) - {q};
    if !l.leases[q] {
      assert q !in Writers(l.leases, s);
    } else {
      assert q !in Readers(l.leases, s);
    }
  }

  function RequestsOf(waiters: seq<Waiter>): set<Request> {
    if waiters == [] then {} else RequestsOf(waiters[..|waiters| - 1]) + {waiters[|waiters| - 1].request}
  }

  lemma {:induction false} RequestAt(waiters: seq<Waiter>, q: Request) returns (i: nat)
    requires q in RequestsOf(waiters)
    ensures i < |waiters| && waiters[i].request == q
  {
    var n := |waiters| - 1;
    if waiters[n].request == q {
      i := n;
    } else {
      i := RequestAt(waiters[..n], q);
    }
  }

  /** Waiters of one kind, each once, none holding a lease. */
  ghost predicate Fresh(leases: map<Request, bool>, waiters: seq<Waiter>, exclusive: bool) {
    && (forall i | 0 <= i < |waiters| :: waiters[i].exclusive == exclusive && waiters[i].request !in leases)
    && (forall i, j | 0 <= i < j < |waiters| :: waiters[i].request != waiters[j].request)
  }

  lemma FreshLast(leases: map<Request, bool>, waiters: seq<Waiter>, exclusive: bool)
    requires Fresh(leases, waiters, exclusive) && waiters != []
    ensures var n := |waiters| - 1;
            && Fresh(leases, waiters[..n], exclusive) && waiters[n].exclusive == exclusive
            && waiters[n].request !in leases && waiters[n].request !in RequestsOf(waiters[..n])
  {
    var n := |waiters| - 1;
    if waiters[n].request in RequestsOf(waiters[..n]) {
      var _ := RequestAt(waiters[..n], waiters[n].request);
    }
  }

  /** `after` is `leases` with the requests of `joined` added, all of one kind. */
  ghost predicate Extends(leases: map<Request, bool>, joined: set<Request>, exclusive: bool,
                          after: map<Request, bool>)
  {
    && (forall q :: q in after <==> q in leases || q in joined)
    && (forall q | q in leases :: q !in joined && after[q] == leases[q])
    && (forall q | q in joined :: after[q] == exclusive)
  }

  lemma ExtendOne(leases: map<Request, bool>, joined: set<Request>, exclusive: bool, after: map<Request, bool>,
                  q: Request)
    requires Extends(leases, joined, exclusive, after) && q !in leases && q !in joined
    ensures Extends(leases, joined + {q}, exclusive, after[q := exclusive])
    ensures |joined + {q}| == |joined| + 1
  {
  }

  lemma {:induction false} GrantedLeases(leases: map<Request, bool>, waiters: seq<Waiter>, exclusive: bool)
    requires Fresh(leases, waiters, exclusive)
    ensures Extends(leases, RequestsOf(waiters), exclusive, Granted(leases, waiters))
    ensures |RequestsOf(waiters)| == |waiters|
  {
    if waiters != [] {
      hide Extends, Fresh;
      var n := |waiters| - 1;
      FreshLast(leases, waiters, exclusive);
      GrantedLeases(leases, waiters[..n], exclusive);
      ExtendOne(leases, RequestsOf(waiters[..n]), exclusive, Granted(leases, waiters[..n]), waiters[n].request);
    }
  }

  lemma ReleaseKeeps(l: Locks, q: Request)
    requires Sound(l)
    ensures Sound(Release(l, q))
  {
    if q in l.leases {
      var after := Release(l, q);
      forall s ensures ScopeSound(after, s) {
        assert ScopeSound(l, s);
        if s == q.scope {
          FreedCounts(l, q);
          DrainKeeps(Freed(l, q), s, after);
        } else {
          assert ScopeSound(l, q.scope);
          FreedCounts(l, q);
          DrainLeases(Freed(l, q), q.scope, after);
          Elsewhere(l, after, s);
        }
      }
    }
  }

  /** Draining gives leases to the requests at the head of the queue and to nobody else. */
  ghost predicate Joined(l: Locks, s: Scope, after: Locks, joined: set<Request>, exclusive: bool) {
    && Extends(l.leases, joined, exclusive, after.leases)
    && (forall q | q in joined :: q.scope == s)
    && |joined| == Admitted(GateAt(l, s))
  }

  lemma AdmittedFresh(l: Locks, s: Scope)
    requires QueueSound(l, s)
    ensures var g := GateAt(l, s);
            Fresh(l.leases, g.queue[..Admitted(g)], g.queue != [] && g.queue[0].exclusive)
  {
  }

  lemma DrainLeases(l: Locks, s: Scope, after: Locks)
    requires QueueSound(l, s)
    requires after.leases == Granted(l.leases, GateAt(l, s).queue[..Admitted(GateAt(l, s))])
    ensures var g := GateAt(l, s);
            Joined(l, s, after, RequestsOf(g.queue[..Admitted(g)]), g.queue != [] && g.queue[0].exclusive)
  {
    var g := GateAt(l, s);
    var admitted := g.queue[..Admitted(g)];
    AdmittedFresh(l, s);
    GrantedLeases(l.leases, admitted, g.queue != [] && g.queue[0].exclusive);
    forall q | q in RequestsOf(admitted) ensures q.scope == s {
      var i := RequestAt(admitted, q);
      assert g.queue[i].request == q;
    }
    hide RequestsOf, Granted, QueueSound, Fresh;
  }

  lemma DrainCounts(l: Locks, s: Scope, after: Locks, joined: set<Request>)
    requires CountsSound(l, s) && GateAt(after, s) == Drain(GateAt(l, s))
    requires GateAt(l, s).writer ==> GateAt(l, s).readers == 0
    requires Joined(l, s, after, joined, GateAt(l, s).queue != [] && GateAt(l, s).queue[0].exclusive)
    ensures CountsSound(after, s)
  {
    var g := GateAt(l, s);
    if Admitted(g) == 0 {
      assert joined == {};
      assert Readers(after.leases, s) == Readers(l.leases, s) && Writers(after.leases, s) == Writers(l.leases, s);
    } else if g.queue[0].exclusive {
      assert Readers(after.leases, s) == Readers(l.leases, s);
      assert Writers(after.leases, s) == Writers(l.leases, s) + joined;
    } else {
      assert Readers(after.leases, s) == Readers(l.leases, s) + joined;
      assert Writers(after.leases, s) == Writers(l.leases, s);
    }
  }

  lemma DrainQueue(l: Locks, s: Scope, after: Locks)
    requires QueueSound(l, s) && GateAt(after, s) == Drain(GateAt(l, s))
    requires var g := GateAt(l, s);
             Joined(l, s, after, RequestsOf(g.queue[..Admitted(g)]), g.queue != [] && g.queue[0].exclusive)
    ensures QueueSound(after, s)
  {
    var g := GateAt(l, s);
    var n := Admitted(g);
    var joined := RequestsOf(g.queue[..n]);
    assert GateAt(after, s).queue == g.queue[n..];
    hide Drain, Admitted, RequestsOf;
    forall i | n <= i < |g.queue| ensures g.queue[i].request !in after.leases {
      if g.queue[i].request in joined {
        var _ := RequestAt(g.queue[..n], g.queue[i].request);
      }
    }
  }

  lemma DrainKeeps(l: Locks, s: Scope, after: Locks)
    requires QueueSound(l, s) && CountsSound(l, s)
    requires GateAt(l, s).writer ==> GateAt(l, s).readers == 0
    requires var g := GateAt(l, s); g.queue != [] && !g.writer && g.readers > 0 ==> g.queue[0].exclusive
    requires after.leases == Granted(l.leases, GateAt(l, s).queue[..Admitted(GateAt(l, s))])
    requires GateAt(after, s) == Drain(GateAt(l, s))
    ensures ScopeSound(after, s)
  {
    DrainLeases(l, s, after);
    DrainCounts(l, s, after, RequestsOf(GateAt(l, s).queue[..Admitted(GateAt(l, s))]));
    DrainQueue(l, s, after);
    hide QueueSound, CountsSound, Joined, Granted, RequestsOf;
  }

  // ---- Every interleaving ----

  datatype Step = Ask(request: Request, exclusive: bool) | Free(request: Request)

  predicate Enabled(l: Locks, step: Step) {
    step.Ask? ==> step.request !in l.leases && !Waiting(l, step.request)
  }

  function After(l: Locks, step: Step): Locks {
    match step
    case Ask(q, exclusive) => Acquire(l, q, exclusive)
    case Free(q) => Release(l, q)
  }

  function RunFrom(l: Locks, steps: seq<Step>): Locks
    decreases |steps|
  {
    if steps == [] then l else RunFrom(After(l, steps[0]), steps[1..])
  }

  predicate Possible(l: Locks, steps: seq<Step>)
    decreases |steps|
  {
    steps != [] ==> Enabled(l, steps[0]) && Possible(After(l, steps[0]), steps[1..])
  }

  lemma {:induction false} RunKeeps(l: Locks, steps: seq<Step>)
    requires Sound(l) && Possible(l, steps)
    ensures Sound(RunFrom(l, steps))
    decreases |steps|
  {
    hide Sound, Acquire, Release;
    if steps != [] {
      match steps[0] {
        case Ask(q, exclusive) => AcquireKeeps(l, q, exclusive);
        case Free(q) => ReleaseKeeps(l, q);
      }
      RunKeeps(After(l, steps[0]), steps[1..]);
    }
  }

  /** In every reachable state two leases of one scope are both shared. */
  lemma MutualExclusion(steps: seq<Step>, p: Request, q: Request)
    requires Possible(Locks(map[], map[]), steps)
    requires var l := RunFrom(Locks(map[], map[]), steps);
             p in l.leases && q in l.leases && p != q && p.scope == q.scope
    ensures var l := RunFrom(Locks(map[], map[]), steps); !l.leases[p] && !l.leases[q]
  {
    EmptySound();
    RunKeeps(Locks(map[], map[]), steps);
    hide RunFrom, Possible;
    var l := RunFrom(Locks(map[], map[]), steps);
    assert ScopeSound(l, p.scope);
    if l.leases[p] {
      WriterAlone(l, p, q);
    } else if l.leases[q] {
      WriterAlone(l, q, p);
    }
  }

  lemma WriterAlone(l: Locks, p: Request, q: Request)
    requires ScopeSound(l, p.scope) && p in l.leases && l.leases[p] && q in l.leases && q.scope == p.scope
    ensures q == p
  {
    var writers := Writers(l.leases, p.scope);
    assert p in writers;
    assert Readers(l.leases, p.scope) == {};
    assert q in writers by {
      assert q !in Readers(l.leases, p.scope);
    }
    assert |writers - {p}| == 0;
    assert writers - {p} == {};
  }

  /** While anyone waits at a gate nobody is let in past the queue, shared or not. */
  lemma NobodyOvertakes(l: Locks, s: Scope, exclusive: bool)
    requires Sound(l) && GateAt(l, s).queue != []
    ensures !Admits(GateAt(l, s), exclusive)
  {
    assert ScopeSound(l, s);
  }

  // ---- Progress ----

  /** How many leases of a gate are out. */
  function Holders(g: Gate): nat {
    g.readers + if g.writer then 1 else 0
  }

  predicate WaitsAt(l: Locks, s: Scope, i: nat, q: Request) {
    i < |GateAt(l, s).queue| && GateAt(l, s).queue[i].request == q
  }

  /**
    Each release at a gate brings every waiter exactly one step closer: the holders and the waiters
    ahead of it together go down by one, or it is let in. So a waiter is let in after at most as
    many releases as there are holders and earlier waiters.
   */
  lemma ReleaseAdvances(l: Locks, held: Request, i: nat, w: Request) returns (j: nat)
    requires Sound(l) && held in l.leases && WaitsAt(l, held.scope, i, w)
    ensures w in Release(l, held).leases
            || (WaitsAt(Release(l, held), held.scope, j, w)
                && Holders(GateAt(Release(l, held), held.scope)) + j == Holders(GateAt(l, held.scope)) + i - 1)
  {
    var s := held.scope;
    assert ScopeSound(l, s);
    FreedCounts(l, held);
    var freed := Freed(l, held);
    var g := GateAt(freed, s);
    var n := Admitted(g);
    HeldIsCounted(l, held);
    if i < n {
      j := 0;
      AdmittedFresh(freed, s);
      DrainLeases(freed, s, Release(l, held));
      RequestListed(g.queue[..n], i);
    } else {
      j := i - n;
      hide SharedRun;
      assert Drain(g).queue == g.queue[n..];
    }
  }

  lemma HeldIsCounted(l: Locks, held: Request)
    requires ScopeSound(l, held.scope) && held in l.leases
    ensures var g := GateAt(l, held.scope); if l.leases[held] then g.writer else g.readers > 0
  {
    assert held in if l.leases[held] then Writers(l.leases, held.scope) else Readers(l.leases, held.scope);
  }

  lemma {:induction false} RequestListed(waiters: seq<Waiter>, i: nat)
    requires i < |waiters|
    ensures waiters[i].request in RequestsOf(waiters)
  {
    if i < |waiters| - 1 {
      RequestListed(waiters[..|waiters| - 1], i);
    }
  }

  /** Nothing else moves a waiter or lets a holder in before it. */
  lemma WaiterKeepsPlace(l: Locks, step: Step, s: Scope, i: nat, w: Request)
    requires Sound(l) && Enabled(l, step) && WaitsAt(l, s, i, w)
    requires step.Free? ==> step.request !in l.leases || step.request.scope != s
    ensures WaitsAt(After(l, step), s, i, w) && Holders(GateAt(After(l, step), s)) == Holders(GateAt(l, s))
  {
    if step.Ask? && step.request.scope == s {
      NobodyOvertakes(l, s, step.exclusive);
    }
    hide Sound;
  }

  // ---- Acquiring several gates ----

  /** A place in a queue. */
  datatype Place = Place(scope: Scope, index: nat)

  predicate IsPlace(l: Locks, a: Place) {
    a.index < |GateAt(l, a.scope).queue|
  }

  function ProcessAt(l: Locks, a: Place): nat
    requires IsPlace(l, a)
  {
    GateAt(l, a.scope).queue[a.index].request.process
  }

  predicate Holds(l: Locks, process: nat, s: Scope) {
    exists q :: q in l.leases && q.process == process && q.scope == s
  }

  /**
    What acquisitions are sorted by: a comparison that can tell which of two keys comes first, or
    that it holds them for equal although they differ.
   */
  type Order = (Scope, Scope) -> bool

  ghost predicate Preorder(le: Order) {
    && (forall a, b :: le(a, b) || le(b, a))
    && (forall a, b, c | le(a, b) && le(b, c) :: le(a, c))
  }

  predicate Tied(le: Order, a: Scope, b: Scope) {
    a != b && le(a, b) && le(b, a)
  }

  /** A process waits for one gate at a time, none it holds and none that comes before one it holds. */
  ghost predicate Ascending(le: Order, l: Locks) {
    && (forall a, b | IsPlace(l, a) && IsPlace(l, b) && ProcessAt(l, a) == ProcessAt(l, b) :: a == b)
    && (forall a, q | IsPlace(l, a) && q in l.leases && q.process == ProcessAt(l, a) ::
          q.scope != a.scope && le(q.scope, a.scope))
  }

  /** What sorted acquisition of distinct scopes does: a process that waits nowhere asks for a next gate. */
  ghost predicate Sorted(le: Order, l: Locks, step: Step) {
    step.Ask? ==>
      && (forall a | IsPlace(l, a) :: ProcessAt(l, a) != step.request.process)
      && (forall q | q in l.leases && q.process == step.request.process ::
            q.scope != step.request.scope && le(q.scope, step.request.scope))
  }

  lemma AskAscends(le: Order, l: Locks, q: Request, exclusive: bool)
    requires Ascending(le, l) && Sorted(le, l, Ask(q, exclusive))
    ensures Ascending(le, Acquire(l, q, exclusive))
  {
    var after := Acquire(l, q, exclusive);
    forall a | IsPlace(after, a) && !(a.scope == q.scope && a.index == |GateAt(l, q.scope).queue|)
      ensures IsPlace(l, a) && ProcessAt(l, a) == ProcessAt(after, a)
    {
    }
  }

  lemma FreeAscends(le: Order, l: Locks, q: Request)
    requires Sound(l) && Ascending(le, l)
    ensures Ascending(le, Release(l, q))
  {
    if q in l.leases {
      hide Ascending, SharedRun;
      var after := Release(l, q);
      var s := q.scope;
      assert ScopeSound(l, s);
      FreedCounts(l, q);
      var freed := Freed(l, q);
      var n := Admitted(GateAt(freed, s));
      DrainLeases(freed, s, after);
      hide Granted, ScopeSound, Sound;
      assert GateAt(after, s).queue == GateAt(l, s).queue[n..];
      forall p | p in after.leases && p !in l.leases ensures ListedBefore(GateAt(l, s).queue, n, p) {
        var i := RequestAt(GateAt(l, s).queue[..n], p);
        assert GateAt(l, s).queue[i].request == p;
      }
      hide RequestsOf;
      DrainAscends(le, l, s, n, after);
    }
  }

  predicate ListedBefore(queue: seq<Waiter>, n: nat, p: Request) {
    exists i :: 0 <= i < n && i < |queue| && queue[i].request == p
  }

  lemma OnePlace(le: Order, l: Locks, a: Place, b: Place)
    requires Ascending(le, l) && IsPlace(l, a) && IsPlace(l, b) && ProcessAt(l, a) == ProcessAt(l, b)
    ensures a == b
  {
  }

  /** Letting in the head of one queue leaves the order of everyone else's waits and leases. */
  lemma DrainAscends(le: Order, l: Locks, s: Scope, n: nat, after: Locks)
    requires Ascending(le, l) && n <= |GateAt(l, s).queue| && GateAt(after, s).queue == GateAt(l, s).queue[n..]
    requires forall t | t != s :: GateAt(after, t) == GateAt(l, t)
    requires forall p | p in after.leases && p !in l.leases :: ListedBefore(GateAt(l, s).queue, n, p)
    ensures Ascending(le, after)
  {
    hide GateAt;
    forall a | IsPlace(after, a)
      ensures IsPlace(l, Before(a, s, n)) && ProcessAt(l, Before(a, s, n)) == ProcessAt(after, a)
    {
    }
    forall a, p | IsPlace(after, a) && p in after.leases && p.process == ProcessAt(after, a) 
      ensures p.scope != a.scope && le(p.scope, a.scope)
    {
      if p !in l.leases {
        var i :| 0 <= i < n && GateAt(l, s).queue[i].request == p;
        OnePlace(le, l, Place(s, i), Before(a, s, n));
      }
    }
    forall a, b | IsPlace(after, a) && IsPlace(after, b) && ProcessAt(after, a) == ProcessAt(after, b) ensures a == b {
      assert Before(a, s, n) == Before(b, s, n);
    }
  }

  /** Where a place of a drained queue was before. */
  function Before(a: Place, s: Scope, n: nat): Place {
    if a.scope == s then Place(s, a.index + n) else a
  }

  /** The waiter at `a` is held up by the process waiting at `b`. */
  predicate HeldUp(l: Locks, a: Place, b: Place) {
    && IsPlace(l, a) && IsPlace(l, b)
    && (Holds(l, ProcessAt(l, b), a.scope)
        || exists j :: 0 <= j < a.index && ProcessAt(l, Place(a.scope, j)) == ProcessAt(l, b))
  }

  /** Waiting at another gate further on, or nearer the head of the same queue. */
  predicate Above(le: Order, b: Place, a: Place) {
    if a.scope == b.scope then b.index < a.index else le(a.scope, b.scope)
  }

  lemma HeldUpGoesUp(le: Order, l: Locks, a: Place, b: Place)
    requires Ascending(le, l) && HeldUp(l, a, b)
    ensures Above(le, b, a)
  {
    if !Holds(l, ProcessAt(l, b), a.scope) {
      var j :| 0 <= j < a.index && ProcessAt(l, Place(a.scope, j)) == ProcessAt(l, b);
      assert Place(a.scope, j) == b;
    }
  }

  ghost predicate Cycle(l: Locks, c: seq<Place>) {
    && |c| >= 2 && c[0] == c[|c| - 1]
    && forall i, j | 0 <= i && j == i + 1 && j < |c| :: HeldUp(l, c[i], c[j])
  }

  /** From one place of a cycle to a later one scopes never go down; within one scope places go ahead. */
  lemma {:induction false} CycleGoesUp(le: Order, l: Locks, c: seq<Place>, i: nat, j: nat)
    requires Preorder(le) && Ascending(le, l) && Cycle(l, c) && i < j < |c|
    ensures le(c[i].scope, c[j].scope)
    ensures (forall k | i <= k <= j :: c[k].scope == c[i].scope) ==> c[j].index < c[i].index
  {
    hide Ascending, HeldUp;
    assert HeldUp(l, c[j - 1], c[j]);
    HeldUpGoesUp(le, l, c[j - 1], c[j]);
    if i < j - 1 {
      CycleGoesUp(le, l, c, i, j - 1);
    }
  }

  /**
    Whatever the comparison, a circle of waiting processes leads through scopes it all holds for
    equal, and through two of them that differ.
   */
  lemma CycleIsTied(le: Order, l: Locks, c: seq<Place>) returns (j: nat)
    requires Preorder(le) && Ascending(le, l) && Cycle(l, c)
    ensures j < |c| && Tied(le, c[0].scope, c[j].scope)
    ensures forall k | 0 <= k < |c| :: c[k].scope == c[0].scope || Tied(le, c[0].scope, c[k].scope)
  {
    hide Ascending;
    var n := |c| - 1;
    forall k | 0 < k < n ensures le(c[0].scope, c[k].scope) && le(c[k].scope, c[0].scope) {
      CycleGoesUp(le, l, c, 0, k);
      CycleGoesUp(le, l, c, k, n);
    }
    CycleGoesUp(le, l, c, 0, n);
    j :| 0 <= j < |c| && c[j].scope != c[0].scope;
  }

  /** A run in which every acquisition is sorted. */
  ghost predicate SortedRun(le: Order, l: Locks, steps: seq<Step>)
    decreases |steps|
  {
    steps != [] ==> Enabled(l, steps[0]) && Sorted(le, l, steps[0]) && SortedRun(le, After(l, steps[0]), steps[1..])
  }

  lemma {:induction false} SortedRunAscends(le: Order, l: Locks, steps: seq<Step>)
    requires Sound(l) && Ascending(le, l) && SortedRun(le, l, steps)
    ensures Ascending(le, RunFrom(l, steps))
    decreases |steps|
  {
    hide Sound, Ascending, Sorted, Acquire, Release;
    if steps != [] {
      match steps[0] {
        case Ask(q, exclusive) =>
          AcquireKeeps(l, q, exclusive);
          AskAscends(le, l, q, exclusive);
        case Free(q) =>
          ReleaseKeeps(l, q);
          FreeAscends(le, l, q);
      }
      SortedRunAscends(le, After(l, steps[0]), steps[1..]);
    }
  }

  const NONE := Locks(map[], map[])

  ghost predicate DeadlockFree(le: Order) {
    forall steps, c | SortedRun(le, NONE, steps) :: !Cycle(RunFrom(NONE, steps), c)
  }

  /**
    Processes that acquire distinct scopes in the order of a comparison never wait for one another
    in a circle, whatever they do, exactly when it ties no two different scopes.
   */
  lemma DeadlockFreeExactly(le: Order)
    requires Preorder(le)
    ensures DeadlockFree(le) <==> forall a, b :: !Tied(le, a, b)
  {
    if a, b :| Tied(le, a, b) {
      var steps, c := TiedDeadlock(le, a, b);
      hide SortedRun, RunFrom;
      assert !DeadlockFree(le);
    } else {
      EmptySound();
      forall steps, c | SortedRun(le, NONE, steps) ensures !Cycle(RunFrom(NONE, steps), c) {
        SortedRunAscends(le, NONE, steps);
        hide RunFrom, SortedRun, Ascending, HeldUp;
        if Cycle(RunFrom(NONE, steps), c) {
          var _ := CycleIsTied(le, RunFrom(NONE, steps), c);
        }
      }
    }
  }

  /** Two gates, each held by one of two processes. */
  function Crossed(s: Scope, t: Scope, atS: seq<Waiter>, atT: seq<Waiter>): Locks {
    Locks(map[s := Gate(0, true, atS), t := Gate(0, true, atT)],
          map[Request(0, s, 0) := true, Request(1, t, 0) := true])
  }

  lemma CrossedSteps(s: Scope, t: Scope)
    requires s != t
    ensures var other, back := Waiter(Request(0, t, 0), true), Waiter(Request(1, s, 0), true);
            && After(After(NONE, Ask(Request(0, s, 0), true)), Ask(Request(1, t, 0), true)) == Crossed(s, t, [], [])
            && After(Crossed(s, t, [], []), Ask(other.request, true)) == Crossed(s, t, [], [other])
            && After(Crossed(s, t, [], [other]), Ask(back.request, true)) == Crossed(s, t, [back], [other])
  {
    var other, back := Waiter(Request(0, t, 0), true), Waiter(Request(1, s, 0), true);
    assert [] + [other] == [other] && [] + [back] == [back];
    assert GateAt(After(Crossed(s, t, [], []), Ask(other.request, true)), t) == Gate(0, true, [other]);
    assert GateAt(After(Crossed(s, t, [], [other]), Ask(back.request, true)), s) == Gate(0, true, [back]);
  }

  /** Each of the four acquisitions is a sorted one. */
  lemma CrossedSorted(le: Order, s: Scope, t: Scope)
    requires Tied(le, s, t)
    ensures var other, back := Waiter(Request(0, t, 0), true), Waiter(Request(1, s, 0), true);
            && TakesNext(le, NONE, Request(0, s, 0))
            && TakesNext(le, Acquire(NONE, Request(0, s, 0), true), Request(1, t, 0))
            && TakesNext(le, Crossed(s, t, [], []), other.request)
            && TakesNext(le, Crossed(s, t, [], [other]), back.request)
  {
  }

  ghost predicate TakesNext(le: Order, l: Locks, q: Request) {
    Enabled(l, Ask(q, true)) && Sorted(le, l, Ask(q, true))
  }

  lemma OneMore(le: Order, l: Locks, q: Request, next: Locks, rest: seq<Step>)
    requires TakesNext(le, l, q) && After(l, Ask(q, true)) == next && SortedRun(le, next, rest)
    ensures SortedRun(le, l, [Ask(q, true)] + rest) && RunFrom(l, [Ask(q, true)] + rest) == RunFrom(next, rest)
  {
    hide Enabled, Sorted, After;
    assert ([Ask(q, true)] + rest)[1..] == rest;
  }

  /** Two tied scopes, and two processes that take them in opposite orders. */
  lemma TiedDeadlock(le: Order, s: Scope, t: Scope) returns (steps: seq<Step>, c: seq<Place>)
    requires Tied(le, s, t)
    ensures SortedRun(le, NONE, steps) && Cycle(RunFrom(NONE, steps), c)
  {
    CrossedSteps(s, t);
    CrossedSorted(le, s, t);
    var other, back := Waiter(Request(0, t, 0), true), Waiter(Request(1, s, 0), true);
    var held, half, stuck := Crossed(s, t, [], []), Crossed(s, t, [], [other]), Crossed(s, t, [back], [other]);
    assert SortedRun(le, stuck, []) && RunFrom(stuck, []) == stuck;
    StuckCycle(s, t, stuck);
    hide TakesNext, SortedRun, RunFrom, Cycle, Crossed, Acquire;
    OneMore(le, half, back.request, stuck, []);
    OneMore(le, held, other.request, half, [Ask(back.request, true)] + []);
    var late := [Ask(other.request, true)] + ([Ask(back.request, true)] + []);
    OneMore(le, Acquire(NONE, Request(0, s, 0), true), Request(1, t, 0), held, late);
    OneMore(le, NONE, Request(0, s, 0), Acquire(NONE, Request(0, s, 0), true), [Ask(Request(1, t, 0), true)] + late);
    steps := [Ask(Request(0, s, 0), true)] + ([Ask(Request(1, t, 0), true)] + late);
    c := [Place(t, 0), Place(s, 0), Place(t, 0)];
  }

  lemma StuckCycle(s: Scope, t: Scope, stuck: Locks)
    requires s != t
    requires stuck == Crossed(s, t, [Waiter(Request(1, s, 0), true)], [Waiter(Request(0, t, 0), true)])
    ensures Cycle(stuck, [Place(t, 0), Place(s, 0), Place(t, 0)])
  {
    assert Request(0, s, 0) in stuck.leases && Request(1, t, 0) in stuck.leases;
    assert Holds(stuck, 0, s) && Holds(stuck, 1, t);
    assert HeldUp(stuck, Place(t, 0), Place(s, 0)) && HeldUp(stuck, Place(s, 0), Place(t, 0));
  }

  /** A process that lists a scope twice exclusively waits for itself. */
  lemma RepeatedScopeDeadlocks(process: nat, s: Scope)
    ensures var l := RunFrom(NONE, [Ask(Request(process, s, 0), true), Ask(Request(process, s, 1), true)]);
            Cycle(l, [Place(s, 0), Place(s, 0)])
  {
    var first, second := Request(process, s, 0), Request(process, s, 1);
    var one := Acquire(NONE, first, true);
    assert one == Locks(map[s := Gate(0, true, [])], map[first := true]);
    var two := Acquire(one, second, true);
    assert two.leases == one.leases && GateAt(two, s).queue == [Waiter(second, true)];
    assert first in two.leases;
    assert Holds(two, process, s);
    var steps := [Ask(first, true), Ask(second, true)];
    assert steps[1..] == [Ask(second, true)] && steps[1..][1..] == [];
    assert RunFrom(NONE, steps) == RunFrom(one, steps[1..]) == RunFrom(two, steps[1..][1..]);
  }
}
