/** The reporter's message budget: aggregation per key, a token bucket, and a reserve for alerts. */
module RateLimit {
  import opened Types
  import opened Arithmetic

  datatype Level = INFO | OK | WARN | FAIL

  predicate IsAlert(level: Level) {
    level == WARN || level == FAIL
  }

  datatype Options = Options(capacity: nat, refillIntervalMs: int, reservedForAlerts: nat, aggregationWindowMs: int) {
    predicate Valid() {
      refillIntervalMs > 0
    }
  }

  datatype Request = Request(level: Level, key: string)

  datatype Verdict = Post(suppressed: nat, dropped: nat) | Suppress | Drop | Defer

  datatype Limiter = Limiter(
    tokens: int,
    lastRefillAt: Option<int>,
    dropped: nat,
    lastPostAt: map<string, int>,
    suppressedByKey: map<string, nat>
  )

  function Fresh(o: Options): Limiter {
    Limiter(o.capacity, None, 0, map[], map[])
  }

  function Pending(l: Limiter, key: string): nat {
    if key in l.suppressedByKey then l.suppressedByKey[key] else 0
  }

  /** Whole refill intervals since the last one; the clock may stand still but not go back. */
  function Gained(o: Options, l: Limiter, now: int): int
    requires o.Valid() && l.lastRefillAt.Some?
  {
    (now - l.lastRefillAt.value) / o.refillIntervalMs
  }

  function Refill(o: Options, l: Limiter, now: int): Limiter
    requires o.Valid()
  {
    if l.lastRefillAt.None? then l.(lastRefillAt := Some(now))
    else
      var gained := Gained(o, l, now);
      if gained <= 0 then l
      else l.(tokens := Min(o.capacity, l.tokens + gained),
              lastRefillAt := Some(l.lastRefillAt.value + gained * o.refillIntervalMs))
  }

  predicate Repeated(o: Options, l: Limiter, key: string, now: int) {
    key in l.lastPostAt && now - l.lastPostAt[key] < o.aggregationWindowMs
  }

  function Floor(o: Options, level: Level): nat {
    if IsAlert(level) then 0 else o.reservedForAlerts
  }

  datatype Admission = Admission(after: Limiter, verdict: Verdict)

  /** `admit` once repeats are out of the way and the bucket is refilled. */
  function Spend(o: Options, l: Limiter, q: Request, now: int): Admission {
    if l.tokens <= Floor(o, q.level) then
      if IsAlert(q.level) then Admission(l, Defer) else Admission(l.(dropped := l.dropped + 1), Drop)
    else
      Admission(l.(tokens := l.tokens - 1, lastPostAt := l.lastPostAt[q.key := now],
                   suppressedByKey := l.suppressedByKey - {q.key}, dropped := 0),
                Post(Pending(l, q.key), l.dropped))
  }

  /** `admit`. */
  function Admit(o: Options, l: Limiter, q: Request, now: int): Admission
    requires o.Valid()
  {
    if Repeated(o, l, q.key, now) then
      Admission(l.(suppressedByKey := l.suppressedByKey[q.key := Pending(l, q.key) + 1]), Suppress)
    else Spend(o, Refill(o, l, now), q, now)
  }

  class RateLimiter {
    const options: Options
    var tokens: int
    var lastRefillAt: Option<int>
    var dropped: nat
    var lastPostAt: map<string, int>
    var suppressedByKey: map<string, nat>

    function State(): Limiter
      reads this
    {
      Limiter(tokens, lastRefillAt, dropped, lastPostAt, suppressedByKey)
    }

    constructor (options: Options)
      ensures this.options == options && State() == Fresh(options)
    {
      this.options := options;
      tokens, lastRefillAt, dropped := options.capacity, None, 0;
      lastPostAt, suppressedByKey := map[], map[];
    }

    method RefillBucket(now: int)
      requires options.Valid()
      modifies this`tokens, this`lastRefillAt
      ensures State() == Refill(options, old(State()), now)
    {
      if lastRefillAt.None? {
        lastRefillAt := Some(now);
        return;
      }
      var gained := (now - lastRefillAt.value) / options.refillIntervalMs;
      if gained <= 0 {
        return;
      }
      tokens := Min(options.capacity, tokens + gained);
      lastRefillAt := Some(lastRefillAt.value + gained * options.refillIntervalMs);
    }

    method AdmitRequest(q: Request, now: int) returns (verdict: Verdict)
      requires options.Valid()
      modifies this
      ensures Admission(State(), verdict) == Admit(options, old(State()), q, now)
    {
      if q.key in lastPostAt && now - lastPostAt[q.key] < options.aggregationWindowMs {
        var count := if q.key in suppressedByKey then suppressedByKey[q.key] else 0;
        suppressedByKey := suppressedByKey[q.key := count + 1];
        return Suppress;
      }
      RefillBucket(now);
      hide Refill;
      if tokens <= Floor(options, q.level) {
        if IsAlert(q.level) {
          return Defer;
        }
        dropped := dropped + 1;
        return Drop;
      }
      tokens := tokens - 1;
      lastPostAt := lastPostAt[q.key := now];
      var suppressed := if q.key in suppressedByKey then suppressedByKey[q.key] else 0;
      suppressedByKey := suppressedByKey - {q.key};
      var carried := dropped;
      dropped := 0;
      return Post(suppressed, carried);
    }
  }

  // ---- Runs over a clock that never goes back ----

  datatype Call = Call(request: Request, now: int)

  function Run(o: Options, l: Limiter, calls: seq<Call>): Limiter
    requires o.Valid()
    decreases |calls|
  {
    if calls == [] then l else Run(o, Admit(o, l, calls[0].request, calls[0].now).after, calls[1..])
  }

  function Verdicts(o: Options, l: Limiter, calls: seq<Call>): (vs: seq<Verdict>)
    requires o.Valid()
    ensures |vs| == |calls|
    decreases |calls|
  {
    if calls == [] then [] else
      var a := Admit(o, l, calls[0].request, calls[0].now);
      [a.verdict] + Verdicts(o, a.after, calls[1..])
  }

  function Posts(vs: seq<Verdict>): nat {
    if vs == [] then 0 else (if vs[0].Post? then 1 else 0) + Posts(vs[1..])
  }

  predicate Clocked(calls: seq<Call>, from: int, until: int) {
    && (forall i | 0 <= i < |calls| :: from <= calls[i].now <= until)
    && (forall i, j | 0 <= i < j < |calls| :: calls[i].now <= calls[j].now)
  }

  lemma ClockedRest(calls: seq<Call>, from: int, until: int)
    requires Clocked(calls, from, until) && calls != []
    ensures from <= calls[0].now <= until && Clocked(calls[1..], calls[0].now, until)
  {
  }

  /** A bucket holds at most its capacity, and its refill clock is not ahead of the last call. */
  predicate LimiterSound(o: Options, l: Limiter, clock: int) {
    0 <= l.tokens <= o.capacity && (l.lastRefillAt.Some? ==> l.lastRefillAt.value <= clock)
  }

  lemma RefillSound(o: Options, l: Limiter, now: int)
    requires o.Valid() && LimiterSound(o, l, now)
    ensures var r := Refill(o, l, now);
            && LimiterSound(o, r, now) && r.lastRefillAt.Some?
            && now - r.lastRefillAt.value < o.refillIntervalMs
            && l.tokens <= r.tokens
            && Refill(o, r, now) == r
            && r == l.(tokens := r.tokens, lastRefillAt := r.lastRefillAt)
            && (l.lastRefillAt.Some? ==>
                  (r.tokens - l.tokens) * o.refillIntervalMs <= r.lastRefillAt.value - l.lastRefillAt.value)
  {
    if l.lastRefillAt.Some? {
      var elapsed, interval := now - l.lastRefillAt.value, o.refillIntervalMs;
      DivMod(elapsed, interval);
      var gained := elapsed / interval;
      if gained > 0 {
        MulMono(Min(o.capacity, l.tokens + gained) - l.tokens, gained, interval);
        var rest := elapsed - gained * interval;
        assert rest / interval <= 0 by {
          DivUnique(rest, interval, 0, rest);
        }
      }
    }
  }

  lemma AdmitSound(o: Options, l: Limiter, q: Request, now: int)
    requires o.Valid() && LimiterSound(o, l, now)
    ensures LimiterSound(o, Admit(o, l, q, now).after, now)
  {
    RefillSound(o, l, now);
    hide Refill;
  }

  // ---- The budget ----

  /** Tokens spent and tokens left never outrun the tokens at hand and the intervals refilled. */
  lemma {:induction false} SpendingIsFunded(o: Options, l: Limiter, calls: seq<Call>, from: int, until: int)
    requires o.Valid() && LimiterSound(o, l, from) && l.lastRefillAt.Some? && Clocked(calls, from, until)
    requires from <= until
    ensures var end := Run(o, l, calls);
            && LimiterSound(o, end, until) && end.lastRefillAt.Some?
            && (Posts(Verdicts(o, l, calls)) + end.tokens - l.tokens) * o.refillIntervalMs
               <= end.lastRefillAt.value - l.lastRefillAt.value
    decreases |calls|
  {
    if calls != [] {
      ClockedRest(calls, from, until);
      var q, now := calls[0].request, calls[0].now;
      RefillSound(o, l, now);
      AdmitSound(o, l, q, now);
      var a := Admit(o, l, q, now);
      SpendingIsFunded(o, a.after, calls[1..], now, until);
      SpendOne(o, l, q, now);
      assert Verdicts(o, l, calls)[0] == a.verdict && Verdicts(o, l, calls)[1..] == Verdicts(o, a.after, calls[1..]);
      var end := Run(o, a.after, calls[1..]);
      var later := Posts(Verdicts(o, a.after, calls[1..])) + end.tokens - a.after.tokens;
      var first := (if a.verdict.Post? then 1 else 0) + a.after.tokens - l.tokens;
      hide Run, Verdicts, Posts, Admit, Refill;
      Distribute(later, first, o.refillIntervalMs);
    }
  }

  lemma Distribute(a: int, b: int, c: int)
    ensures (a + b) * c == a * c + b * c
  {
  }

  lemma SpendOne(o: Options, l: Limiter, q: Request, now: int)
    requires o.Valid() && LimiterSound(o, l, now) && l.lastRefillAt.Some?
    ensures var a := Admit(o, l, q, now);
            && a.after.lastRefillAt.Some?
            && ((if a.verdict.Post? then 1 else 0) + a.after.tokens - l.tokens) * o.refillIntervalMs
               <= a.after.lastRefillAt.value - l.lastRefillAt.value
  {
    RefillSound(o, l, now);
    hide Refill;
  }

  /** Refilling first changes nothing about a run whose first call refills anyway. */
  lemma RefillFirst(o: Options, l: Limiter, calls: seq<Call>)
    requires o.Valid() && calls != [] && LimiterSound(o, l, calls[0].now)
    requires !Repeated(o, l, calls[0].request.key, calls[0].now)
    ensures Verdicts(o, Refill(o, l, calls[0].now), calls) == Verdicts(o, l, calls)
  {
    RefillSound(o, l, calls[0].now);
    hide Refill;
  }

  /**
    The budget: in any stretch of time of length T, wherever it lies in a run, at most
    capacity + floor(T / refill) + 1 messages are posted.
   */
  lemma {:induction false} IntervalBudget(o: Options, l: Limiter, calls: seq<Call>, from: int, until: int)
    requires o.Valid() && LimiterSound(o, l, from) && Clocked(calls, from, until) && from <= until
    ensures Posts(Verdicts(o, l, calls)) <= o.capacity + (until - from) / o.refillIntervalMs + 1
    decreases |calls|
  {
    if calls == [] {
      DivMod(until - from, o.refillIntervalMs);
      QuotientNonNegative(until - from, o.refillIntervalMs);
    } else {
      ClockedRest(calls, from, until);
      var q, now := calls[0].request, calls[0].now;
      if Repeated(o, l, q.key, now) {
        var a := Admit(o, l, q, now);
        IntervalBudget(o, a.after, calls[1..], now, until);
        assert Verdicts(o, l, calls)[1..] == Verdicts(o, a.after, calls[1..]);
        QuotientMonotone(until - now, until - from, o.refillIntervalMs);
      } else {
        RefillFirst(o, l, calls);
        RefillSound(o, l, now);
        var r := Refill(o, l, now);
        SpendingIsFunded(o, r, calls, now, until);
        BudgetArithmetic(Posts(Verdicts(o, l, calls)), Run(o, r, calls).tokens, r.tokens, o.capacity,
                         Run(o, r, calls).lastRefillAt.value, r.lastRefillAt.value, from, now, until,
                         o.refillIntervalMs);
      }
    }
  }

  lemma QuotientNonNegative(a: int, b: int)
    requires a >= 0 && b > 0
    ensures a / b >= 0
  {
  }

  lemma QuotientMonotone(a: int, b: int, c: int)
    requires 0 <= a <= b && c > 0
    ensures a / c <= b / c
  {
    DivMod(a, c);
    DivMod(b, c);
    if a / c > b / c {
      MulMono(b / c + 1, a / c, c);
    }
  }

  lemma BudgetArithmetic(posts: nat, left: int, had: int, capacity: nat, last: int, first: int, from: int, now: int,
                         until: int, interval: int)
    requires interval > 0 && left >= 0 && had <= capacity && from <= now <= until
    requires (posts + left - had) * interval <= last - first
    requires last <= until && now - first < interval
    ensures posts <= capacity + (until - from) / interval + 1
  {
    var n := posts - capacity;
    MulMono(n, posts + left - had, interval);
    assert n * interval < until - from + interval;
    DivMod(until - from, interval);
    var k := (until - from) / interval;
    assert n * interval < (k + 2) * interval by {
      assert (k + 2) * interval == k * interval + 2 * interval;
    }
    if n >= k + 2 {
      MulMono(k + 2, n, interval);
    }
  }

  // ---- The reserve ----

  /** A routine message never takes a token out of the reserve; an alert is put off only when there is none at all. */
  lemma ReserveIsKept(o: Options, l: Limiter, q: Request, now: int)
    requires o.Valid() && LimiterSound(o, l, now)
    ensures var a := Admit(o, l, q, now);
            && (a.verdict.Post? && !IsAlert(q.level) ==> a.after.tokens >= o.reservedForAlerts)
            && (a.verdict.Defer? ==> IsAlert(q.level) && a.after.tokens == 0)
            && (a.verdict.Drop? ==> !IsAlert(q.level) && a.after.tokens <= o.reservedForAlerts)
  {
    RefillSound(o, l, now);
    hide Refill;
  }

  // ---- One key ----

  /** The last post of a key is never forgotten while its window runs. */
  lemma {:induction false} SameKeyApart(o: Options, l: Limiter, calls: seq<Call>, from: int, until: int, posted: int,
                                        j: nat)
    requires o.Valid() && LimiterSound(o, l, from) && Clocked(calls, from, until) && j < |calls| && from <= until
    requires calls[j].request.key in l.lastPostAt && posted <= l.lastPostAt[calls[j].request.key]
    requires forall k | k in l.lastPostAt :: l.lastPostAt[k] <= from
    ensures Verdicts(o, l, calls)[j].Post? ==> calls[j].now - posted >= o.aggregationWindowMs
    decreases j
  {
    ClockedRest(calls, from, until);
    var q, now := calls[0].request, calls[0].now;
    var a := Admit(o, l, q, now);
    AdmitSound(o, l, q, now);
    RefillSound(o, l, now);
    hide Refill;
    if j > 0 {
      assert Verdicts(o, l, calls)[j] == Verdicts(o, a.after, calls[1..])[j - 1];
      SameKeyApart(o, a.after, calls[1..], now, until, posted, j - 1);
    }
  }

  /** Two posts of one key are at least a window apart, however many calls lie between them. */
  lemma PostsOfAKeyApart(o: Options, l: Limiter, calls: seq<Call>, from: int, until: int, j: nat)
    requires o.Valid() && LimiterSound(o, l, from) && Clocked(calls, from, until) && 0 < j < |calls| && from <= until
    requires forall k | k in l.lastPostAt :: l.lastPostAt[k] <= from
    requires calls[0].request.key == calls[j].request.key
    requires Verdicts(o, l, calls)[0].Post? && Verdicts(o, l, calls)[j].Post?
    ensures calls[j].now - calls[0].now >= o.aggregationWindowMs
  {
    ClockedRest(calls, from, until);
    var a := Admit(o, l, calls[0].request, calls[0].now);
    AdmitSound(o, l, calls[0].request, calls[0].now);
    RefillSound(o, l, calls[0].now);
    hide Refill;
    assert Verdicts(o, l, calls)[j] == Verdicts(o, a.after, calls[1..])[j - 1];
    SameKeyApart(o, a.after, calls[1..], calls[0].now, until, calls[0].now, j - 1);
  }

  // ---- Nothing vanishes uncounted ----

  function Count(vs: seq<Verdict>, v: Verdict): nat {
    if vs == [] then 0 else (if vs[0] == v then 1 else 0) + Count(vs[1..], v)
  }

  function DroppedOnPosts(vs: seq<Verdict>): nat {
    if vs == [] then 0 else (if vs[0].Post? then vs[0].dropped else 0) + DroppedOnPosts(vs[1..])
  }

  /** The counts of a key's repeats that its posts carried out. */
  function SuppressedOnPosts(vs: seq<Verdict>, calls: seq<Call>, key: string): nat
    requires |vs| == |calls|
  {
    if vs == [] then 0 else
      (if vs[0].Post? && calls[0].request.key == key then vs[0].suppressed else 0)
      + SuppressedOnPosts(vs[1..], calls[1..], key)
  }

  function SuppressionsOf(vs: seq<Verdict>, calls: seq<Call>, key: string): nat
    requires |vs| == |calls|
  {
    if vs == [] then 0 else
      (if vs[0].Suppress? && calls[0].request.key == key then 1 else 0) + SuppressionsOf(vs[1..], calls[1..], key)
  }

  /** Every dropped message is in the count some post carried out, or still waits to be. */
  lemma {:induction false} DropsAreCounted(o: Options, l: Limiter, calls: seq<Call>)
    requires o.Valid()
    ensures DroppedOnPosts(Verdicts(o, l, calls)) + Run(o, l, calls).dropped
         == l.dropped + Count(Verdicts(o, l, calls), Drop)
    decreases |calls|
  {
    if calls != [] {
      var a := Admit(o, l, calls[0].request, calls[0].now);
      DropsAreCounted(o, a.after, calls[1..]);
      assert Verdicts(o, l, calls)[0] == a.verdict && Verdicts(o, l, calls)[1..] == Verdicts(o, a.after, calls[1..]);
      hide Verdicts;
    }
  }

  /** So is every suppressed repeat, key by key. */
  lemma {:induction false} RepeatsAreCounted(o: Options, l: Limiter, calls: seq<Call>, key: string)
    requires o.Valid()
    ensures SuppressedOnPosts(Verdicts(o, l, calls), calls, key) + Pending(Run(o, l, calls), key)
         == Pending(l, key) + SuppressionsOf(Verdicts(o, l, calls), calls, key)
    decreases |calls|
  {
    if calls != [] {
      var a := Admit(o, l, calls[0].request, calls[0].now);
      RepeatsAreCounted(o, a.after, calls[1..], key);
      assert Verdicts(o, l, calls)[0] == a.verdict && Verdicts(o, l, calls)[1..] == Verdicts(o, a.after, calls[1..]);
      hide Verdicts;
    }
  }

  // ---- What each request gets ----

  /** The tokens of a bucket that is refilled by one for every whole interval since its clock, up to its capacity. */
  ghost predicate Refilled(o: Options, l: Limiter, now: int, tokens: int) {
    match l.lastRefillAt
    case None => tokens == l.tokens
    case Some(last) =>
      exists intervals: nat ::
        && intervals * o.refillIntervalMs <= now - last < intervals * o.refillIntervalMs + o.refillIntervalMs
        && tokens == (if o.capacity < l.tokens + intervals then o.capacity else l.tokens + intervals)
  }

  lemma RefillCounts(o: Options, l: Limiter, now: int)
    requires o.Valid() && LimiterSound(o, l, now)
    ensures Refilled(o, l, now, Refill(o, l, now).tokens)
  {
    if l.lastRefillAt.Some? {
      var elapsed, interval := now - l.lastRefillAt.value, o.refillIntervalMs;
      DivMod(elapsed, interval);
      var intervals := elapsed / interval;
      if intervals < 0 {
        MulMono(intervals, -1, interval);
      }
      assert intervals * interval <= elapsed < intervals * interval + interval;
    }
  }

  /**
    A repeat within the window is suppressed and changes nothing but its count. Any other request is
    posted exactly when the refilled bucket has a token for it: any token for a WARN or a FAIL, one
    beyond the reserve for the rest; without it an alert waits and a routine message is dropped and
    counted. A post takes one token, starts its key's window, and carries both counts out.
   */
  lemma VerdictExactly(o: Options, l: Limiter, q: Request, now: int) returns (tokens: int)
    requires o.Valid() && LimiterSound(o, l, now)
    ensures Refilled(o, l, now, tokens)
    ensures var a := Admit(o, l, q, now);
            var floor := if q.level in {WARN, FAIL} then 0 else o.reservedForAlerts;
            var waiting := if q.key in l.suppressedByKey then l.suppressedByKey[q.key] else 0;
            if q.key in l.lastPostAt && now - l.lastPostAt[q.key] < o.aggregationWindowMs then
              && a.verdict == Suppress && Pending(a.after, q.key) == waiting + 1
              && a.after == l.(suppressedByKey := l.suppressedByKey[q.key := waiting + 1])
            else
              && a.after.tokens == tokens - (if tokens > floor then 1 else 0)
              && a.after.lastPostAt == (if tokens > floor then l.lastPostAt[q.key := now] else l.lastPostAt)
              && (tokens > floor ==>
                    && a.verdict == Post(waiting, l.dropped) && a.after.dropped == 0
                    && a.after.suppressedByKey == l.suppressedByKey - {q.key})
              && (tokens <= floor ==>
                    && a.after.suppressedByKey == l.suppressedByKey
                    && a.verdict == (if q.level in {WARN, FAIL} then Defer else Drop)
                    && a.after.dropped == l.dropped + (if q.level in {WARN, FAIL} then 0 else 1))
  {
    RefillSound(o, l, now);
    RefillCounts(o, l, now);
    hide Refill, Refilled;
    tokens := Refill(o, l, now).tokens;
  }

  /** The bucket is full again once its capacity in intervals has gone by, whatever was spent before. */
  lemma FullAfterQuiet(o: Options, l: Limiter, now: int)
    requires o.Valid() && LimiterSound(o, l, now) && l.lastRefillAt.Some?
    requires now - l.lastRefillAt.value >= o.capacity * o.refillIntervalMs
    ensures Refill(o, l, now).tokens == o.capacity
  {
    var elapsed, interval := now - l.lastRefillAt.value, o.refillIntervalMs;
    DivMod(elapsed, interval);
    if elapsed / interval < o.capacity {
      MulStrict(elapsed / interval, o.capacity, interval);
    }
  }

  // ---- When a run suppresses ----

  /** The limiter's clock of a key is the time of its latest post in the run. */
  ghost predicate PostedWithin(o: Options, l: Limiter, calls: seq<Call>, j: nat)
    requires o.Valid() && j < |calls|
  {
    exists i: nat :: i < j && Verdicts(o, l, calls)[i].Post? && calls[i].request.key == calls[j].request.key
                     && calls[j].now - calls[i].now < o.aggregationWindowMs
  }

  predicate LastPostWithin(o: Options, l: Limiter, c: Call) {
    c.request.key in l.lastPostAt && c.now - l.lastPostAt[c.request.key] < o.aggregationWindowMs
  }

  lemma {:induction false} SuppressedFrom(o: Options, l: Limiter, calls: seq<Call>, from: int, until: int, j: nat)
    requires o.Valid() && LimiterSound(o, l, from) && Clocked(calls, from, until) && j < |calls| && from <= until
    requires forall k | k in l.lastPostAt :: l.lastPostAt[k] <= from
    ensures Verdicts(o, l, calls)[j].Suppress? <==> PostedWithin(o, l, calls, j) || LastPostWithin(o, l, calls[j])
    decreases j
  {
    ClockedRest(calls, from, until);
    var q, now := calls[0].request, calls[0].now;
    var a := Admit(o, l, q, now);
    AdmitSound(o, l, q, now);
    RefillSound(o, l, now);
    hide Refill;
    var vs := Verdicts(o, l, calls);
    assert vs[0] == a.verdict && vs[1..] == Verdicts(o, a.after, calls[1..]);
    if j > 0 {
      SuppressedFrom(o, a.after, calls[1..], now, until, j - 1);
      hide Verdicts, Admit;
      var rest := Verdicts(o, a.after, calls[1..]);
      assert vs[j] == rest[j - 1] && calls[1..][j - 1] == calls[j];
      if PostedWithin(o, a.after, calls[1..], j - 1) {
        var i: nat :| i < j - 1 && rest[i].Post? && calls[1..][i].request.key == calls[j].request.key
                      && calls[j].now - calls[1..][i].now < o.aggregationWindowMs;
        assert vs[i + 1] == rest[i] && calls[i + 1] == calls[1..][i];
      }
      if PostedWithin(o, l, calls, j) {
        var i: nat :| i < j && vs[i].Post? && calls[i].request.key == calls[j].request.key
                      && calls[j].now - calls[i].now < o.aggregationWindowMs;
        if i > 0 {
          assert rest[i - 1] == vs[i] && calls[1..][i - 1] == calls[i];
          assert PostedWithin(o, a.after, calls[1..], j - 1);
        } else {
          PostStartsWindow(o, l, q, now);
        }
      }
      if LastPostWithin(o, a.after, calls[j]) || LastPostWithin(o, l, calls[j]) {
        WindowFrom(o, l, q, now, calls[j], vs[0]);
        if vs[0].Post? && q.key == calls[j].request.key && calls[j].now - now < o.aggregationWindowMs {
          assert PostedWithin(o, l, calls, j);
        }
      }
    }
  }

  lemma PostStartsWindow(o: Options, l: Limiter, q: Request, now: int)
    requires o.Valid() && Admit(o, l, q, now).verdict.Post?
    ensures q.key in Admit(o, l, q, now).after.lastPostAt && Admit(o, l, q, now).after.lastPostAt[q.key] == now
  {
    hide Refill;
  }

  /** The window a later call falls into is the one it fell into before, or the one this request starts. */
  lemma WindowFrom(o: Options, l: Limiter, q: Request, now: int, later: Call, verdict: Verdict)
    requires o.Valid() && verdict == Admit(o, l, q, now).verdict && LimiterSound(o, l, now)
    requires later.now >= now && forall k | k in l.lastPostAt :: l.lastPostAt[k] <= now
    ensures var started := verdict.Post? && q.key == later.request.key && later.now - now < o.aggregationWindowMs;
            && (LastPostWithin(o, Admit(o, l, q, now).after, later) ==> LastPostWithin(o, l, later) || started)
            && (LastPostWithin(o, l, later) ==> LastPostWithin(o, Admit(o, l, q, now).after, later))
  {
    RefillSound(o, l, now);
    hide Refill;
  }

  /**
    From a fresh limiter a request is suppressed exactly when a message of its key was posted less
    than a window ago.
   */
  lemma SuppressedExactly(o: Options, calls: seq<Call>, from: int, until: int, j: nat)
    requires o.Valid() && Clocked(calls, from, until) && j < |calls| && from <= until
    ensures Verdicts(o, Fresh(o), calls)[j].Suppress? <==>
              exists i: nat :: i < j && Verdicts(o, Fresh(o), calls)[i].Post?
                               && calls[i].request.key == calls[j].request.key
                               && calls[j].now - calls[i].now < o.aggregationWindowMs
  {
    hide Verdicts;
    SuppressedFrom(o, Fresh(o), calls, from, until, j);
  }
}
