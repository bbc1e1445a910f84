/** Which events the reporter hands over and in what order, and where each of the others is counted. */
module ReporterOrder {
  import opened Types
  import opened RateLimit
  import opened Reporter

  // ---- Subsequences ----

  /** `a` is what is left of `b` after taking some elements out. */
  predicate Subsequence<T(==)>(a: seq<T>, b: seq<T>)
    decreases |b|
  {
    a == [] || (b != [] && ((a[0] == b[0] && Subsequence(a[1..], b[1..])) || Subsequence(a, b[1..])))
  }

  lemma {:induction false} SubReflexive<T>(a: seq<T>)
    ensures Subsequence(a, a)
    decreases |a|
  {
    if a != [] {
      SubReflexive(a[1..]);
    }
  }

  lemma {:induction false} SubTransitive<T>(a: seq<T>, b: seq<T>, c: seq<T>)
    requires Subsequence(a, b) && Subsequence(b, c)
    ensures Subsequence(a, c)
    decreases |b| + |c|
  {
    if a != [] {
      if b[0] == c[0] && Subsequence(b[1..], c[1..]) {
        if a[0] == b[0] && Subsequence(a[1..], b[1..]) {
          SubTransitive(a[1..], b[1..], c[1..]);
        } else {
          SubTransitive(a, b[1..], c[1..]);
        }
      } else {
        SubTransitive(a, b, c[1..]);
      }
    }
  }

  lemma {:induction false} SubSuffix<T>(a: seq<T>, b: seq<T>, c: seq<T>)
    requires Subsequence(a, b)
    ensures Subsequence(a + c, b + c)
    decreases |b|
  {
    if b == [] {
      SubReflexive(c);
      assert a + c == c && b + c == c;
    } else {
      assert (b + c)[1..] == b[1..] + c;
      if a == [] {
        assert [] + c == c && a + c == c;
        SubSuffix([], b[1..], c);
      } else if a[0] == b[0] && Subsequence(a[1..], b[1..]) {
        assert (a + c)[1..] == a[1..] + c;
        SubSuffix(a[1..], b[1..], c);
      } else {
        SubSuffix(a, b[1..], c);
      }
    }
  }

  lemma {:induction false} SubRemove<T>(a: seq<T>, i: nat)
    requires i < |a|
    ensures Subsequence(a[..i] + a[i + 1..], a)
    decreases i
  {
    var less := a[..i] + a[i + 1..];
    if i == 0 {
      assert less == a[1..];
      SubReflexive(a[1..]);
    } else {
      assert less[0] == a[0] && less[1..] == a[1..][..i - 1] + a[1..][i..];
      SubRemove(a[1..], i - 1);
    }
  }

  // ---- Where an event goes ----

  /** The oldest routine event of the queue is at `i`. */
  predicate OldestRoutine(queue: seq<Event>, i: nat) {
    && i < |queue| && queue[i].level in {INFO, OK}
    && forall j | 0 <= j < i :: queue[j].level in {WARN, FAIL}
  }

  /**
    An open reporter with room queues the event last and counts nothing against anyone. A full one
    gives up its oldest routine event; if there is none, a routine arrival is dropped, an alert whose
    key is already queued is suppressed, and any other alert displaces the oldest one.
   */
  lemma ReportExactly(s: State, e: Event)
    requires !s.closed && |s.queue| <= MAX_QUEUED
    ensures var after := Report(s, e);
            var same := s.(queue := after.queue, reported := s.reported + 1);
            && (|s.queue| < 100 ==> after == same && after.queue == s.queue + [e])
            && (|s.queue| == 100 ==>
                  && (forall i: nat | OldestRoutine(s.queue, i) ::
                        after == same.(dropped := s.dropped + 1)
                        && after.queue == s.queue[..i] + s.queue[i + 1..] + [e])
                  && ((forall i | 0 <= i < |s.queue| :: s.queue[i].level in {WARN, FAIL}) ==>
                        if e.level in {INFO, OK} then after == same.(dropped := s.dropped + 1) && after.queue == s.queue
                        else if exists i :: 0 <= i < |s.queue| && s.queue[i].key == e.key
                        then after == same.(suppressed := s.suppressed + 1) && after.queue == s.queue
                        else after == same.(alertsLost := s.alertsLost + 1,
                                            alertsLostPending := s.alertsLostPending + 1)
                             && after.queue == s.queue[1..] + [e]))
  {
    var i := FirstRoutine(s.queue);
    hide FirstRoutine;
  }

  /** A turn of the drain gives its head what the limiter says of it, and leaves the rest queued. */
  lemma DrainExactly(o: Options, s: State, now: int)
    requires o.Valid() && s.queue != []
    ensures var head, a := s.queue[0], Admit(o, s.limiter, RateLimit.Request(s.queue[0].level, s.queue[0].key), now);
            var after := DrainHead(o, s, now);
            && after.limiter == a.after && after.reported == s.reported && after.posted == s.posted
            && after.queue == (if a.verdict == Defer then s.queue else s.queue[1..])
            && after.suppressed == s.suppressed + (if a.verdict == Suppress then 1 else 0)
            && after.dropped == s.dropped + (if a.verdict == Drop then 1 else 0)
            && after.alertsLost == s.alertsLost
            && (a.verdict.Post? ==>
                  && after.inFlight == Some(head) && after.alertsLostPending == 0
                  && after.footers
                     == s.footers + [Footer(a.verdict.suppressed, a.verdict.dropped, s.alertsLostPending)])
            && (!a.verdict.Post? ==>
                  after.inFlight == s.inFlight && after.footers == s.footers
                  && after.alertsLostPending == s.alertsLostPending)
  {
    hide Admit;
  }

  // ---- Every run ----

  /** How often a delivery of the run ended in a way. */
  function LandedAs(steps: seq<Step>, d: Delivery): nat {
    if steps == [] then 0 else (if steps[0] == Lands(d) then 1 else 0) + LandedAs(steps[1..], d)
  }

  /** Every delivery is counted as what it was: delivered, not delivered or thrown, or stopped for a secret. */
  lemma {:induction false} DeliveriesCounted(o: Options, s: State, steps: seq<Step>)
    requires o.Valid() && Possible(o, s, steps)
    ensures var end := RunFrom(o, s, steps);
            && end.posted == s.posted + LandedAs(steps, Delivered)
            && end.failed == s.failed + LandedAs(steps, NotDelivered) + LandedAs(steps, Threw)
            && end.blocked == s.blocked + LandedAs(steps, SecretSurvived)
    decreases |steps|
  {
    hide Admit, AdmitToFullQueue;
    if steps != [] {
      OneCounted(o, s, steps[0]);
      hide After, Enabled;
      DeliveriesCounted(o, After(o, s, steps[0]), steps[1..]);
    }
  }

  lemma OneCounted(o: Options, s: State, step: Step)
    requires o.Valid() && Enabled(s, step)
    ensures var after := After(o, s, step);
            && after.posted == s.posted + (if step == Lands(Delivered) then 1 else 0)
            && after.failed == s.failed + (if step == Lands(NotDelivered) || step == Lands(Threw) then 1 else 0)
            && after.blocked == s.blocked + (if step == Lands(SecretSurvived) then 1 else 0)
  {
    hide Admit, FirstRoutine;
  }

  /** The events a run reports. */
  function ReportedIn(steps: seq<Step>): seq<Event> {
    if steps == [] then [] else (if steps[0].Reports? then [steps[0].e] else []) + ReportedIn(steps[1..])
  }

  /** The event a turn hands to delivery. */
  function HandedBy(o: Options, s: State, step: Step): seq<Event>
    requires o.Valid() && Enabled(s, step)
  {
    var after := After(o, s, step);
    if step.Drains? && after.inFlight.Some? then [after.inFlight.value] else []
  }

  function HandedOver(o: Options, s: State, steps: seq<Step>): seq<Event>
    requires o.Valid() && Possible(o, s, steps)
    decreases |steps|
  {
    if steps == [] then [] else HandedBy(o, s, steps[0]) + HandedOver(o, After(o, s, steps[0]), steps[1..])
  }

  /** A step hands over the head of the queue, or takes some event out; what it reports goes last. */
  lemma StepKeepsSequence(o: Options, s: State, step: Step)
    requires o.Valid() && Enabled(s, step)
    ensures Subsequence(HandedBy(o, s, step) + After(o, s, step).queue,
                        s.queue + if step.Reports? then [step.e] else [])
  {
    var after := After(o, s, step);
    match step
    case Reports(e) =>
      assert HandedBy(o, s, step) + after.queue == after.queue;
      ReportKeepsSequence(s, e);
    case Drains(now) =>
      DrainExactly(o, s, now);
      hide DrainHead, Admit;
      SubReflexive(s.queue);
      SubReflexive(s.queue[1..]);
      assert s.queue + [] == s.queue && [s.queue[0]] + s.queue[1..] == s.queue;
      assert HandedBy(o, s, step) + after.queue in {s.queue, s.queue[1..]} by {
        assert [] + s.queue == s.queue && [] + s.queue[1..] == s.queue[1..];
      }
    case Lands(d) =>
      SubReflexive(s.queue);
      assert [] + s.queue == s.queue && s.queue + [] == s.queue;
    case Closes =>
      SubReflexive(s.queue);
      assert [] + s.queue == s.queue && s.queue + [] == s.queue;
  }

  /** Taking one event out and adding the new one last. */
  lemma Displaced(queue: seq<Event>, i: nat, e: Event)
    requires i < |queue|
    ensures Subsequence(queue[..i] + queue[i + 1..] + [e], queue + [e])
  {
    SubRemove(queue, i);
    SubSuffix(queue[..i] + queue[i + 1..], queue, [e]);
  }

  lemma Ignored(queue: seq<Event>, e: Event)
    ensures Subsequence(queue, queue + [e])
  {
    SubRemove(queue + [e], |queue|);
    assert (queue + [e])[..|queue|] + (queue + [e])[|queue| + 1..] == queue;
  }

  lemma ReportedQueue(s: State, e: Event)
    ensures var after := Report(s, e).queue;
            || after == s.queue || after == s.queue + [e] || (s.queue != [] && after == s.queue[1..] + [e])
            || exists i: nat :: i < |s.queue| && after == s.queue[..i] + s.queue[i + 1..] + [e]
  {
    var i := FirstRoutine(s.queue);
    hide FirstRoutine;
    if i < |s.queue| {
      assert s.queue[..i] + s.queue[i + 1..] + [e] == s.queue[..i] + s.queue[i + 1..] + [e];
    }
  }

  lemma ReportKeepsSequence(s: State, e: Event)
    ensures Subsequence(Report(s, e).queue, s.queue + [e])
  {
    ReportedQueue(s, e);
    hide Report, Subsequence;
    var after := Report(s, e).queue;
    SubReflexive(s.queue + [e]);
    Ignored(s.queue, e);
    if s.queue != [] && after == s.queue[1..] + [e] {
      Displaced(s.queue, 0, e);
      assert s.queue[..0] + s.queue[1..] + [e] == after;
    } else if after != s.queue && after != s.queue + [e] {
      var i: nat :| i < |s.queue| && after == s.queue[..i] + s.queue[i + 1..] + [e];
      Displaced(s.queue, i, e);
    }
  }

  lemma {:induction false} SubPrefix<T>(h: seq<T>, a: seq<T>, b: seq<T>)
    requires Subsequence(a, b)
    ensures Subsequence(h + a, h + b)
    decreases |h|
  {
    if h == [] {
      assert h + a == a && h + b == b;
    } else {
      assert (h + a)[1..] == h[1..] + a && (h + b)[1..] == h[1..] + b;
      SubPrefix(h[1..], a, b);
    }
  }

  /**
    First come, first served: what is handed to delivery, followed by what is still queued, is what was
    queued and reported, in that order, with some events taken out.
   */
  lemma {:induction false} FirstComeFirstServed(o: Options, s: State, steps: seq<Step>)
    requires o.Valid() && Possible(o, s, steps)
    ensures Subsequence(HandedOver(o, s, steps) + RunFrom(o, s, steps).queue, s.queue + ReportedIn(steps))
    decreases |steps|
  {
    hide After, Enabled, HandedBy, Subsequence;
    if steps == [] {
      assert [] + s.queue == s.queue && s.queue + [] == s.queue;
      SubReflexive(s.queue);
    } else {
      var next, rest := After(o, s, steps[0]), steps[1..];
      var handed, reported := HandedBy(o, s, steps[0]), if steps[0].Reports? then [steps[0].e] else [];
      StepKeepsSequence(o, s, steps[0]);
      FirstComeFirstServed(o, next, rest);
      var later, end := HandedOver(o, next, rest), RunFrom(o, next, rest).queue;
      SubPrefix(handed, later + end, next.queue + ReportedIn(rest));
      SubSuffix(handed + next.queue, s.queue + reported, ReportedIn(rest));
      assert handed + (next.queue + ReportedIn(rest)) == (handed + next.queue) + ReportedIn(rest);
      SubTransitive(handed + (later + end), (handed + next.queue) + ReportedIn(rest),
                    (s.queue + reported) + ReportedIn(rest));
      assert handed + (later + end) == HandedOver(o, s, steps) + end;
      assert (s.queue + reported) + ReportedIn(rest) == s.queue + ReportedIn(steps);
    }
  }
}
