/** The reporter's bounded queue: what a full queue gives up, and where every reported event ends. */
module Reporter {
  import opened Types
  import opened RateLimit

  const MAX_QUEUED := 100

  datatype Event = Event(level: Level, key: string)

  /** What the footer of a posted message says was lost on the way to it. */
  datatype Footer = Footer(suppressed: nat, dropped: nat, lost: nat)

  datatype Delivery = Delivered | NotDelivered | SecretSurvived | Threw

  datatype State = State(
    limiter: Limiter,
    queue: seq<Event>,
    inFlight: Option<Event>,
    closed: bool,
    reported: nat,             // events reported while open
    posted: nat,
    suppressed: nat,
    dropped: nat,
    alertsLost: nat,
    alertsLostPending: nat,
    blocked: nat,
    failed: nat,
    footers: seq<Footer>       // the footers handed to delivery, in order
  )

  function Opened(o: Options): State {
    State(Fresh(o), [], None, false, 0, 0, 0, 0, 0, 0, 0, 0, [])
  }

  /** The first routine event of a queue, or its length. */
  function FirstRoutine(queue: seq<Event>): (i: nat)
    ensures i <= |queue|
    ensures forall j | 0 <= j < i :: IsAlert(queue[j].level)
    ensures i < |queue| ==> !IsAlert(queue[i].level)
  {
    if queue == [] || !IsAlert(queue[0].level) then 0 else 1 + FirstRoutine(queue[1..])
  }

  predicate KeyQueued(queue: seq<Event>, key: string) {
    exists i :: 0 <= i < |queue| && queue[i].key == key
  }

  datatype Room = Room(after: State, admitted: bool)

  /** `admitToFullQueue`: who makes room for an event, or that it is the event itself that goes. */
  function AdmitToFullQueue(s: State, e: Event): Room {
    var i := FirstRoutine(s.queue);
    if i < |s.queue| then Room(s.(queue := s.queue[..i] + s.queue[i + 1..], dropped := s.dropped + 1), true)
    else if !IsAlert(e.level) then Room(s.(dropped := s.dropped + 1), false)
    else if KeyQueued(s.queue, e.key) then Room(s.(suppressed := s.suppressed + 1), false)
    else Room(s.(queue := if s.queue == [] then [] else s.queue[1..], alertsLost := s.alertsLost + 1,
                 alertsLostPending := s.alertsLostPending + 1), true)
  }

  /** `report`, on an enabled reporter. */
  function Report(s: State, e: Event): State {
    if s.closed then s else
      var counted := s.(reported := s.reported + 1);
      var room := if |s.queue| >= MAX_QUEUED then AdmitToFullQueue(counted, e) else Room(counted, true);
      if room.admitted then room.after.(queue := room.after.queue + [e]) else room.after
  }

  /** One turn of the drain loop: the head is put off, given up, or handed to delivery. */
  function DrainHead(o: Options, s: State, now: int): State
    requires o.Valid() && s.queue != []
  {
    var head := s.queue[0];
    var a := Admit(o, s.limiter, RateLimit.Request(head.level, head.key), now);
    var admitted := s.(limiter := a.after);
    match a.verdict
    case Defer => admitted
    case Suppress => admitted.(queue := s.queue[1..], suppressed := s.suppressed + 1)
    case Drop => admitted.(queue := s.queue[1..], dropped := s.dropped + 1)
    case Post(suppressed, dropped) =>
      admitted.(queue := s.queue[1..], inFlight := Some(head), alertsLostPending := 0,
                footers := s.footers + [Footer(suppressed, dropped, s.alertsLostPending)])
  }

  predicate Deferred(o: Options, s: State, now: int)
    requires o.Valid() && s.queue != []
  {
    Admit(o, s.limiter, RateLimit.Request(s.queue[0].level, s.queue[0].key), now).verdict.Defer?
  }

  /** How a delivery ends; one that throws is counted where the drain catches it. */
  function Land(s: State, d: Delivery): State {
    var landed := s.(inFlight := None);
    match d
    case Delivered => landed.(posted := s.posted + 1)
    case NotDelivered => landed.(failed := s.failed + 1)
    case SecretSurvived => landed.(blocked := s.blocked + 1)
    case Threw => landed.(failed := s.failed + 1)
  }

  /** A whole pass of the drain loop; a delivery that throws ends it. */
  function DrainOnce(o: Options, s: State, turn: nat, clock: nat -> int, outcome: nat -> Delivery): State
    requires o.Valid()
    decreases |s.queue|
  {
    if s.queue == [] || Deferred(o, s, clock(turn)) then
      if s.queue == [] then s else DrainHead(o, s, clock(turn))
    else
      var next := DrainHead(o, s, clock(turn));
      if next.inFlight == s.inFlight then DrainOnce(o, next, turn + 1, clock, outcome)
      else
        var landed := Land(next, outcome(turn));
        if outcome(turn).Threw? then landed else DrainOnce(o, landed, turn + 1, clock, outcome)
  }

  class EventReporter {
    const options: Options
    const limiter: RateLimiter
    var queue: seq<Event>
    var inFlight: Option<Event>
    var closed: bool
    var reported: nat
    var posted: nat
    var suppressed: nat
    var dropped: nat
    var alertsLost: nat
    var alertsLostPending: nat
    var blocked: nat
    var failed: nat
    var footers: seq<Footer>

    function Contents(): State
      reads this, limiter
    {
      State(limiter.State(), queue, inFlight, closed, reported, posted, suppressed, dropped, alertsLost,
            alertsLostPending, blocked, failed, footers)
    }

    predicate Valid()
      reads this
    {
      options.Valid() && limiter.options == options && inFlight.None? && |queue| <= MAX_QUEUED
    }

    constructor (options: Options)
      requires options.Valid()
      ensures Valid() && Contents() == Opened(options) && this.options == options && fresh(limiter)
    {
      this.options := options;
      limiter := new RateLimiter(options);
      queue, inFlight, closed, reported, posted := [], None, false, 0, 0;
      suppressed, dropped, alertsLost, alertsLostPending, blocked, failed := 0, 0, 0, 0, 0, 0;
      footers := [];
    }

    method MakeRoom(e: Event) returns (admitted: bool)
      modifies this`queue, this`dropped, this`suppressed, this`alertsLost, this`alertsLostPending
      ensures Room(Contents(), admitted) == AdmitToFullQueue(old(Contents()), e)
    {
      var routine := FirstRoutine(queue);
      if routine < |queue| {
        queue := queue[..routine] + queue[routine + 1..];
        dropped := dropped + 1;
        return true;
      }
      if !IsAlert(e.level) {
        dropped := dropped + 1;
        return false;
      }
      if KeyQueued(queue, e.key) {
        suppressed := suppressed + 1;
        return false;
      }
      queue := if queue == [] then [] else queue[1..];
      alertsLost := alertsLost + 1;
      alertsLostPending := alertsLostPending + 1;
      return true;
    }

    method ReportEvent(e: Event)
      requires Valid()
      modifies this
      ensures Valid() && Contents() == Report(old(Contents()), e)
    {
      if closed {
        return;
      }
      reported := reported + 1;
      if |queue| >= MAX_QUEUED {
        var admitted := MakeRoom(e);
        if !admitted {
          return;
        }
      }
      queue := queue + [e];
    }

    /** The head of the queue is put off, given up, or taken out for delivery. */
    method TakeHead(now: int) returns (verdict: Verdict)
      requires Valid() && queue != []
      modifies this, limiter
      ensures Contents() == DrainHead(options, old(Contents()), now)
      ensures options.Valid() && limiter.options == options && |queue| <= MAX_QUEUED
      ensures verdict.Defer? <==> Deferred(options, old(Contents()), now)
      ensures verdict.Post? <==> inFlight.Some?
      ensures !verdict.Defer? ==> queue == old(queue)[1..]
    {
      hide Admit;
      var head := queue[0];
      verdict := limiter.AdmitRequest(RateLimit.Request(head.level, head.key), now);
      match verdict
      case Defer =>
      case Suppress =>
        queue := queue[1..];
        suppressed := suppressed + 1;
      case Drop =>
        queue := queue[1..];
        dropped := dropped + 1;
      case Post(repeats, lost) =>
        queue := queue[1..];
        inFlight := Some(head);
        footers := footers + [Footer(repeats, lost, alertsLostPending)];
        alertsLostPending := 0;
    }

    method LandDelivery(d: Delivery)
      requires inFlight.Some?
      modifies this`inFlight, this`posted, this`failed, this`blocked
      ensures Contents() == Land(old(Contents()), d) && inFlight.None?
    {
      inFlight := None;
      match d
      case Delivered => posted := posted + 1;
      case NotDelivered => failed := failed + 1;
      case SecretSurvived => blocked := blocked + 1;
      case Threw => failed := failed + 1;
    }

    /** `drainOnce`, with the clock and the outcome of each delivery as the world supplies them. */
    method Drain(clock: nat -> int, outcome: nat -> Delivery)
      requires Valid()
      modifies this, limiter
      ensures Valid() && Contents() == DrainOnce(options, old(Contents()), 0, clock, outcome)
    {
      hide Admit, DrainHead, Deferred, Land;
      var turn := 0;
      while queue != []
        invariant Valid()
        invariant DrainOnce(options, old(Contents()), 0, clock, outcome)
               == DrainOnce(options, Contents(), turn, clock, outcome)
        decreases |queue|
      {
        var verdict := TakeHead(clock(turn));
        if verdict.Defer? {
          return;
        }
        turn := turn + 1;
        if verdict.Post? {
          LandDelivery(outcome(turn - 1));
          if outcome(turn - 1).Threw? {
            return;
          }
        }
      }
    }
  }

  // ---- What every state keeps ----

  function LostOnFooters(footers: seq<Footer>): nat {
    if footers == [] then 0 else LostOnFooters(footers[..|footers| - 1]) + footers[|footers| - 1].lost
  }

  /** The queue is bounded, every reported event is in exactly one place, and lost alerts are told or to be told. */
  predicate Sound(s: State) {
    && |s.queue| <= MAX_QUEUED
    && s.reported == s.posted + s.suppressed + s.dropped + s.alertsLost + s.blocked + s.failed
                     + |s.queue| + (if s.inFlight.Some? then 1 else 0)
    && s.alertsLost == LostOnFooters(s.footers) + s.alertsLostPending
  }

  datatype Step = Reports(e: Event) | Drains(now: int) | Lands(outcome: Delivery) | Closes

  /** The drain handles one event at a time; anything may be reported meanwhile. */
  predicate Enabled(s: State, step: Step) {
    match step
    case Drains(_) => s.queue != [] && s.inFlight.None?
    case Lands(_) => s.inFlight.Some?
    case _ => true
  }

  function After(o: Options, s: State, step: Step): State
    requires o.Valid() && Enabled(s, step)
  {
    match step
    case Reports(e) => Report(s, e)
    case Drains(now) => DrainHead(o, s, now)
    case Lands(d) => Land(s, d)
    case Closes => s.(closed := true)
  }

  lemma StepKeeps(o: Options, s: State, step: Step)
    requires o.Valid() && Sound(s) && Enabled(s, step)
    ensures Sound(After(o, s, step))
  {
    hide Admit;
    if step.Drains? {
      var next := After(o, s, step);
      assert next.footers != s.footers ==> next.footers[..|next.footers| - 1] == s.footers;
    }
    hide LostOnFooters;
  }

  function RunFrom(o: Options, s: State, steps: seq<Step>): State
    requires o.Valid() && Possible(o, s, steps)
    decreases |steps|
  {
    if steps == [] then s else RunFrom(o, After(o, s, steps[0]), steps[1..])
  }

  predicate Possible(o: Options, s: State, steps: seq<Step>)
    requires o.Valid()
    decreases |steps|
  {
    steps != [] ==> Enabled(s, steps[0]) && Possible(o, After(o, s, steps[0]), steps[1..])
  }

  /**
    Conservation over every interleaving of reports, drain turns and deliveries: the queue never
    exceeds its bound, every event reported while open is counted in exactly one outcome or is
    still queued or in flight, and the alerts lost are those footers told plus those still to tell.
   */
  lemma {:induction false} RunKeeps(o: Options, s: State, steps: seq<Step>)
    requires o.Valid() && Sound(s) && Possible(o, s, steps)
    ensures Sound(RunFrom(o, s, steps))
    decreases |steps|
  {
    hide Sound, After, Enabled;
    if steps != [] {
      StepKeeps(o, s, steps[0]);
      RunKeeps(o, After(o, s, steps[0]), steps[1..]);
    }
  }

  /** The reporter is opened sound. */
  lemma OpenedSound(o: Options)
    ensures Sound(Opened(o))
  {
  }

  /** So from its opening on, whatever is reported, put off, given up or lost: every event is in exactly one place. */
  lemma EveryEventIsSomewhere(o: Options, steps: seq<Step>)
    requires o.Valid() && Possible(o, Opened(o), steps)
    ensures var end := RunFrom(o, Opened(o), steps);
            && |end.queue| <= MAX_QUEUED
            && end.reported == end.posted + end.suppressed + end.dropped + end.alertsLost + end.blocked + end.failed
                               + |end.queue| + (if end.inFlight.Some? then 1 else 0)
            && end.alertsLost == LostOnFooters(end.footers) + end.alertsLostPending
  {
    hide RunFrom, Possible, LostOnFooters;
    OpenedSound(o);
    RunKeeps(o, Opened(o), steps);
  }

  // ---- Who makes room ----

  predicate RoutineQueued(queue: seq<Event>) {
    exists i :: 0 <= i < |queue| && !IsAlert(queue[i].level)
  }

  /**
    An alert is evicted exactly when a new alert of a key nobody queued arrives at a queue full of
    alerts; while any routine event is queued it is a routine event that goes, and a routine
    arrival never displaces an alert.
   */
  lemma AlertEvictedExactly(s: State, e: Event)
    requires Sound(s) && !s.closed
    ensures var after := Report(s, e);
            after.alertsLost > s.alertsLost <==>
              |s.queue| == MAX_QUEUED && !RoutineQueued(s.queue) && IsAlert(e.level) && !KeyQueued(s.queue, e.key)
    ensures var after := Report(s, e);
            after.alertsLost == s.alertsLost ==>
              forall a: Event | IsAlert(a.level) :: multiset(s.queue)[a] <= multiset(after.queue)[a]
  {
    hide LostOnFooters;
    var i := FirstRoutine(s.queue);
    assert i < |s.queue| <==> RoutineQueued(s.queue);
    hide RoutineQueued;
    if i < |s.queue| {
      AlertsStay(s.queue, i, e);
    }
  }

  lemma AlertsStay(queue: seq<Event>, i: nat, e: Event)
    requires i < |queue| && !IsAlert(queue[i].level)
    ensures forall a: Event | IsAlert(a.level) :: multiset(queue)[a] <= multiset(queue[..i] + queue[i + 1..] + [e])[a]
  {
    assert queue == queue[..i] + [queue[i]] + queue[i + 1..];
  }
}
