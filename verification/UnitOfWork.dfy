/** The retry rule of the unit of work, and what a client that resubmits gets out of it. */
module UnitOfWork {
  import opened Types
  import opened LedgerModel
  import opened LedgerInvariants
  import opened LedgerSteps
  import opened LedgerRuns

  // ---- The rule ----

  /** What one attempt comes to. */
  datatype Attempt =
    | Aborted                         // 40001 or 40P01 before the commit was sent
    | Refused(code: ErrorCode)        // a domain error, or any other failure, before the commit was sent
    | Committed
    | CommitAborted                   // the commit came back 40001 or 40P01: the transaction did not happen
    | CommitUnknown(applied: bool)    // any other failure after the commit was sent

  predicate Retryable(a: Attempt) {
    a.Aborted? || a.CommitAborted?
  }

  function Effects(a: Attempt): nat {
    match a
    case Committed => 1
    case CommitUnknown(applied) => if applied then 1 else 0
    case _ => 0
  }

  datatype Outcome = Returned | Threw(code: ErrorCode) | Unknown | Exhausted

  datatype Report = Report(outcome: Outcome, attempts: nat, effects: nat)

  function OutcomeOf(a: Attempt): Outcome
    requires !Retryable(a)
  {
    match a
    case Refused(code) => Threw(code)
    case Committed => Returned
    case CommitUnknown(_) => Unknown
  }

  class Runner {
    const maxRetries: nat

    constructor (maxRetries: nat)
      ensures this.maxRetries == maxRetries
    {
      this.maxRetries := maxRetries;
    }

    /**
      `run` against any world: it stops at the first attempt that is not retryable, so an unknown
      commit is never replayed; it makes at most maxRetries + 1 attempts; and the work takes effect
      at most once, exactly once when it returns, and not at all when it throws or gives up.
     */
    method Run(world: nat -> Attempt) returns (report: Report)
      ensures 1 <= report.attempts <= maxRetries + 1 && report.effects <= 1
      ensures forall k | 1 <= k < report.attempts :: world(k).Aborted? || world(k).CommitAborted?
      ensures match world(report.attempts)
              case Committed => report.outcome == Returned && report.effects == 1
              case Refused(code) => report.outcome == Threw(code) && report.effects == 0
              case CommitUnknown(applied) => report.outcome == Unknown && (report.effects == 1 <==> applied)
              case Aborted => report.outcome == Exhausted && report.effects == 0
              case CommitAborted => report.outcome == Exhausted && report.effects == 0
      ensures report.outcome.Exhausted? ==> report.attempts == maxRetries + 1
    {
      var attempt, effects := 1, 0;
      while true
        invariant 1 <= attempt <= maxRetries + 1 && effects == 0
        invariant forall k | 1 <= k < attempt :: Retryable(world(k))
        decreases maxRetries + 1 - attempt
      {
        var a := world(attempt);
        effects := effects + Effects(a);
        if !Retryable(a) {
          return Report(OutcomeOf(a), attempt, effects);
        }
        if attempt > maxRetries {
          return Report(Exhausted, attempt, effects);
        }
        attempt := attempt + 1;
      }
    }
  }

  // ---- A placement, retried and resubmitted ----

  /** A single order or an OCO pair: the two placements that go through an idempotency key. */
  datatype Placement = Single(single: PlaceCommand) | Pair(pair: OcoCommand) {
    function Key(): RequestKey {
      match this
      case Single(p) => RequestKey(p.session, p.key)
      case Pair(p) => RequestKey(p.session, p.key)
    }

    function Hash(): string {
      match this
      case Single(p) => p.hash
      case Pair(p) => p.hash
    }

    function AsCommand(): (c: Command)
      ensures ValidCommand(c)
    {
      match this
      case Single(p) => Place(p)
      case Pair(p) => PlaceOco(p)
    }
  }

  function Commit(t: Tables, p: Placement): Result<Placed> {
    match p
    case Single(o) => CommitTradingMutation(t, o)
    case Pair(o) => CommitOcoPlacement(t, o)
  }

  datatype Fate = Deadlocks | Breaks | Commits | CommitDeadlocks | CommitLost(applied: bool)

  /** What others commit before an attempt, and what becomes of the attempt itself. */
  datatype Turn = Turn(others: seq<Command>, fate: Fate)

  ghost predicate ValidTurns(turns: nat -> Turn) {
    forall k :: ValidCommands(turns(k).others)
  }

  datatype Answer = Replied(reply: Reply) | Rejected(code: ErrorCode) | Lost | GaveUp

  /** A submission when it has ended: its answer, and everything that reached the ledger while it ran. */
  datatype Submission = Submission(answer: Answer, commands: seq<Command>)

  /** The attempt is retried: it deadlocked before its commit, or its commit did. */
  ghost predicate Retries(now: Tables, p: Placement, fate: Fate) {
    fate.Deadlocks? || (Commit(now, p).Ok? && fate.CommitDeadlocks?)
  }

  /** One `run` of a placement, its attempts interleaved with everybody else's transactions. */
  ghost function Submit(t: Tables, p: Placement, maxRetries: nat, attempt: nat, turns: nat -> Turn): (s: Submission)
    requires ValidTurns(turns) && 1 <= attempt <= maxRetries + 1
    ensures ValidCommands(s.commands)
    decreases maxRetries + 1 - attempt
  {
    var turn := turns(attempt);
    var now := Run(t, turn.others);
    var r := Commit(now, p);
    if turn.fate.Breaks? then Submission(Rejected(SERVICE_UNAVAILABLE), turn.others)
    else if Retries(now, p, turn.fate) then
      if attempt > maxRetries then Submission(GaveUp, turn.others) else
        var rest := Submit(now, p, maxRetries, attempt + 1, turns);
        Submission(rest.answer, turn.others + rest.commands)
    else if r.Err? then Submission(Rejected(r.code), turn.others)
    else if turn.fate.Commits? then Submission(Replied(r.value.reply), turn.others + [p.AsCommand()])
    else
      Submission(Lost, if turn.fate.CommitLost? && turn.fate.applied then turn.others + [p.AsCommand()]
                       else turn.others)
  }

  /** What others commit up to and with the given attempt. */
  ghost function Meanwhile(turns: nat -> Turn, first: nat, last: nat): (cs: seq<Command>)
    requires ValidTurns(turns) && first <= last
    ensures ValidCommands(cs)
    decreases last - first
  {
    if first == last then turns(first).others else turns(first).others + Meanwhile(turns, first + 1, last)
  }

  /** What a submission answers, and what it leaves in the ledger, when its attempts ended with this one. */
  ghost predicate EndsWith(s: Submission, p: Placement, now: Tables, fate: Fate, before: seq<Command>) {
    match fate
    case Breaks => s == Submission(Rejected(SERVICE_UNAVAILABLE), before)
    case Deadlocks => s == Submission(GaveUp, before)
    case _ =>
      match Commit(now, p)
      case Err(code) => s == Submission(Rejected(code), before)
      case Ok(placed) =>
        match fate
        case Commits => s == Submission(Replied(placed.reply), before + [p.AsCommand()])
        case CommitDeadlocks => s == Submission(GaveUp, before)
        case CommitLost(applied) => s == Submission(Lost, if applied then before + [p.AsCommand()] else before)
  }

  /**
    A submission is the last of its attempts: every earlier one deadlocked, before its commit or in
    it, and left nothing; it gives up only after the last attempt it is allowed. What the last one
    meets is what all the others have committed by then.
   */
  lemma {:induction false} SubmissionEnds(t: Tables, p: Placement, maxRetries: nat, attempt: nat, turns: nat -> Turn)
    returns (last: nat)
    requires ValidTurns(turns) && 1 <= attempt <= maxRetries + 1
    ensures attempt <= last <= maxRetries + 1
    ensures forall k | attempt <= k < last ::
              || turns(k).fate.Deadlocks?
              || (turns(k).fate.CommitDeadlocks? && Commit(Run(t, Meanwhile(turns, attempt, k)), p).Ok?)
    ensures var s, before := Submit(t, p, maxRetries, attempt, turns), Meanwhile(turns, attempt, last);
            && EndsWith(s, p, Run(t, before), turns(last).fate, before)
            && (s.answer.GaveUp? ==> last == maxRetries + 1)
    decreases maxRetries + 1 - attempt
  {
    hide Run, Commit, ValidCommands, ValidCommand, Apply, Placement.AsCommand;
    var turn := turns(attempt);
    var now := Run(t, turn.others);
    last := attempt;
    if Retries(now, p, turn.fate) && attempt <= maxRetries {
      last := SubmissionEnds(now, p, maxRetries, attempt + 1, turns);
      forall k | attempt < k <= last
        ensures Run(t, Meanwhile(turns, attempt, k)) == Run(now, Meanwhile(turns, attempt + 1, k))
      {
        RunAppend(t, turn.others, Meanwhile(turns, attempt + 1, k));
      }
      var later := Meanwhile(turns, attempt + 1, last);
      assert turn.others + (later + [p.AsCommand()]) == turn.others + later + [p.AsCommand()];
    }
  }

  lemma {:induction false} RunAppend(t: Tables, first: seq<Command>, second: seq<Command>)
    requires ValidCommands(first) && ValidCommands(second)
    ensures ValidCommands(first + second) && Run(t, first + second) == Run(Run(t, first), second)
    decreases |first|
  {
    hide Apply, ValidCommand;
    if first == [] {
      assert first + second == second;
    } else {
      assert (first + second)[1..] == first[1..] + second;
      RunAppend(Apply(t, first[0]), first[1..], second);
    }
  }

  lemma OneCommand(t: Tables, c: Command)
    requires ValidCommand(c)
    ensures ValidCommands([c]) && Run(t, [c]) == Apply(t, c)
  {
    hide Apply, ValidCommand;
    assert [c][1..] == [];
  }

  // ---- Placements that take effect ----

  /** The command places an order under this key, and it is not answered from the record. */
  ghost predicate TakesEffect(t: Tables, c: Command, key: RequestKey) {
    match c
    case Place(p) =>
      RequestKey(p.session, p.key) == key && CommitTradingMutation(t, p).Ok?
      && !CommitTradingMutation(t, p).value.reply.replayed
    case PlaceOco(p) =>
      && RequestKey(p.session, p.key) == key && CommitOcoPlacement(t, p).Ok?
      && !CommitOcoPlacement(t, p).value.reply.replayed
    case _ => false
  }

  /** How many placements under a key took effect over a run, whoever submitted them. */
  ghost function EffectsOf(t: Tables, cs: seq<Command>, key: RequestKey): nat
    requires ValidCommands(cs)
    decreases |cs|
  {
    if cs == [] then 0 else
      assert ValidCommand(cs[0]);
      (if TakesEffect(t, cs[0], key) then 1 else 0) + EffectsOf(Apply(t, cs[0]), cs[1..], key)
  }

  lemma PlaceFreshRequests(t: Tables, p: Placement)
    requires Commit(t, p).Ok? && !Commit(t, p).value.reply.replayed
    ensures var placed := Commit(t, p).value;
            && p.Key() !in t.requests
            && placed.tables.requests == t.requests[p.Key() := RequestRow(p.Hash(), Some(placed.reply.response))]
  {
    hide PlaceFresh, PlaceOcoFresh, SameTotals;
    match p
    case Single(o) => PlaceFrame(t, o, Commit(t, p).value.tables);
    case Pair(o) => OcoFrame(t, o, Commit(t, p).value.tables);
  }

  /** A key is put on record by the placement that takes effect under it, and by nothing else. */
  lemma StepRecordsKey(t: Tables, c: Command, key: RequestKey)
    requires ValidCommand(c)
    ensures TakesEffect(t, c, key) <==> key !in t.requests && key in Apply(t, c).requests
  {
    hide PersistFill, PersistTrigger, CancelOrder, PlaceFresh, PlaceOcoFresh, Storable, WinnerSlotFree;
    var r := LedgerModel.Attempt(t, c);
    if r.Ok? && r.value != t {
      match c
      case Place(p) => PlaceFreshRequests(t, Single(p));
      case PlaceOco(p) => PlaceFreshRequests(t, Pair(p));
      case Fills(f) => FillRecords(t, f, r.value);
      case Triggers(g) =>
        if !(g.order in t.orders && IsTerminal(t.orders[g.order].status)) {
          var _ := TriggerRecords(t, g, r.value);
        } else {
          TerminalTriggerIdle(t, g);
        }
      case Cancels(x) => CancelRequests(t, x);
      case Acquires(m) =>
      case Expires(x) =>
    } else if c.Place? && r.Ok? && !CommitTradingMutation(t, c.place).value.reply.replayed {
      PlaceFreshRequests(t, Single(c.place));
    } else if c.PlaceOco? && r.Ok? && !CommitOcoPlacement(t, c.oco).value.reply.replayed {
      PlaceFreshRequests(t, Pair(c.oco));
    }
  }

  lemma TerminalTriggerIdle(t: Tables, c: TriggerCommand)
    requires c.schedule.Valid() && c.order in t.orders && IsTerminal(t.orders[c.order].status)
    ensures PersistTrigger(t, c).Ok? ==> PersistTrigger(t, c).value == t
  {
  }

  lemma CancelRequests(t: Tables, c: CancelCommand)
    requires CancelOrder(t, c).Ok?
    ensures CancelOrder(t, c).value.requests == t.requests
  {
    hide Releasable, GivenBack;
  }

  /**
    Over any run, by any clients, at most one placement takes effect under a key: one exactly if
    the run put it on record.
   */
  lemma {:induction false} AtMostOneEffect(t: Tables, cs: seq<Command>, key: RequestKey)
    requires ValidCommands(cs)
    ensures EffectsOf(t, cs, key) == if key !in t.requests && key in Run(t, cs).requests then 1 else 0
    decreases |cs|
  {
    hide Apply, ValidCommand, TakesEffect;
    if cs != [] {
      StepRecordsKey(t, cs[0], key);
      AtMostOneEffect(Apply(t, cs[0]), cs[1..], key);
      if key in t.requests {
        RequestsLast(t, [cs[0]], key);
        OneCommand(t, cs[0]);
      }
      if key in Apply(t, cs[0]).requests {
        RequestsLast(Apply(t, cs[0]), cs[1..], key);
      }
    }
  }

  // ---- Replies ----

  /** The request is on record with its response. */
  predicate Recorded(t: Tables, key: RequestKey, hash: string, response: Response) {
    key in t.requests && t.requests[key] == RequestRow(hash, Some(response))
  }

  lemma RecordLasts(t: Tables, key: RequestKey, hash: string, response: Response, cs: seq<Command>)
    requires Recorded(t, key, hash, response) && ValidCommands(cs)
    ensures Recorded(Run(t, cs), key, hash, response)
  {
    RequestsLast(t, cs, key);
    hide Run;
  }

  /** What a committed placement answers is on record. */
  lemma CommittedIsRecorded(t: Tables, p: Placement)
    requires Commit(t, p).Ok?
    ensures var placed := Commit(t, p).value;
            Recorded(placed.tables, p.Key(), p.Hash(), placed.reply.response)
            && placed.tables == Apply(t, p.AsCommand())
  {
    hide PlaceFresh, PlaceOcoFresh;
    if !Commit(t, p).value.reply.replayed {
      PlaceFreshRequests(t, p);
    }
  }

  /** Against the record a placement is answered from it, or refused because its session has ended. */
  lemma RecordedReplays(t: Tables, p: Placement, response: Response)
    requires Recorded(t, p.Key(), p.Hash(), response)
    ensures Commit(t, p) == if ActiveSession(t, p.Key().session) then Ok(Placed(t, Reply(true, response)))
                            else Err(ACCOUNT_READ_ONLY)
  {
    hide PlaceFresh, PlaceOcoFresh;
  }

  /** A reply is only ever given for a placement that is on record, with the response on record. */
  lemma {:induction false} ReplyIsRecorded(t: Tables, p: Placement, maxRetries: nat, attempt: nat, turns: nat -> Turn)
    requires ValidTurns(turns) && 1 <= attempt <= maxRetries + 1
    requires Submit(t, p, maxRetries, attempt, turns).answer.Replied?
    ensures var s := Submit(t, p, maxRetries, attempt, turns);
            Recorded(Run(t, s.commands), p.Key(), p.Hash(), s.answer.reply.response)
    decreases maxRetries + 1 - attempt
  {
    hide Run, Commit, Recorded, ValidCommands, ValidCommand, Apply, Placement.AsCommand;
    var turn := turns(attempt);
    var now := Run(t, turn.others);
    if Retries(now, p, turn.fate) {
      ReplyIsRecorded(now, p, maxRetries, attempt + 1, turns);
      RunAppend(t, turn.others, Submit(now, p, maxRetries, attempt + 1, turns).commands);
    } else {
      CommittedIsRecorded(now, p);
      OneCommand(now, p.AsCommand());
      RunAppend(t, turn.others, [p.AsCommand()]);
    }
  }

  /**
    Resubmitting a recorded request has no effect of its own, however its attempts fare: nothing
    takes effect under its key, and whoever gets a reply gets the recorded response.
   */
  lemma {:induction false} ResubmissionHasNoEffect(t: Tables, p: Placement, response: Response, maxRetries: nat,
                                                   attempt: nat, turns: nat -> Turn)
    requires ValidTurns(turns) && 1 <= attempt <= maxRetries + 1 && Recorded(t, p.Key(), p.Hash(), response)
    ensures var s := Submit(t, p, maxRetries, attempt, turns);
            && EffectsOf(t, s.commands, p.Key()) == 0
            && Recorded(Run(t, s.commands), p.Key(), p.Hash(), response)
            && (s.answer.Replied? ==> s.answer.reply == Reply(true, response))
    decreases maxRetries + 1 - attempt
  {
    hide Run, Commit, ValidCommands, Apply, Placement.AsCommand, EffectsOf;
    var s := Submit(t, p, maxRetries, attempt, turns);
    RecordLasts(t, p.Key(), p.Hash(), response, s.commands);
    AtMostOneEffect(t, s.commands, p.Key());
    var turn := turns(attempt);
    var now := Run(t, turn.others);
    RecordLasts(t, p.Key(), p.Hash(), response, turn.others);
    RecordedReplays(now, p, response);
    if Retries(now, p, turn.fate) && !turn.fate.Breaks? && attempt <= maxRetries {
      ResubmissionHasNoEffect(now, p, response, maxRetries, attempt + 1, turns);
    }
  }

  // ---- Every history of one request ----

  /** One more submission of a request: the placement it makes this time, and what its attempts meet. */
  datatype Resubmission = Resubmission(placement: Placement, turns: nat -> Turn)

  /** The same request: its key and its hash; identifiers, prices and responses are made anew each time. */
  ghost predicate SameRequest(subs: seq<Resubmission>, key: RequestKey, hash: string) {
    forall i | 0 <= i < |subs| ::
      subs[i].placement.Key() == key && subs[i].placement.Hash() == hash && ValidTurns(subs[i].turns)
  }

  datatype History = History(answers: seq<Answer>, commands: seq<Command>)

  ghost function SubmitAll(t: Tables, subs: seq<Resubmission>, key: RequestKey, hash: string,
                           maxRetries: nat): (h: History)
    requires SameRequest(subs, key, hash)
    ensures |h.answers| == |subs| && ValidCommands(h.commands)
    decreases |subs|
  {
    if subs == [] then History([], []) else
      var first := Submit(t, subs[0].placement, maxRetries, 1, subs[0].turns);
      var rest := SubmitAll(Run(t, first.commands), subs[1..], key, hash, maxRetries);
      History([first.answer] + rest.answers, first.commands + rest.commands)
  }

  /** Whoever is replied to gets what is on record in the end. */
  lemma {:induction false} RepliesOnRecord(t: Tables, subs: seq<Resubmission>, key: RequestKey, hash: string,
                                           maxRetries: nat, i: nat)
    requires SameRequest(subs, key, hash) && i < |subs|
    requires SubmitAll(t, subs, key, hash, maxRetries).answers[i].Replied?
    ensures var h := SubmitAll(t, subs, key, hash, maxRetries);
            Recorded(Run(t, h.commands), key, hash, h.answers[i].reply.response)
    decreases |subs|
  {
    hide Run, Submit, Recorded, ValidCommands;
    var first := Submit(t, subs[0].placement, maxRetries, 1, subs[0].turns);
    var now := Run(t, first.commands);
    var rest := SubmitAll(now, subs[1..], key, hash, maxRetries);
    RunAppend(t, first.commands, rest.commands);
    if i == 0 {
      ReplyIsRecorded(t, subs[0].placement, maxRetries, 1, subs[0].turns);
      RecordLasts(now, key, hash, first.answer.reply.response, rest.commands);
    } else {
      RepliesOnRecord(now, subs[1..], key, hash, maxRetries, i - 1);
    }
  }

  /**
    Exactly once, end to end. However often a request is submitted, whatever becomes of each
    submission (answered, refused, given up, its commit lost and applied or lost and not), and
    whatever else commits in between, under the same key too: at most one placement ever takes
    effect under its key; exactly one has once anyone is replied to, if the key was free; and every
    reply carries the same response.
   */
  lemma ExactlyOnce(t: Tables, subs: seq<Resubmission>, key: RequestKey, hash: string, maxRetries: nat)
    requires SameRequest(subs, key, hash)
    ensures var h := SubmitAll(t, subs, key, hash, maxRetries);
            && EffectsOf(t, h.commands, key) <= 1
            && (forall i | 0 <= i < |subs| && h.answers[i].Replied? ::
                  key !in t.requests ==> EffectsOf(t, h.commands, key) == 1)
            && (forall i, j | 0 <= i < |subs| && 0 <= j < |subs| && h.answers[i].Replied? && h.answers[j].Replied? ::
                  h.answers[i].reply.response == h.answers[j].reply.response)
  {
    hide Run, SubmitAll, EffectsOf, SameRequest;
    var h := SubmitAll(t, subs, key, hash, maxRetries);
    AtMostOneEffect(t, h.commands, key);
    forall i | 0 <= i < |subs| && h.answers[i].Replied?
      ensures Recorded(Run(t, h.commands), key, hash, h.answers[i].reply.response)
    {
      RepliesOnRecord(t, subs, key, hash, maxRetries, i);
    }
  }
}
