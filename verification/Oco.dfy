/**
  One-cancels-the-other pairs in memory: the core's resolution of a pair, and the executor that
  arbitrates triggers.
 */
module Oco {
  import opened Types

  // ---- Resolving a pair ----

  datatype Leg = Leg(id: string, status: OrderStatus, filledQuantity: Option<int>, version: nat)

  datatype Pair = Pair(active: bool, first: Leg, second: Leg, winner: Option<string>, version: nat)

  predicate Progressed(status: OrderStatus) {
    status in {TRIGGERED, OPEN, PARTIALLY_FILLED, FILLED}
  }

  /** The CANCELLED transition of an order, where its status has one. */
  function CancelLeg(leg: Leg): Result<Leg> {
    if leg.status in {PENDING_TRIGGER, TRIGGERED, OPEN, PARTIALLY_FILLED}
    then Ok(leg.(status := CANCELLED, version := leg.version + 1))
    else Err(ORDER_STATE_CONFLICT)
  }

  /** `resolveOco`. */
  function ResolveOco(p: Pair, winnerId: string): Result<Pair> {
    var _ :- Check(p.active, ORDER_STATE_CONFLICT);
    var _ :- Check(p.winner.None?, INVARIANT_VIOLATION);
    var _ :- Check(p.first.id != p.second.id, INVARIANT_VIOLATION);
    var _ :- Check(winnerId == p.first.id || winnerId == p.second.id, ORDER_STATE_CONFLICT);
    var winnerIsFirst := winnerId == p.first.id;
    var winner, sibling := if winnerIsFirst then p.first else p.second, if winnerIsFirst then p.second else p.first;
    var _ :- Check(winner.status !in {CANCELLED, EXPIRED, REJECTED}, ORDER_STATE_CONFLICT);
    var _ :- Check(Progressed(winner.status), INVARIANT_VIOLATION);
    var _ :- Check(sibling.status == PENDING_TRIGGER && sibling.filledQuantity.None?, INVARIANT_VIOLATION);
    var cancelled :- CancelLeg(sibling);
    Ok(p.(active := false, winner := Some(winnerId), version := p.version + 1,
          first := if winnerIsFirst then p.first else cancelled,
          second := if winnerIsFirst then cancelled else p.second))
  }

  function LegOf(p: Pair, id: string): Leg {
    if id == p.first.id then p.first else p.second
  }

  function SiblingOf(p: Pair, id: string): Leg {
    if id == p.first.id then p.second else p.first
  }

  /** What a caller can check beforehand. */
  predicate Resolvable(p: Pair, id: string) {
    && p.active && p.winner.None? && p.first.id != p.second.id && id in {p.first.id, p.second.id}
    && LegOf(p, id).status in {TRIGGERED, OPEN, PARTIALLY_FILLED, FILLED}
    && SiblingOf(p, id).status == PENDING_TRIGGER && SiblingOf(p, id).filledQuantity.None?
  }

  /**
    A pair resolves exactly when it is active with two legs, one progressed and one still waiting;
    then the winner is left as it was, the sibling is cancelled, and no second resolution succeeds.
   */
  lemma ResolvesExactly(p: Pair, id: string, again: string)
    ensures ResolveOco(p, id).Ok? <==> Resolvable(p, id)
    ensures ResolveOco(p, id).Ok? ==>
              var after := ResolveOco(p, id).value;
              && !after.active && after.winner == Some(id) && after.version == p.version + 1
              && LegOf(after, id) == LegOf(p, id)
              && SiblingOf(after, id) == SiblingOf(p, id).(status := CANCELLED, version := SiblingOf(p, id).version + 1)
              && ResolveOco(after, again) == Err(ORDER_STATE_CONFLICT)
  {
  }

  /** Any attempts to resolve a pair, one after the other, each for a leg of its own choosing. */
  function Attempts(p: Pair, ids: seq<string>): (Pair, nat)
    decreases |ids|
  {
    if ids == [] then (p, 0) else
      var r := ResolveOco(p, ids[0]);
      var rest := Attempts(if r.Ok? then r.value else p, ids[1..]);
      (rest.0, rest.1 + if r.Ok? then 1 else 0)
  }

  /** The first attempt that can succeed, if there is one. */
  function FirstResolvable(p: Pair, ids: seq<string>): (i: nat)
    ensures i <= |ids| && (i < |ids| ==> Resolvable(p, ids[i]))
    ensures forall k | 0 <= k < i :: !Resolvable(p, ids[k])
  {
    if ids == [] || Resolvable(p, ids[0]) then 0 else
      var rest := FirstResolvable(p, ids[1..]);
      assert forall k | 1 <= k < rest + 1 :: ids[k] == ids[1..][k - 1];
      1 + rest
  }

  lemma {:induction false} InactiveStays(p: Pair, ids: seq<string>)
    requires !p.active
    ensures Attempts(p, ids) == (p, 0)
    decreases |ids|
  {
    if ids != [] {
      InactiveStays(p, ids[1..]);
    }
  }

  /**
    However many attempts are made, for whichever legs, a pair is resolved at most once: by the
    first attempt it is ready for, and it keeps what that one made of it.
   */
  lemma {:induction false} ResolvedByTheFirst(p: Pair, ids: seq<string>)
    ensures var i := FirstResolvable(p, ids);
            Attempts(p, ids) == if i < |ids| then (ResolveOco(p, ids[i]).value, 1) else (p, 0)
    decreases |ids|
  {
    if ids != [] {
      ResolvesExactly(p, ids[0], ids[0]);
      if Resolvable(p, ids[0]) {
        InactiveStays(ResolveOco(p, ids[0]).value, ids[1..]);
      } else {
        ResolvedByTheFirst(p, ids[1..]);
      }
    }
  }

  // ---- One trigger, all at once ----

  type GroupId = nat

  datatype Group = Group(first: string, second: string, active: bool, winner: Option<string>)

  datatype Context = Context(
    recovery: bool,              // the price came from the recovery REST boundary
    marketOpen: bool,
    bothConditionsTrue: bool,
    stopLegId: Option<string>
  )

  datatype Call = Call(group: GroupId, leg: string, context: Context)

  /** How executing a trigger ends: it ran, it failed, or it ran and its result was lost. */
  datatype Executed = Ran | Failed | Lost

  datatype Execution = Execution(group: GroupId, winner: string, sibling: string)

  datatype World = World(groups: map<GroupId, Group>, executions: seq<Execution>)

  /** The leg that wins: the stop leg when recovery saw both conditions true, the triggered leg otherwise. */
  function Winner(g: Group, leg: string, context: Context): string {
    if context.recovery && context.bothConditionsTrue then
      if context.stopLegId.Some? then context.stopLegId.value else g.first
    else leg
  }

  function Sibling(g: Group, winner: string): string {
    if winner == g.first then g.second else g.first
  }

  /** What the checks of a trigger come to: an answer, or a winner and a sibling to execute. */
  datatype Decision = Answered(answer: Result<bool>) | Executes(winner: string, sibling: string)

  function Decide(groups: map<GroupId, Group>, c: Call): Decision {
    if c.context.recovery && !c.context.marketOpen then Answered(Ok(false))
    else if c.group !in groups || !groups[c.group].active then Answered(Ok(false))
    else
      var g := groups[c.group];
      if c.leg != g.first && c.leg != g.second then Answered(Err(ORDER_STATE_CONFLICT))
      else
        var winner := Winner(g, c.leg, c.context);
        Executes(winner, Sibling(g, winner))
  }

  /** The group once its trigger has been executed. */
  function Resolve(w: World, c: Call, winner: string, executed: Executed): World
    requires c.group in w.groups
  {
    var g := w.groups[c.group];
    World(if executed.Ran? then w.groups[c.group := g.(active := false, winner := Some(winner))] else w.groups,
          if executed.Failed? then w.executions else w.executions + [Execution(c.group, winner, Sibling(g, winner))])
  }

  /** A trigger that nothing interrupts. */
  function Trigger(w: World, c: Call, executed: Executed): World {
    var d := Decide(w.groups, c);
    if d.Answered? then w else Resolve(w, c, d.winner, executed)
  }

  // ---- The executor: triggers interleaved at every await ----

  /** The promise a trigger leaves in its group's chain. */
  type Ticket = nat

  datatype Stage =
    | Waiting                                      // for the previous trigger of the group
    | Acquiring(winner: string, sibling: string)   // the group's parent row
    | Executing(winner: string, sibling: string)
    | Releasing                                    // the reservation, the group already resolved
    | Done(answer: Result<bool>)

  datatype Running = Running(call: Call, previous: Option<Ticket>, stage: Stage)

  datatype State = State(
    world: World,
    chains: map<GroupId, Ticket>,
    running: map<Ticket, Running>,
    next: Ticket,
    lost: seq<GroupId>            // executions whose result was lost
  )

  datatype Step =
    | Arrive(call: Call)
    | Start(ticket: Ticket)
    | Acquired(ticket: Ticket, ok: bool)
    | Execute(ticket: Ticket, executed: Executed)
    | Release(ticket: Ticket, ok: bool)
    | AddGroup(id: GroupId, first: string, second: string)

  predicate At(s: State, k: Ticket, stage: Stage) {
    k in s.running && s.running[k].stage == stage
  }

  /** The promise a trigger waits for has been resolved. */
  predicate Ready(s: State, k: Ticket)
    requires k in s.running
  {
    s.running[k].previous.Some? ==>
      s.running[k].previous.value in s.running && s.running[s.running[k].previous.value].stage.Done?
  }

  predicate Enabled(s: State, step: Step) {
    match step
    case Arrive(_) => s.next !in s.running
    case Start(k) => At(s, k, Waiting) && Ready(s, k)
    case Acquired(k, _) => k in s.running && s.running[k].stage.Acquiring?
    case Execute(k, _) =>
      k in s.running && s.running[k].stage.Executing? && s.running[k].call.group in s.world.groups
    case Release(k, _) => At(s, k, Releasing)
    case AddGroup(id, _, _) => id !in s.world.groups
  }

  function To(s: State, k: Ticket, stage: Stage): State
    requires k in s.running
  {
    s.(running := s.running[k := s.running[k].(stage := stage)])
  }

  /** The `finally` of a trigger: its promise resolves, and leaves the chain if nobody has queued behind it. */
  function Finish(s: State, k: Ticket, answer: Result<bool>): State
    requires k in s.running
  {
    var g := s.running[k].call.group;
    To(s, k, Done(answer)).(chains := if g in s.chains && s.chains[g] == k then s.chains - {g} else s.chains)
  }

  function After(s: State, step: Step): State
    requires Enabled(s, step)
  {
    match step
    case Arrive(c) =>
      var previous := if c.group in s.chains then Some(s.chains[c.group]) else None;
      s.(chains := s.chains[c.group := s.next], running := s.running[s.next := Running(c, previous, Waiting)],
         next := s.next + 1)
    case Start(k) =>
      (match Decide(s.world.groups, s.running[k].call)
       case Answered(answer) => Finish(s, k, answer)
       case Executes(winner, sibling) => To(s, k, Acquiring(winner, sibling)))
    case Acquired(k, ok) =>
      if ok then To(s, k, Executing(s.running[k].stage.winner, s.running[k].stage.sibling))
      else Finish(s, k, Err(SERVICE_UNAVAILABLE))
    case Execute(k, executed) =>
      var world := Resolve(s.world, s.running[k].call, s.running[k].stage.winner, executed);
      (match executed
       case Ran => To(s, k, Releasing).(world := world)
       case Failed => Finish(s, k, Err(SERVICE_UNAVAILABLE)).(world := world)
       case Lost => Finish(s, k, Err(SERVICE_UNAVAILABLE)).(world := world, lost := s.lost + [s.running[k].call.group]))
    case Release(k, ok) => Finish(s, k, if ok then Ok(true) else Err(SERVICE_UNAVAILABLE))
    case AddGroup(id, first, second) =>
      s.(world := s.world.(groups := s.world.groups[id := Group(first, second, true, None)]))
  }

  class OcoExecutor {
    var groups: map<GroupId, Group>
    var executions: seq<Execution>
    var chains: map<GroupId, Ticket>
    var running: map<Ticket, Running>
    var next: Ticket
    var lost: seq<GroupId>

    function Contents(): State
      reads this
    {
      State(World(groups, executions), chains, running, next, lost)
    }

    constructor (groups: map<GroupId, Group>)
      ensures Contents() == New(groups)
    {
      this.groups := groups;
      executions, chains, running, next, lost := [], map[], map[], 0, [];
    }

    /** `trigger` up to its first await: it takes the end of its group's chain. */
    method ArriveTrigger(c: Call) returns (ticket: Ticket)
      requires Enabled(Contents(), Arrive(c))
      modifies this`chains, this`running, this`next
      ensures Contents() == After(old(Contents()), Arrive(c)) && ticket == old(next)
    {
      var previous := if c.group in chains then Some(chains[c.group]) else None;
      ticket := next;
      chains := chains[c.group := ticket];
      running := running[ticket := Running(c, previous, Waiting)];
      next := next + 1;
    }

    /** The `finally` of `trigger`. */
    method FinishTrigger(k: Ticket, answer: Result<bool>)
      requires k in running
      modifies this`chains, this`running
      ensures Contents() == Finish(old(Contents()), k, answer)
    {
      var g := running[k].call.group;
      running := running[k := running[k].(stage := Done(answer))];
      if g in chains && chains[g] == k {
        chains := chains - {g};
      }
    }

    /** `trigger` once the previous one has finished: its checks, and the winner. */
    method StartTrigger(k: Ticket)
      requires Enabled(Contents(), Start(k))
      modifies this`chains, this`running
      ensures Contents() == After(old(Contents()), Start(k))
    {
      var c := running[k].call;
      if c.context.recovery && !c.context.marketOpen {
        FinishTrigger(k, Ok(false));
        return;
      }
      if c.group !in groups || !groups[c.group].active {
        FinishTrigger(k, Ok(false));
        return;
      }
      var group := groups[c.group];
      if c.leg != group.first && c.leg != group.second {
        FinishTrigger(k, Err(ORDER_STATE_CONFLICT));
        return;
      }
      var winner := c.leg;
      if c.context.recovery && c.context.bothConditionsTrue {
        winner := if c.context.stopLegId.Some? then c.context.stopLegId.value else group.first;
      }
      var sibling := if winner == group.first then group.second else group.first;
      running := running[k := running[k].(stage := Acquiring(winner, sibling))];
    }

    method AcquiredParent(k: Ticket, ok: bool)
      requires Enabled(Contents(), Acquired(k, ok))
      modifies this`chains, this`running
      ensures Contents() == After(old(Contents()), Acquired(k, ok))
    {
      if !ok {
        FinishTrigger(k, Err(SERVICE_UNAVAILABLE));
        return;
      }
      running := running[k := running[k].(stage := Executing(running[k].stage.winner, running[k].stage.sibling))];
    }

    /** `trigger` when its execution has ended: the group is resolved by a successful one only. */
    method ExecutedTrigger(k: Ticket, executed: Executed)
      requires Enabled(Contents(), Execute(k, executed))
      modifies this
      ensures Contents() == After(old(Contents()), Execute(k, executed))
    {
      var group, winner := running[k].call.group, running[k].stage.winner;
      if !executed.Failed? {
        executions := executions + [Execution(group, winner, Sibling(groups[group], winner))];
      }
      if executed.Ran? {
        groups := groups[group := groups[group].(active := false, winner := Some(winner))];
        running := running[k := running[k].(stage := Releasing)];
      } else {
        if executed.Lost? {
          lost := lost + [group];
        }
        FinishTrigger(k, Err(SERVICE_UNAVAILABLE));
      }
    }

    method ReleasedReservation(k: Ticket, ok: bool)
      requires Enabled(Contents(), Release(k, ok))
      modifies this`chains, this`running
      ensures Contents() == After(old(Contents()), Release(k, ok))
    {
      FinishTrigger(k, if ok then Ok(true) else Err(SERVICE_UNAVAILABLE));
    }
  }

  // ---- The chain ----

  predicate Of(s: State, k: Ticket, g: GroupId) {
    k in s.running && s.running[k].call.group == g
  }

  predicate IsDone(s: State, k: Ticket) {
    k in s.running && s.running[k].stage.Done?
  }

  /** A trigger between its status check and its end. */
  predicate InSection(s: State, k: Ticket) {
    k in s.running && !s.running[k].stage.Waiting? && !s.running[k].stage.Done?
  }

  /** Everyone of the group who came before is done. */
  ghost predicate First(s: State, k: Ticket)
    requires k in s.running
  {
    forall j: Ticket | Of(s, j, s.running[k].call.group) && j < k :: IsDone(s, j)
  }

  /** A trigger waits for the last one of its group to come before it. */
  ghost predicate Queued(s: State, k: Ticket)
    requires k in s.running
  {
    match s.running[k].previous
    case None => First(s, k)
    case Some(p) =>
      && Of(s, p, s.running[k].call.group) && p < k
      && forall j: Ticket | Of(s, j, s.running[k].call.group) && j < k :: j <= p
  }

  /** The chain of a group ends in its latest trigger, if that is not done; without one, everyone is done. */
  ghost predicate Tail(s: State, g: GroupId) {
    if g in s.chains then
      Of(s, s.chains[g], g) && !IsDone(s, s.chains[g]) && forall k: Ticket | Of(s, k, g) :: k <= s.chains[g]
    else forall k: Ticket | Of(s, k, g) :: IsDone(s, k)
  }

  ghost predicate Chained(s: State) {
    && (forall k | k in s.running :: k < s.next && Queued(s, k))
    && (forall k | k in s.running && !s.running[k].stage.Waiting? :: First(s, k))
    && (forall g: GroupId :: Tail(s, g))
  }

  /** A trigger that is ready has nobody before it. */
  lemma ReadyIsFirst(s: State, k: Ticket)
    requires Chained(s) && k in s.running && Ready(s, k)
    ensures First(s, k)
  {
    assert Queued(s, k);
    if s.running[k].previous.Some? {
      var p := s.running[k].previous.value;
      assert First(s, p);
    }
  }

  /** A trigger moves on without ending. */
  lemma MoveKeeps(s: State, k: Ticket, stage: Stage)
    requires Chained(s) && k in s.running && First(s, k) && !s.running[k].stage.Done? && !stage.Done? && !stage.Waiting?
    ensures Chained(To(s, k, stage))
  {
    var after := To(s, k, stage);
    assert forall j, g | Of(after, j, g) :: Of(s, j, g);
    assert forall j :: IsDone(after, j) == IsDone(s, j);
    forall j | j in after.running ensures Queued(after, j) {
      assert Queued(s, j);
    }
    forall j | j in after.running && !after.running[j].stage.Waiting? ensures First(after, j) {
      assert First(s, j);
    }
    forall g: GroupId ensures Tail(after, g) {
      assert Tail(s, g);
    }
  }

  lemma FinishKeeps(s: State, k: Ticket, answer: Result<bool>)
    requires Chained(s) && k in s.running && First(s, k) && !s.running[k].stage.Done?
    ensures Chained(Finish(s, k, answer))
  {
    hide Queued, First, Tail;
    var after := Finish(s, k, answer);
    forall j | j in after.running ensures Queued(after, j) {
      assert Queued(s, j);
      FinishQueued(s, k, answer, j);
    }
    forall j | j in after.running && !after.running[j].stage.Waiting? ensures First(after, j) {
      assert j != k ==> First(s, j);
      FinishFirst(s, k, answer, j);
    }
    forall g: GroupId ensures Tail(after, g) {
      assert Tail(s, g);
      FinishTail(s, k, answer, g);
    }
  }

  lemma FinishFirst(s: State, k: Ticket, answer: Result<bool>, j: Ticket)
    requires k in s.running && j in s.running && First(s, j)
    ensures First(Finish(s, k, answer), j)
  {
    var after := Finish(s, k, answer);
    assert forall i: Ticket | Of(after, i, after.running[j].call.group) :: Of(s, i, s.running[j].call.group);
    assert forall i: Ticket | IsDone(s, i) :: IsDone(after, i);
  }

  lemma FinishQueued(s: State, k: Ticket, answer: Result<bool>, j: Ticket)
    requires k in s.running && j in s.running && Queued(s, j)
    ensures Queued(Finish(s, k, answer), j)
  {
    if s.running[j].previous.None? {
      FinishFirst(s, k, answer, j);
    } else {
      hide First;
      var after := Finish(s, k, answer);
      assert forall i: Ticket | Of(after, i, after.running[j].call.group) :: Of(s, i, s.running[j].call.group);
    }
  }

  lemma FinishTail(s: State, k: Ticket, answer: Result<bool>, g: GroupId)
    requires k in s.running && First(s, k) && Tail(s, g)
    ensures Tail(Finish(s, k, answer), g)
  {
    var after := Finish(s, k, answer);
    assert forall i: Ticket | Of(after, i, g) :: Of(s, i, g);
    assert forall i: Ticket | IsDone(s, i) :: IsDone(after, i);
  }

  lemma ArriveKeeps(s: State, c: Call)
    requires Chained(s) && Enabled(s, Arrive(c))
    ensures Chained(After(s, Arrive(c)))
  {
    var after := After(s, Arrive(c));
    assert forall j, g | Of(after, j, g) && j != s.next :: Of(s, j, g);
    assert forall j | j != s.next :: IsDone(after, j) == IsDone(s, j);
    assert Tail(s, c.group);
    forall j | j in after.running ensures Queued(after, j) {
      if j != s.next {
        assert Queued(s, j);
      }
    }
    forall j | j in after.running && !after.running[j].stage.Waiting? ensures First(after, j) {
      assert First(s, j);
    }
    forall g: GroupId ensures Tail(after, g) {
      assert Tail(s, g);
    }
  }

  lemma SameChain(s: State, after: State)
    requires Chained(s) && after.chains == s.chains && after.running == s.running && after.next == s.next
    ensures Chained(after)
  {
    assert forall j, g :: Of(after, j, g) == Of(s, j, g);
    assert forall j :: IsDone(after, j) == IsDone(s, j);
    forall j | j in after.running ensures Queued(after, j) {
      assert Queued(s, j);
    }
    forall j | j in after.running && !after.running[j].stage.Waiting? ensures First(after, j) {
      assert First(s, j);
    }
    forall g: GroupId ensures Tail(after, g) {
      assert Tail(s, g);
    }
  }

  lemma StepKeepsChain(s: State, step: Step)
    requires Chained(s) && Enabled(s, step)
    ensures Chained(After(s, step))
  {
    match step
    case Arrive(c) => ArriveKeeps(s, c);
    case AddGroup(_, _, _) => SameChain(s, After(s, step));
    case _ =>
      var k := step.ticket;
      if step.Start? {
        ReadyIsFirst(s, k);
      }
      assert First(s, k);
      hide Chained, First;
      MovingKeeps(s, step);
  }

  lemma MovingKeeps(s: State, step: Step)
    requires Chained(s) && Enabled(s, step) && !step.Arrive? && !step.AddGroup? && First(s, step.ticket)
    ensures Chained(After(s, step))
  {
    hide Chained, First;
    var k := step.ticket;
    match step
    case Start(_) =>
      var d := Decide(s.world.groups, s.running[k].call);
      if d.Answered? {
        FinishKeeps(s, k, d.answer);
      } else {
        MoveKeeps(s, k, Acquiring(d.winner, d.sibling));
      }
    case Acquired(_, ok) =>
      if ok {
        MoveKeeps(s, k, Executing(s.running[k].stage.winner, s.running[k].stage.sibling));
      } else {
        FinishKeeps(s, k, Err(SERVICE_UNAVAILABLE));
      }
    case Execute(_, executed) =>
      if executed.Ran? {
        MoveKeeps(s, k, Releasing);
        SameChain(To(s, k, Releasing), After(s, step));
      } else {
        FinishKeeps(s, k, Err(SERVICE_UNAVAILABLE));
        SameChain(Finish(s, k, Err(SERVICE_UNAVAILABLE)), After(s, step));
      }
    case Release(_, ok) => FinishKeeps(s, k, if ok then Ok(true) else Err(SERVICE_UNAVAILABLE));
  }

  /** At most one trigger of a group is ever past its status check and not yet at its end. */
  lemma OneAtATime(s: State, j: Ticket, k: Ticket)
    requires Chained(s) && InSection(s, j) && InSection(s, k) && s.running[j].call.group == s.running[k].call.group
    ensures j == k
  {
    assert First(s, j) && First(s, k);
    assert Of(s, j, s.running[k].call.group) && Of(s, k, s.running[j].call.group);
  }

  /** The chain never jams: before any trigger that waits there is one of its group that runs or can start. */
  lemma {:induction false} ChainMoves(s: State, k: Ticket) returns (j: Ticket)
    requires Chained(s) && k in s.running && !s.running[k].stage.Done?
    ensures j <= k && Of(s, j, s.running[k].call.group) && !IsDone(s, j)
    ensures InSection(s, j) || Enabled(s, Start(j))
    decreases k
  {
    j := k;
    if s.running[k].stage.Waiting? && !Ready(s, k) {
      assert Queued(s, k);
      j := ChainMoves(s, s.running[k].previous.value);
    }
  }

  // ---- What the chain protects ----

  function ExecutionsOf(executions: seq<Execution>, g: GroupId): nat {
    if executions == [] then 0 else
      ExecutionsOf(executions[..|executions| - 1], g) + if executions[|executions| - 1].group == g then 1 else 0
  }

  function CountOf(ids: seq<GroupId>, g: GroupId): nat {
    if ids == [] then 0 else CountOf(ids[..|ids| - 1], g) + if ids[|ids| - 1] == g then 1 else 0
  }

  /** A group was executed once if it is resolved and not at all while active, lost results apart. */
  predicate ExecutedOnce(s: State, g: GroupId) {
    && ExecutionsOf(s.world.executions, g)
       == CountOf(s.lost, g) + (if g in s.world.groups && !s.world.groups[g].active then 1 else 0)
    && (g in s.world.groups && s.world.groups[g].active ==> s.world.groups[g].winner.None?)
  }

  /** What a trigger has decided still holds while it is being executed: the group is active, its winner the same. */
  ghost predicate Decided(s: State) {
    forall k | k in s.running && (s.running[k].stage.Acquiring? || s.running[k].stage.Executing?) ::
      Decide(s.world.groups, s.running[k].call) == Executes(s.running[k].stage.winner, s.running[k].stage.sibling)
  }

  ghost predicate Sound(s: State) {
    Chained(s) && Decided(s)
  }

  lemma DecidedStays(s: State, step: Step)
    requires Sound(s) && Enabled(s, step)
    ensures Decided(After(s, step))
  {
    var after := After(s, step);
    forall k | k in after.running && (after.running[k].stage.Acquiring? || after.running[k].stage.Executing?)
      ensures Decide(after.world.groups, after.running[k].call)
           == Executes(after.running[k].stage.winner, after.running[k].stage.sibling)
    {
      if step.Execute? && step.executed.Ran? && after.running[k].call.group == s.running[step.ticket].call.group {
        OneAtATime(s, k, step.ticket);
      }
    }
  }

  lemma StepKeeps(s: State, step: Step)
    requires Sound(s) && Enabled(s, step)
    ensures Sound(After(s, step))
  {
    hide Chained, Decided, After, Enabled;
    StepKeepsChain(s, step);
    DecidedStays(s, step);
  }

  /** The groups and the executions change only as an uninterrupted trigger, or a new group, would change them. */
  lemma StepRefinesTrigger(s: State, step: Step)
    requires Sound(s) && Enabled(s, step)
    ensures After(s, step).world ==
              match step
              case Execute(k, executed) => Trigger(s.world, s.running[k].call, executed)
              case AddGroup(id, first, second) =>
                s.world.(groups := s.world.groups[id := Group(first, second, true, None)])
              case _ => s.world
  {
    hide Chained;
    if step.Execute? {
      var k := step.ticket;
      assert Decide(s.world.groups, s.running[k].call)
          == Executes(s.running[k].stage.winner, s.running[k].stage.sibling);
    }
  }

  lemma StepExecutesOnce(s: State, step: Step, g: GroupId)
    requires Sound(s) && Enabled(s, step) && ExecutedOnce(s, g)
    ensures ExecutedOnce(After(s, step), g)
    ensures g in s.world.groups ==> g in After(s, step).world.groups
    ensures g in s.world.groups && !s.world.groups[g].active ==> After(s, step).world.groups[g] == s.world.groups[g]
  {
    StepRefinesTrigger(s, step);
    if step.Execute? {
      assert s.world.groups[s.running[step.ticket].call.group].active by { StillActive(s, step.ticket); }
      ExecuteOnce(s, step.ticket, step.executed, g);
    } else if !step.AddGroup? {
      SameLost(s, step);
      hide After, Enabled;
    }
  }

  /** While a trigger is executed its group is still active. */
  lemma StillActive(s: State, k: Ticket)
    requires Decided(s) && k in s.running && s.running[k].stage.Executing?
    ensures s.running[k].call.group in s.world.groups && s.world.groups[s.running[k].call.group].active
  {
  }

  lemma SameLost(s: State, step: Step)
    requires Enabled(s, step) && !step.Execute?
    ensures After(s, step).lost == s.lost
  {
  }

  lemma ExecuteOnce(s: State, k: Ticket, executed: Executed, g: GroupId)
    requires Enabled(s, Execute(k, executed)) && ExecutedOnce(s, g)
    requires s.world.groups[s.running[k].call.group].active
    ensures ExecutedOnce(After(s, Execute(k, executed)), g)
    ensures g in s.world.groups ==> g in After(s, Execute(k, executed)).world.groups
    ensures g in s.world.groups && !s.world.groups[g].active ==>
              After(s, Execute(k, executed)).world.groups[g] == s.world.groups[g]
  {
    hide Sibling, Ready;
    var c, after := s.running[k].call, After(s, Execute(k, executed));
    if !executed.Failed? {
      OneMoreExecution(s.world.executions, Execution(c.group, s.running[k].stage.winner,
                                                     Sibling(s.world.groups[c.group], s.running[k].stage.winner)), g);
    }
    if executed.Lost? {
      OneMoreLost(s.lost, c.group, g);
    }
    hide ExecutionsOf, CountOf;
  }

  lemma OneMoreExecution(executions: seq<Execution>, e: Execution, g: GroupId)
    ensures ExecutionsOf(executions + [e], g) == ExecutionsOf(executions, g) + if e.group == g then 1 else 0
  {
    assert (executions + [e])[..|executions|] == executions;
  }

  lemma OneMoreLost(ids: seq<GroupId>, id: GroupId, g: GroupId)
    ensures CountOf(ids + [id], g) == CountOf(ids, g) + if id == g then 1 else 0
  {
    assert (ids + [id])[..|ids|] == ids;
  }

  function RunFrom(s: State, steps: seq<Step>): State
    requires Possible(s, steps)
    decreases |steps|
  {
    if steps == [] then s else RunFrom(After(s, steps[0]), steps[1..])
  }

  predicate Possible(s: State, steps: seq<Step>)
    decreases |steps|
  {
    steps != [] ==> Enabled(s, steps[0]) && Possible(After(s, steps[0]), steps[1..])
  }

  /**
    However triggers on both legs interleave at their awaits, a group is resolved at most once and
    keeps its winner, at most one of its triggers is past its status check at a time, and it is
    executed at most once: once more only for every execution whose result was lost.
   */
  lemma {:induction false} ResolvedAtMostOnce(s: State, steps: seq<Step>, g: GroupId)
    requires Sound(s) && Possible(s, steps) && ExecutedOnce(s, g)
    ensures var end := RunFrom(s, steps);
            && Sound(end) && ExecutedOnce(end, g)
            && (g in s.world.groups && !s.world.groups[g].active ==>
                  g in end.world.groups && end.world.groups[g] == s.world.groups[g])
            && (forall j, k | InSection(end, j) && InSection(end, k) && Of(end, j, g) && Of(end, k, g) :: j == k)
    decreases |steps|
  {
    hide ExecutedOnce, Sound, After, Enabled;
    if steps != [] {
      StepKeeps(s, steps[0]);
      StepExecutesOnce(s, steps[0], g);
      ResolvedAtMostOnce(After(s, steps[0]), steps[1..], g);
    } else {
      forall j, k | InSection(s, j) && InSection(s, k) && Of(s, j, g) && Of(s, k, g) ensures j == k {
        assert Chained(s) by { SoundChain(s); }
        OneAtATime(s, j, k);
      }
    }
  }

  lemma SoundChain(s: State)
    requires Sound(s)
    ensures Chained(s)
  {
  }

  /** An executor that has just been made. */
  function New(groups: map<GroupId, Group>): State {
    State(World(groups, []), map[], map[], 0, [])
  }

  predicate Untouched(groups: map<GroupId, Group>, g: GroupId) {
    g in groups ==> groups[g].active && groups[g].winner.None?
  }

  lemma NewIsSound(groups: map<GroupId, Group>, g: GroupId)
    requires Untouched(groups, g)
    ensures Sound(New(groups)) && ExecutedOnce(New(groups), g)
  {
  }

  /**
    From a new executor, whatever triggers arrive and however they interleave: a group has been
    executed once if it is resolved and not at all while it is active, and once more only for each
    execution whose result was lost.
   */
  lemma ExecutedOncePerGroup(groups: map<GroupId, Group>, steps: seq<Step>, g: GroupId)
    requires Untouched(groups, g) && Possible(New(groups), steps)
    ensures var end := RunFrom(New(groups), steps);
            && ExecutionsOf(end.world.executions, g)
               == CountOf(end.lost, g) + (if g in end.world.groups && !end.world.groups[g].active then 1 else 0)
            && (forall j, k | InSection(end, j) && InSection(end, k) && Of(end, j, g) && Of(end, k, g) :: j == k)
  {
    hide Sound, RunFrom, Possible, ExecutionsOf, CountOf, InSection;
    NewIsSound(groups, g);
    ResolvedAtMostOnce(New(groups), steps, g);
  }

  // ---- Winners ----

  /** The stop leg a recovery call names is a leg of its group. */
  predicate NamesALeg(groups: map<GroupId, Group>, c: Call) {
    c.group in groups && c.context.recovery && c.context.bothConditionsTrue && c.context.stopLegId.Some? ==>
      c.context.stopLegId.value in {groups[c.group].first, groups[c.group].second}
  }

  predicate WinnerIsALeg(g: Group) {
    g.winner.Some? ==> g.winner.value in {g.first, g.second}
  }

  ghost predicate WinnersAreLegs(s: State) {
    && (forall g | g in s.world.groups :: WinnerIsALeg(s.world.groups[g]))
    && (forall k | k in s.running && !s.running[k].stage.Done? :: NamesALeg(s.world.groups, s.running[k].call))
  }

  /** A trigger makes a leg of its group the winner exactly when recovery, deciding for the stop leg, was told one. */
  lemma WinnerIsALegExactly(w: World, c: Call)
    requires Decide(w.groups, c).Executes?
    ensures WinnerIsALeg(Trigger(w, c, Ran).groups[c.group]) <==> NamesALeg(w.groups, c)
  {
  }

  /**
    So over any run whose calls name legs of their groups, every group that is resolved has one of
    its legs as its winner.
   */
  lemma {:induction false} RunWinners(s: State, steps: seq<Step>)
    requires Sound(s) && WinnersAreLegs(s) && Possible(s, steps)
    requires forall i | 0 <= i < |steps| && steps[i].Arrive? ::
               steps[i].call.group in s.world.groups && NamesALeg(s.world.groups, steps[i].call)
    requires forall i | 0 <= i < |steps| :: !steps[i].AddGroup?
    ensures WinnersAreLegs(RunFrom(s, steps))
    decreases |steps|
  {
    if steps != [] {
      var next := After(s, steps[0]);
      StepKeeps(s, steps[0]);
      StepWinners(s, steps[0]);
      hide Sound, WinnersAreLegs, After, Enabled, Decide;
      assert forall i | 0 <= i < |steps[1..]| :: steps[1..][i] == steps[i + 1];
      RunWinners(next, steps[1..]);
    }
  }

  lemma StepWinners(s: State, step: Step)
    requires Sound(s) && WinnersAreLegs(s) && Enabled(s, step) && !step.AddGroup?
    requires step.Arrive? ==> step.call.group in s.world.groups && NamesALeg(s.world.groups, step.call)
    ensures WinnersAreLegs(After(s, step))
    ensures After(s, step).world.groups.Keys == s.world.groups.Keys
    ensures forall c: Call | c.group in s.world.groups && NamesALeg(s.world.groups, c) ::
              NamesALeg(After(s, step).world.groups, c)
  {
    StepRefinesTrigger(s, step);
    if step.Execute? && step.executed.Ran? {
      WinnerIsALegExactly(s.world, s.running[step.ticket].call);
    }
    hide Chained;
  }

  // ---- What a trigger does when its turn comes ----

  /**
    A trigger whose turn has come ends without executing exactly when recovery found the market closed,
    its group is gone or resolved, or its leg is not of the group, the last of these an error. Any other
    one goes on, for its own leg or the one recovery chooses.
   */
  lemma StartsExactly(s: State, k: Ticket)
    requires Enabled(s, Start(k))
    ensures var c, after := s.running[k].call, After(s, Start(k));
            && k in after.running && after.world == s.world
            && (if (c.context.recovery && !c.context.marketOpen) || c.group !in s.world.groups
                   || !s.world.groups[c.group].active
                then after.running[k].stage == Done(Ok(false))
                else if c.leg !in {s.world.groups[c.group].first, s.world.groups[c.group].second}
                then after.running[k].stage == Done(Err(ORDER_STATE_CONFLICT))
                else
                  && after.running[k].stage.Acquiring?
                  && after.running[k].stage.sibling
                     == (if after.running[k].stage.winner == s.world.groups[c.group].first
                         then s.world.groups[c.group].second else s.world.groups[c.group].first)
                  && after.running[k].stage.winner
                     == (if !c.context.recovery || !c.context.bothConditionsTrue then c.leg
                         else if c.context.stopLegId.Some? then c.context.stopLegId.value
                         else s.world.groups[c.group].first))
  {
  }

  // ---- Which leg is executed ----

  /**
    A call explains an execution: the market was open for it, and it executes its own leg, or, told by
    recovery that both conditions are true, the stop leg it names, the first leg if it names none; the
    other leg is the sibling.
   */
  predicate Explains(g: Group, c: Call, e: Execution) {
    && c.group == e.group && c.leg in {g.first, g.second} && (c.context.recovery ==> c.context.marketOpen)
    && (!c.context.recovery || !c.context.bothConditionsTrue ==> e.winner == c.leg)
    && (c.context.recovery && c.context.bothConditionsTrue && c.context.stopLegId.Some? ==>
          e.winner == c.context.stopLegId.value)
    && (c.context.recovery && c.context.bothConditionsTrue && c.context.stopLegId.None? ==> e.winner == g.first)
    && (e.winner == g.first ==> e.sibling == g.second)
    && (e.winner != g.first ==> e.sibling == g.first)
  }

  predicate ExplainedBy(s: State, k: Ticket, e: Execution) {
    k in s.running && e.group in s.world.groups && Explains(s.world.groups[e.group], s.running[k].call, e)
  }

  ghost predicate Explained(s: State, e: Execution) {
    exists k :: ExplainedBy(s, k, e)
  }

  /** What a trigger has decided and not executed yet is explained by its own call. */
  predicate DecisionExplained(s: State, k: Ticket)
    requires k in s.running
  {
    s.running[k].stage.Acquiring? || s.running[k].stage.Executing? ==>
      ExplainedBy(s, k, Execution(s.running[k].call.group, s.running[k].stage.winner, s.running[k].stage.sibling))
  }

  predicate HasWinner(s: State, e: Execution, g: GroupId) {
    g in s.world.groups && e.group == g && s.world.groups[g].winner == Some(e.winner)
  }

  ghost predicate AllExplained(s: State) {
    && (forall i | 0 <= i < |s.world.executions| :: Explained(s, s.world.executions[i]))
    && (forall k | k in s.running :: DecisionExplained(s, k))
    && (forall g | g in s.world.groups && s.world.groups[g].winner.Some? ::
          exists i :: 0 <= i < |s.world.executions| && HasWinner(s, s.world.executions[i], g))
  }

  /** Calls and legs stay: an explanation remains one. */
  lemma StillExplained(s: State, after: State, e: Execution)
    requires Explained(s, e)
    requires forall k | k in s.running :: k in after.running && after.running[k].call == s.running[k].call
    requires forall g | g in s.world.groups ::
               && g in after.world.groups && after.world.groups[g].first == s.world.groups[g].first
               && after.world.groups[g].second == s.world.groups[g].second
    ensures Explained(after, e)
  {
    var k :| ExplainedBy(s, k, e);
    assert ExplainedBy(after, k, e);
  }

  lemma CallsAndLegsStay(s: State, step: Step)
    requires Enabled(s, step)
    ensures var after := After(s, step);
            && (forall k | k in s.running :: k in after.running && after.running[k].call == s.running[k].call)
            && (forall g | g in s.world.groups ::
                  && g in after.world.groups && after.world.groups[g].first == s.world.groups[g].first
                  && after.world.groups[g].second == s.world.groups[g].second)
  {
    hide Decide, Ready;
  }

  lemma StepExplains(s: State, step: Step)
    requires Enabled(s, step) && AllExplained(s)
    ensures AllExplained(After(s, step))
  {
    var after := After(s, step);
    CallsAndLegsStay(s, step);
    DecisionsExplained(s, step);
    forall i | 0 <= i < |after.world.executions| ensures Explained(after, after.world.executions[i]) {
      if i < |s.world.executions| {
        assert after.world.executions[i] == s.world.executions[i] by { hide Ready, Decide; }
        hide After;
        StillExplained(s, after, s.world.executions[i]);
      } else {
        ExecutionExplained(s, step);
      }
    }
    WinnersExecuted(s, step);
    hide After, Enabled;
  }

  lemma SameStageExplained(s: State, after: State, k: Ticket)
    requires k in s.running && DecisionExplained(s, k)
    requires k in after.running && after.running[k] == s.running[k]
    requires forall g | g in s.world.groups ::
               && g in after.world.groups && after.world.groups[g].first == s.world.groups[g].first
               && after.world.groups[g].second == s.world.groups[g].second
    ensures DecisionExplained(after, k)
  {
  }

  /** A trigger that starts decides for its own leg, or as recovery tells it. */
  lemma StartExplained(s: State, k: Ticket)
    requires Enabled(s, Start(k))
    ensures k in After(s, Start(k)).running && DecisionExplained(After(s, Start(k)), k)
  {
  }

  lemma MovedExplained(s: State, step: Step, k: Ticket)
    requires Enabled(s, step) && k in s.running && DecisionExplained(s, k) && After(s, step).running[k] != s.running[k]
    ensures k in After(s, step).running && DecisionExplained(After(s, step), k)
  {
    if step.Start? {
      StartExplained(s, k);
    }
    hide Decide, Ready;
  }

  lemma DecisionsExplained(s: State, step: Step)
    requires Enabled(s, step) && AllExplained(s)
    ensures var after := After(s, step); forall k | k in after.running :: DecisionExplained(after, k)
  {
    var after := After(s, step);
    CallsAndLegsStay(s, step);
    NewIsWaiting(s, step);
    hide After, Enabled, DecisionExplained;
    forall k | k in after.running ensures DecisionExplained(after, k) {
      if k in s.running && after.running[k] == s.running[k] {
        SameStageExplained(s, after, k);
      } else if k in s.running {
        MovedExplained(s, step, k);
      }
    }
  }

  lemma NewIsWaiting(s: State, step: Step)
    requires Enabled(s, step)
    ensures var after := After(s, step); forall k | k in after.running && k !in s.running :: DecisionExplained(after, k)
  {
    hide Decide;
  }

  lemma ExecutionExplained(s: State, step: Step)
    requires Enabled(s, step) && AllExplained(s)
    requires |After(s, step).world.executions| > |s.world.executions|
    ensures var after := After(s, step);
            && |after.world.executions| == |s.world.executions| + 1
            && Explained(after, after.world.executions[|s.world.executions|])
  {
    var k := step.ticket;
    assert DecisionExplained(s, k);
    var after := After(s, step);
    assert ExplainedBy(after, k, after.world.executions[|s.world.executions|]);
  }

  lemma WinnersExecuted(s: State, step: Step)
    requires Enabled(s, step) && AllExplained(s)
    ensures var after := After(s, step);
            forall g | g in after.world.groups && after.world.groups[g].winner.Some? ::
              exists i :: 0 <= i < |after.world.executions| && HasWinner(after, after.world.executions[i], g)
  {
    var after := After(s, step);
    forall g | g in after.world.groups && after.world.groups[g].winner.Some?
      ensures exists i :: 0 <= i < |after.world.executions| && HasWinner(after, after.world.executions[i], g)
    {
      if g in s.world.groups && after.world.groups[g] == s.world.groups[g] {
        var i :| 0 <= i < |s.world.executions| && HasWinner(s, s.world.executions[i], g);
        assert HasWinner(after, after.world.executions[i], g);
      } else {
        assert HasWinner(after, after.world.executions[|after.world.executions| - 1], g);
      }
    }
  }

  // ---- What a trigger answers ----

  predicate Succeeded(stage: Stage) {
    stage.Releasing? || stage == Done(Ok(true))
  }

  /** A trigger that has executed, or answered true, has an execution its own call explains. */
  ghost predicate HasExecuted(s: State, k: Ticket) {
    exists i :: 0 <= i < |s.world.executions| && ExplainedBy(s, k, s.world.executions[i])
  }

  ghost predicate TrueIsExecuted(s: State) {
    forall k | k in s.running && Succeeded(s.running[k].stage) :: HasExecuted(s, k)
  }

  /** Only a successful execution makes a trigger succeed. */
  lemma NewlySucceeded(s: State, step: Step, k: Ticket)
    requires Enabled(s, step) && k in After(s, step).running && Succeeded(After(s, step).running[k].stage)
    requires k in s.running ==> !Succeeded(s.running[k].stage)
    ensures step == Execute(k, Ran)
  {
  }

  lemma ExecutionsGrow(s: State, step: Step)
    requires Enabled(s, step)
    ensures s.world.executions <= After(s, step).world.executions
  {
    hide Ready, Decide;
  }

  lemma RanIsExplained(s: State, k: Ticket)
    requires Enabled(s, Execute(k, Ran)) && AllExplained(s)
    ensures HasExecuted(After(s, Execute(k, Ran)), k)
  {
    assert DecisionExplained(s, k);
    var after := After(s, Execute(k, Ran));
    assert ExplainedBy(after, k, after.world.executions[|s.world.executions|]);
  }

  lemma StepAnswers(s: State, step: Step)
    requires Enabled(s, step) && AllExplained(s) && TrueIsExecuted(s)
    ensures TrueIsExecuted(After(s, step))
  {
    var after := After(s, step);
    CallsAndLegsStay(s, step);
    ExecutionsGrow(s, step);
    hide After, Enabled, AllExplained, Succeeded;
    forall k | k in after.running && Succeeded(after.running[k].stage) ensures HasExecuted(after, k) {
      if k in s.running && Succeeded(s.running[k].stage) {
        assert HasExecuted(s, k);
        var i :| 0 <= i < |s.world.executions| && ExplainedBy(s, k, s.world.executions[i]);
        assert ExplainedBy(after, k, after.world.executions[i]);
      } else {
        NewlySucceeded(s, step, k);
        RanIsExplained(s, k);
      }
    }
  }

  lemma {:induction false} RunAnswers(s: State, steps: seq<Step>)
    requires Possible(s, steps) && AllExplained(s) && TrueIsExecuted(s)
    ensures TrueIsExecuted(RunFrom(s, steps))
    decreases |steps|
  {
    hide AllExplained, TrueIsExecuted, After, Enabled;
    if steps != [] {
      StepExplains(s, steps[0]);
      StepAnswers(s, steps[0]);
      RunAnswers(After(s, steps[0]), steps[1..]);
    }
  }

  /** From a new executor: a trigger that answers true has had its own leg, or the one recovery chose, executed. */
  lemma TrueOnlyIfExecuted(groups: map<GroupId, Group>, steps: seq<Step>, k: Ticket)
    requires Possible(New(groups), steps) && forall g | g in groups :: groups[g].winner.None?
    requires At(RunFrom(New(groups), steps), k, Done(Ok(true)))
    ensures var s := RunFrom(New(groups), steps);
            exists i :: 0 <= i < |s.world.executions| && s.world.executions[i].group in s.world.groups
                        && Explains(s.world.groups[s.world.executions[i].group], s.running[k].call,
                                    s.world.executions[i])
  {
    var start := New(groups);
    assert AllExplained(start) && TrueIsExecuted(start);
    RunAnswers(start, steps);
    hide RunFrom, Possible;
    var s := RunFrom(start, steps);
    assert HasExecuted(s, k);
    var i :| 0 <= i < |s.world.executions| && ExplainedBy(s, k, s.world.executions[i]);
  }

  // ---- Which call an execution belongs to ----

  /** A trigger that is running has arrived. */
  ghost predicate Arrived(steps: seq<Step>, c: Call) {
    exists i :: 0 <= i < |steps| && steps[i] == Arrive(c)
  }

  lemma {:induction false} RunExplains(s: State, steps: seq<Step>)
    requires Possible(s, steps) && AllExplained(s)
    ensures AllExplained(RunFrom(s, steps))
    ensures forall k | k in RunFrom(s, steps).running ::
              || (k in s.running && RunFrom(s, steps).running[k].call == s.running[k].call)
              || Arrived(steps, RunFrom(s, steps).running[k].call)
    decreases |steps|
  {
    hide AllExplained, Enabled;
    if steps != [] {
      var next, end := After(s, steps[0]), RunFrom(After(s, steps[0]), steps[1..]);
      StepExplains(s, steps[0]);
      NewCallArrives(s, steps[0]);
      RunExplains(next, steps[1..]);
      hide After;
      forall k | k in end.running
        ensures (k in s.running && end.running[k].call == s.running[k].call) || Arrived(steps, end.running[k].call)
      {
        if Arrived(steps[1..], end.running[k].call) {
          var i :| 0 <= i < |steps[1..]| && steps[1..][i] == Arrive(end.running[k].call);
          assert steps[i + 1] == Arrive(end.running[k].call);
        } else if k !in s.running {
          assert steps[0] == Arrive(end.running[k].call);
        }
      }
    }
  }

  lemma NewCallArrives(s: State, step: Step)
    requires Enabled(s, step)
    ensures var after := After(s, step);
            forall k | k in after.running ::
              || (k in s.running && after.running[k].call == s.running[k].call)
              || step == Arrive(after.running[k].call)
  {
    hide Decide;
  }

  /**
    From a new executor, over any interleaving: every execution is of a leg some arrived call of its
    group was for, or told recovery to choose, with the group's other leg as the sibling, and a group
    that is resolved has the winner of one of its executions.
   */
  lemma WinnerIsTheTriggeredLeg(groups: map<GroupId, Group>, steps: seq<Step>)
    requires Possible(New(groups), steps) && forall g | g in groups :: groups[g].winner.None?
    ensures var w := RunFrom(New(groups), steps).world;
            && (forall i | 0 <= i < |w.executions| ::
                  var e := w.executions[i];
                  e.group in w.groups && exists c :: Arrived(steps, c) && Explains(w.groups[e.group], c, e))
            && (forall g | g in w.groups && w.groups[g].winner.Some? ::
                  exists i :: 0 <= i < |w.executions| && w.executions[i].group == g
                              && w.groups[g].winner == Some(w.executions[i].winner))
  {
    var s := New(groups);
    assert AllExplained(s);
    RunExplains(s, steps);
    hide RunFrom, Possible;
    var end := RunFrom(s, steps);
    forall i | 0 <= i < |end.world.executions|
      ensures var e := end.world.executions[i];
              e.group in end.world.groups && exists c :: Arrived(steps, c) && Explains(end.world.groups[e.group], c, e)
    {
      var e := end.world.executions[i];
      assert Explained(end, e);
      var k :| ExplainedBy(end, k, e);
      assert Arrived(steps, end.running[k].call) && Explains(end.world.groups[e.group], end.running[k].call, e);
    }
    forall g | g in end.world.groups && end.world.groups[g].winner.Some?
      ensures exists i :: 0 <= i < |end.world.executions| && end.world.executions[i].group == g
                          && end.world.groups[g].winner == Some(end.world.executions[i].winner)
    {
      var i :| 0 <= i < |end.world.executions| && HasWinner(end, end.world.executions[i], g);
    }
  }
}
