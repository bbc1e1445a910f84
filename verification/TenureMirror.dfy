/**
  What the engine shows of an order the ledger is done with: the ledger's own status after a refusal,
  and a cancellation that no later book, trade or transaction takes back.
 */
module TenureMirror {
  import opened Types
  import opened LedgerModel
  import opened Tenure
  import Engine

  /**
    A fill the ledger refuses because the order is over: the engine takes the status of the row, and
    the whole quantity if that is FILLED, what it had filled before otherwise.
   */
  lemma RefusalMirrors(s: System)
    requires s.flight.Some? && s.flight.value.FillInFlight?
    requires Attempt(s.ledger, FlightCommand(s)) == Err(ORDER_TERMINAL)
    ensures var id, before, after := s.flight.value.id, s.flight.value.before, After(s, Land(Ran));
            && id in s.ledger.orders && s.ledger.orders[id].status in {FILLED, CANCELLED, EXPIRED, REJECTED}
            && after.flight.None? && after.ledger == s.ledger && id in after.orders
            && after.orders[id].status == s.ledger.orders[id].status
            && after.orders[id].filled
               == (if s.ledger.orders[id].status == FILLED then before.quantity else before.filled)
            && after.orders[id] == before.(status := after.orders[id].status, filled := after.orders[id].filled,
                                           version := before.version + 1)
            && (forall other | other in s.orders && other != id :: after.orders[other] == s.orders[other])
  {
    hide PersistFill;
    TerminalRefusal(s.ledger, FlightCommand(s).fill);
  }

  /** A fill that commits: the engine and the row end with the same filled quantity and the same status. */
  lemma CommitMirrors(s: System)
    requires Agrees(s) && s.flight.Some? && s.flight.value.FillInFlight?
    requires Attempt(s.ledger, FlightCommand(s)).Ok?
    ensures var id, before, after := s.flight.value.id, s.flight.value.before, After(s, Land(Ran));
            && id in after.orders && id in after.ledger.orders
            && after.orders[id].filled == after.ledger.orders[id].filled
            && after.orders[id].status == after.ledger.orders[id].status
            && after.orders[id] == before.(filled := after.orders[id].filled, status := after.orders[id].status,
                                           version := before.version + 1)
  {
    hide PersistFill;
    FillLandsOnRow(s, Attempt(s.ledger, FlightCommand(s)).value);
  }

  /** The engine has the order over and done: nothing waits for it and nothing of it is in flight. */
  predicate Over(s: System, id: OrderId) {
    && id in s.orders && IsTerminal(s.orders[id].status) && id !in s.conditional
    && (s.flight.Some? ==> s.flight.value.id != id)
  }

  lemma StepLeavesOver(s: System, step: Step, id: OrderId)
    requires Enabled(s, step) && Over(s, id)
    ensures Over(After(s, step), id) && After(s, step).orders[id] == s.orders[id]
  {
    hide Apply, FlightCommand, ElsewhereOnly, Engine.MatchOrder, Engine.Idle, Engine.Settled, Engine.Updated,
         PersistedAs;
  }

  lemma {:induction false} OverIsFinal(s: System, steps: seq<Step>, id: OrderId)
    requires Possible(s, steps) && Over(s, id)
    ensures id in RunFrom(s, steps).orders && RunFrom(s, steps).orders[id] == s.orders[id]
    decreases |steps|
  {
    hide Enabled, After, Over;
    if steps != [] {
      StepLeavesOver(s, steps[0], id);
      OverIsFinal(After(s, steps[0]), steps[1..], id);
    } else {
      OverIsThere(s, id);
    }
  }

  lemma OverIsThere(s: System, id: OrderId)
    requires Over(s, id)
    ensures id in s.orders
  {
  }

  /**
    A cancellation that reaches the engine while the order is live leaves it CANCELLED with what it
    had filled, through every book, trade and transaction after it.
   */
  lemma CancellationStands(s: System, id: OrderId, steps: seq<Step>)
    requires Enabled(s, Notify(id)) && id in s.orders && id !in s.conditional
    requires s.orders[id].status !in {FILLED, CANCELLED, EXPIRED, REJECTED} && Possible(After(s, Notify(id)), steps)
    ensures var end := RunFrom(After(s, Notify(id)), steps);
            && id in end.orders
            && end.orders[id] == s.orders[id].(status := CANCELLED, version := s.orders[id].version + 1)
  {
    var after := After(s, Notify(id));
    assert Over(after, id)
           && after.orders[id] == s.orders[id].(status := CANCELLED, version := s.orders[id].version + 1);
    hide Enabled, After, Over, Possible, RunFrom;
    OverIsFinal(after, steps, id);
  }
}
