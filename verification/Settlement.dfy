/**
  Balances, reservations and the settlement arithmetic shared by the cash leg of a buy and the
  position leg of a sale.
 */
module Settlement {
  import opened Types
  import opened ExactMoney

  datatype Balance = Balance(total: Money, available: Money, reserved: Money)

  /** The composition and non-negativity every wallet and position row must have. */
  predicate WellFormed(b: Balance) {
    b.available >= 0 && b.reserved >= 0 && b.total == b.available + b.reserved
  }

  // ---- Reserving and releasing ----

  function Reserve(b: Balance, amount: Money, shortage: ErrorCode): Result<Balance> {
    var _ :- Check(WellFormed(b) && amount >= 0, INVARIANT_VIOLATION);
    var _ :- Check(amount <= b.available, shortage);
    Ok(Balance(b.total, b.available - amount, b.reserved + amount))
  }

  function Release(b: Balance, amount: Money): Result<Balance> {
    var _ :- Check(WellFormed(b) && 0 <= amount <= b.reserved, INVARIANT_VIOLATION);
    Ok(Balance(b.total, b.available + amount, b.reserved - amount))
  }

  /** A release is the inverse of a reserve: it succeeds exactly where a reserve led, and leads back. */
  lemma ReleaseUndoesReserve(before: Balance, reserved: Balance, amount: Money, shortage: ErrorCode)
    ensures Reserve(before, amount, shortage) == Ok(reserved) <==> Release(reserved, amount) == Ok(before)
  {
  }

  // ---- Settlement ----

  datatype Request = Request(
    balance: Balance,
    remaining: Money,           // what the reservation still holds
    consumed: Money,            // what leaves the balance
    terminal: bool,
    desired: Option<Money>      // the exposure a non-terminal fill still needs reserved
  )

  datatype Plan = Plan(balance: Balance, remaining: Money, released: bool)

  /** What the reservation covers. */
  function Covered(q: Request): Money {
    Min(q.consumed, q.remaining)
  }

  /** What has to come out of `available` beyond the reservation. */
  function Shortfall(q: Request): Money {
    q.consumed - Covered(q)
  }

  /** What the reservation holds after the fill. */
  function Kept(q: Request): Money {
    var left := q.remaining - Covered(q);
    if q.terminal then 0
    else if q.desired.Some? then Min(left, q.desired.value)
    else left
  }

  function Settled(q: Request): Plan {
    var handedBack := q.remaining - Covered(q) - Kept(q);
    Plan(
      Balance(
        q.balance.total - q.consumed,
        q.balance.available - Shortfall(q) + handedBack,
        q.balance.reserved - Covered(q) - handedBack
      ),
      Kept(q),
      q.terminal
    )
  }

  /** The numbers a settlement reads, and what is left of them, are inside the exact-money domain. */
  predicate ExactInputs(q: Request) {
    && Exact(q.consumed) && Exact(q.remaining)
    && Exact(q.balance.total) && Exact(q.balance.reserved) && Exact(q.balance.available)
    && Exact(q.balance.total - q.consumed)
    && Exact(q.balance.reserved - Covered(q))
    && Exact(q.balance.available - Shortfall(q))
  }

  /** So is what it hands back. */
  predicate ExactRelease(q: Request) {
    var left := q.remaining - Covered(q);
    && Exact(left)
    && (!q.terminal && q.desired.Some? ==> Exact(q.desired.value))
    && (q.terminal || Kept(q) != left ==>
          Exact(Settled(q).balance.available) && Exact(Settled(q).balance.reserved) && Exact(Kept(q)))
  }

  /** The second half of a settlement: what the reservation no longer needs returns to `available`. */
  function HandedBack(q: Request): Result<Plan> {
    var _ :- Check(ExactRelease(q), INVARIANT_VIOLATION);
    var _ :- Check(Settled(q).balance.reserved >= 0 && Settled(q).balance.total >= 0, INVARIANT_VIOLATION);
    Ok(Settled(q))
  }

  /** The settlement or its refusal. */
  function Settle(q: Request, shortage: ErrorCode): Result<Plan> {
    var _ :- Check(ExactInputs(q) && q.consumed >= 0, INVARIANT_VIOLATION);
    var _ :- Check(Shortfall(q) <= q.balance.available, shortage);
    HandedBack(q)
  }

  /** The source's `giveBack`: an amount of the reservation returns to `available`. */
  function GiveBack(p: Plan, amount: Money): Result<Plan> {
    var after := Plan(Balance(p.balance.total, p.balance.available + amount, p.balance.reserved - amount),
                      p.remaining - amount, p.released);
    var _ :- Check(Exact(after.balance.available) && Exact(after.balance.reserved) && Exact(after.remaining),
                   INVARIANT_VIOLATION);
    Ok(after)
  }

  method HandBack(q: Request, consumedFrom: Balance, left: Money) returns (r: Result<Plan>)
    requires left == q.remaining - Covered(q)
    requires consumedFrom == Balance(q.balance.total - q.consumed, q.balance.available - Shortfall(q),
                                     q.balance.reserved - Covered(q))
    ensures r == HandedBack(q)
  {
    hide Exact;
    if !Exact(left) {
      return Err(INVARIANT_VIOLATION);
    }
    r := Ok(Plan(consumedFrom, left, q.terminal));
    if q.terminal {
      r := GiveBack(r.value, left);
    } else if q.desired.Some? {
      if !Exact(q.desired.value) {
        return Err(INVARIANT_VIOLATION);
      }
      if left > q.desired.value {
        r := GiveBack(r.value, left - q.desired.value);
      }
    }
    if r.Ok? && (r.value.balance.reserved < 0 || r.value.balance.total < 0) {
      return Err(INVARIANT_VIOLATION);
    }
  }

  /** `planSettlement`, moving the money step by step: it computes `Settle`. */
  method PlanSettlement(q: Request, shortage: ErrorCode) returns (r: Result<Plan>)
    ensures r == Settle(q, shortage)
  {
    hide Exact, HandedBack;
    var fromReservation := if q.consumed < q.remaining then q.consumed else q.remaining;
    var shortfall := q.consumed - fromReservation;
    var total, reserved, available :=
      q.balance.total - q.consumed, q.balance.reserved - fromReservation, q.balance.available - shortfall;
    if !(Exact(q.consumed) && q.consumed >= 0 && Exact(q.remaining) && Exact(q.balance.total) && Exact(total)
         && Exact(q.balance.reserved) && Exact(reserved) && Exact(q.balance.available) && Exact(available)) {
      return Err(INVARIANT_VIOLATION);
    }
    if available < 0 {
      return Err(shortage);
    }
    r := HandBack(q, Balance(total, available, reserved), q.remaining - fromReservation);
  }

  // ---- What a settlement keeps ----

  /** A balance and a reservation it backs, as the ledger invariant has them. */
  predicate Backed(q: Request) {
    WellFormed(q.balance) && 0 <= q.remaining <= q.balance.reserved
      && (q.desired.Some? ==> q.desired.value >= 0)
  }

  /**
    A settlement keeps the composition of the balance, takes exactly the consumed amount out of
    the total, and moves `reserved` by exactly what it moves the reservation row: what the balance
    holds for all other reservations is untouched.
   */
  lemma SettlementKeeps(q: Request, shortage: ErrorCode)
    requires Backed(q) && Settle(q, shortage).Ok?
    ensures var p := Settle(q, shortage).value;
            && WellFormed(p.balance)
            && p.balance.total == q.balance.total - q.consumed
            && p.balance.reserved - p.remaining == q.balance.reserved - q.remaining
            && 0 <= p.remaining <= q.remaining
            && (q.terminal ==> p.remaining == 0)
            && p.released == q.terminal
  {
    hide Exact;
  }

  /**
    From a backed reservation the invariant checks can only refuse values outside the exact-money
    domain or a negative amount; otherwise a settlement is refused exactly when the fill needs
    more than the reservation and the available balance together.
   */
  lemma RefusedExactlyOnShortage(q: Request, shortage: ErrorCode)
    requires Backed(q) && q.consumed >= 0 && ExactInputs(q) && ExactRelease(q)
    ensures Settle(q, shortage) ==
              if q.consumed > q.remaining + q.balance.available then Err(shortage) else Ok(Settled(q))
  {
    hide Exact;
  }

  /** Whatever a settlement writes is inside the exact-money domain, what it hands back included. */
  lemma SettledInDomain(q: Request, shortage: ErrorCode)
    requires Settle(q, shortage).Ok?
    ensures var plan := Settle(q, shortage).value;
            Exact(plan.balance.total) && Exact(plan.balance.available) && Exact(plan.balance.reserved)
            && Exact(plan.remaining)
  {
    hide Exact;
    assert Exact(Settled(q).balance.total);
  }

  /** After a resizing fill the reservation holds no more than the order still needs. */
  lemma ResizedToExposure(q: Request, shortage: ErrorCode)
    requires Settle(q, shortage).Ok? && !q.terminal && q.desired.Some?
    ensures Settle(q, shortage).value.remaining <= q.desired.value
    ensures q.remaining - q.consumed >= q.desired.value && q.consumed <= q.remaining ==>
              Settle(q, shortage).value.remaining == q.desired.value
  {
    hide Exact;
  }

  /** A run of fills of one order: consumed amounts and resizing targets, the last one terminal. */
  datatype Batch = Batch(consumed: Money, desired: Option<Money>)

  function SettleAll(b: Balance, remaining: Money, batches: seq<Batch>, shortage: ErrorCode): Result<Plan>
    requires batches != []
    decreases |batches|
  {
    var head := batches[0];
    if |batches| == 1 then Settle(Request(b, remaining, head.consumed, true, None), shortage) else
      var next :- Settle(Request(b, remaining, head.consumed, false, head.desired), shortage);
      SettleAll(next.balance, next.remaining, batches[1..], shortage)
  }

  function ConsumedBy(batches: seq<Batch>): Money {
    if batches == [] then 0 else batches[0].consumed + ConsumedBy(batches[1..])
  }

  /**
    However an order's fills are split into batches and however its reservation is resized on the
    way, a completed run leaves the balance that one settlement of the sum would: the total less
    what was consumed, the reservation gone, the rest available.
   */
  lemma {:induction false} BatchingIsImmaterial(b: Balance, remaining: Money, batches: seq<Batch>, shortage: ErrorCode)
    requires batches != [] && WellFormed(b) && 0 <= remaining <= b.reserved
    requires forall i | 0 <= i < |batches| :: batches[i].desired.Some? ==> batches[i].desired.value >= 0
    requires SettleAll(b, remaining, batches, shortage).Ok?
    ensures SettleAll(b, remaining, batches, shortage).value
         == Plan(Balance(b.total - ConsumedBy(batches), b.total - ConsumedBy(batches) - (b.reserved - remaining),
                         b.reserved - remaining), 0, true)
    decreases |batches|
  {
    hide Exact;
    var head := batches[0];
    if |batches| == 1 {
      SettlementKeeps(Request(b, remaining, head.consumed, true, None), shortage);
    } else {
      var q := Request(b, remaining, head.consumed, false, head.desired);
      SettlementKeeps(q, shortage);
      var next := Settle(q, shortage).value;
      BatchingIsImmaterial(next.balance, next.remaining, batches[1..], shortage);
    }
  }
}
