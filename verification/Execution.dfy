/** The book walk: how one order is executed against one side of an order book. */
module Execution {
  import opened Types
  import opened Arithmetic
  import opened ExactMoney
  import opened Fees

  datatype Level = Level(price: Money, volume: int)

  datatype Order = Order(
    side: Side,
    kind: OrderType,
    quantity: int,
    filled: int,
    limitPrice: Option<Money>
  ) {
    /** Immediate-or-cancel: a market order, or a triggered order without a limit. */
    predicate MarketStyle() {
      kind == MARKET || (kind in {STOP, TAKE_PROFIT} && limitPrice.None?)
    }
  }

  datatype Protection = Protection(referenceMid: Money, maxDeviationBps: int)

  datatype Fill = Fill(price: Money, quantity: int, fee: Money)

  datatype TerminalReason = IOC_REMAINDER | PRICE_PROTECTION

  datatype ExecutionResult = ExecutionResult(
    fills: seq<Fill>,
    filledQuantity: int,
    unfilledQuantity: int,
    grossAmount: Money,
    feeTotal: Money,
    netAmount: Money,
    slippageAmount: Money,
    terminalReason: Option<TerminalReason>
  )

  // ---- Validation ----

  function ReadPrice(price: Money): Result<Money> {
    if price > 0 && Exact(price) then Ok(price) else Err(INVALID_PRICE)
  }

  function ValidateOrder(order: Order): Result<()> {
    var _ :- Check(order.kind != OCO, INVALID_ORDER);
    var _ :- Check(order.quantity > 0 && order.filled >= 0, INVALID_QUANTITY);
    var _ :- Check(order.filled < order.quantity, INVALID_ORDER);
    var _ :- Check(order.kind == MARKET ==> order.limitPrice.None?, INVALID_ORDER);
    var _ :- Check(order.kind == LIMIT ==> order.limitPrice.Some?, INVALID_ORDER);
    var _ :- if order.limitPrice.Some? then ReadPrice(order.limitPrice.value) else Ok(0);
    Ok(())
  }

  function ValidateProtection(protection: Protection): Result<()> {
    var _ :- ReadPrice(protection.referenceMid);
    Check(protection.maxDeviationBps >= 0, INVALID_ORDER)
  }

  predicate ValidLevel(level: Level) {
    level.price > 0 && Exact(level.price) && level.volume > 0
  }

  function LevelError(level: Level): ErrorCode {
    if ReadPrice(level.price).Err? then INVALID_PRICE else INVALID_QUANTITY
  }

  /** The first invalid level refuses the whole side. */
  function ValidateLevels(levels: seq<Level>): Result<()> {
    if levels == [] then Ok(())
    else if !ValidLevel(levels[0]) then Err(LevelError(levels[0]))
    else ValidateLevels(levels[1..])
  }

  predicate Ascending(levels: seq<Level>) {
    forall i, j | 0 <= i < j < |levels| :: levels[i].price < levels[j].price
  }

  predicate Descending(levels: seq<Level>) {
    forall i, j | 0 <= i < j < |levels| :: levels[i].price > levels[j].price
  }

  function ValidateBook(bids: seq<Level>, asks: seq<Level>): Result<()> {
    var _ :- Check(bids != [] && asks != [], CANCEL_ONLY);
    var _ :- ValidateLevels(bids);
    var _ :- ValidateLevels(asks);
    var _ :- Check(Descending(bids) && Ascending(asks), INVALID_ORDER);
    Check(bids[0].price < asks[0].price, CANCEL_ONLY)
  }

  function WithinProtection(price: Money, protection: Protection): Result<bool> {
    var deviation :- Checked(Abs(price - protection.referenceMid));
    var scaled :- Checked(deviation * 10_000);
    var permitted :- Checked(protection.referenceMid * protection.maxDeviationBps);
    Ok(scaled <= permitted)
  }

  // ---- The walk ----

  predicate WithinLimit(order: Order, price: Money) {
    match order.limitPrice
    case None => true
    case Some(limit) => if order.side == BUY then price <= limit else price >= limit
  }

  predicate Protected(order: Order, protection: Protection, price: Money) {
    order.MarketStyle() ==>
      Abs(price - protection.referenceMid) * 10_000 <= protection.referenceMid * protection.maxDeviationBps
  }

  /** The order may trade at this level. */
  predicate Admissible(order: Order, protection: Protection, level: Level) {
    WithinLimit(order, level.price) && Protected(order, protection, level.price)
  }

  datatype WalkState = WalkState(
    remaining: int,
    grossAmount: Money,
    feeTotal: Money,
    fills: seq<Fill>,
    protectionStopped: bool
  )

  /** One level is consumed: as much of it as the order still wants. */
  function Consume(order: Order, schedule: FeeSchedule, level: Level, w: WalkState): Result<WalkState>
    requires schedule.Valid()
  {
    var consumed := Min(level.volume, w.remaining);
    var fee :- Calculate(schedule, order.side, level.price, consumed);
    var notional :- Checked(level.price * consumed);
    var gross :- Checked(w.grossAmount + notional);
    var fees :- Checked(w.feeTotal + fee);
    Ok(WalkState(w.remaining - consumed, gross, fees, w.fills + [Fill(level.price, consumed, fee)], false))
  }

  function WalkLevels(order: Order, schedule: FeeSchedule, protection: Protection, levels: seq<Level>, w: WalkState)
      : Result<WalkState>
    requires schedule.Valid()
  {
    if levels == [] || w.remaining == 0 || !WithinLimit(order, levels[0].price) then Ok(w) else
      var within :- if order.MarketStyle() then WithinProtection(levels[0].price, protection) else Ok(true);
      if !within then Ok(w.(protectionStopped := true)) else
        var next :- Consume(order, schedule, levels[0], w);
        WalkLevels(order, schedule, protection, levels[1..], next)
  }

  function Start(order: Order): WalkState {
    WalkState(order.quantity - order.filled, 0, 0, [], false)
  }

  function Summarise(order: Order, protection: Protection, w: WalkState): Result<ExecutionResult> {
    var filled := order.quantity - order.filled - w.remaining;
    var reference :- Checked(protection.referenceMid * filled);
    var slippage :- Checked(if order.side == BUY then w.grossAmount - reference else reference - w.grossAmount);
    var net :- Checked(if order.side == BUY then w.grossAmount + w.feeTotal else w.grossAmount - w.feeTotal);
    var reason := if w.remaining == 0 then None
                  else if w.protectionStopped then Some(PRICE_PROTECTION)
                  else if order.MarketStyle() then Some(IOC_REMAINDER)
                  else None;
    Ok(ExecutionResult(w.fills, filled, w.remaining, w.grossAmount, w.feeTotal, net, slippage, reason))
  }

  function Validate(order: Order, bids: seq<Level>, asks: seq<Level>, market: Market, schedule: FeeSchedule,
                    protection: Protection): Result<()> {
    var _ :- ValidateOrder(order);
    var _ :- ValidateProtection(protection);
    var _ :- ValidateBook(bids, asks);
    Check(schedule.market == market, INVARIANT_VIOLATION)
  }

  function Execute(order: Order, bids: seq<Level>, asks: seq<Level>, market: Market, schedule: FeeSchedule,
                   protection: Protection): Result<ExecutionResult>
    requires schedule.Valid()
  {
    var _ :- Validate(order, bids, asks, market, schedule, protection);
    var levels := if order.side == BUY then asks else bids;
    var w :- WalkLevels(order, schedule, protection, levels, Start(order));
    Summarise(order, protection, w)
  }

  /** `calculateExecution`: the walk as the loop it is. */
  method CalculateExecution(order: Order, bids: seq<Level>, asks: seq<Level>, market: Market, schedule: FeeSchedule,
                            protection: Protection)
    returns (r: Result<ExecutionResult>)
    requires schedule.Valid()
    ensures r == Execute(order, bids, asks, market, schedule, protection)
  {
    hide Validate, WithinLimit, WithinProtection, Calculate, Checked, Summarise;
    var valid := Validate(order, bids, asks, market, schedule, protection);
    if valid.Err? {
      return Err(valid.code);
    }
    var levels := if order.side == BUY then asks else bids;
    var remaining, grossAmount, feeTotal := order.quantity - order.filled, 0, 0;
    var fills: seq<Fill> := [];
    var protectionStopped := false;
    ghost var whole := WalkLevels(order, schedule, protection, levels, Start(order));
    var i := 0;
    while i < |levels|
      invariant 0 <= i <= |levels| && !protectionStopped
      invariant whole == WalkLevels(order, schedule, protection, levels[i..],
                                    WalkState(remaining, grossAmount, feeTotal, fills, false))
    {
      var level := levels[i];
      assert levels[i..][0] == level && levels[i..][1..] == levels[i + 1..];
      if remaining == 0 || !WithinLimit(order, level.price) {
        break;
      }
      if order.MarketStyle() {
        var within := WithinProtection(level.price, protection);
        if within.Err? {
          return Err(within.code);
        }
        if !within.value {
          protectionStopped := true;
          break;
        }
      }
      var consumed := if level.volume < remaining then level.volume else remaining;
      var fee := Calculate(schedule, order.side, level.price, consumed);
      if fee.Err? {
        return Err(fee.code);
      }
      var notional := Checked(level.price * consumed);
      if notional.Err? {
        return Err(notional.code);
      }
      fills := fills + [Fill(level.price, consumed, fee.value)];
      var gross, fees := Checked(grossAmount + notional.value), Checked(feeTotal + fee.value);
      if gross.Err? {
        return Err(gross.code);
      }
      if fees.Err? {
        return Err(fees.code);
      }
      grossAmount, feeTotal := gross.value, fees.value;
      remaining := remaining - consumed;
      i := i + 1;
    }
    r := Summarise(order, protection, WalkState(remaining, grossAmount, feeTotal, fills, protectionStopped));
  }

  // ---- What a walk means ----

  function Volume(levels: seq<Level>): int {
    if levels == [] then 0 else levels[0].volume + Volume(levels[1..])
  }

  function Total(amounts: seq<int>): int {
    if amounts == [] then 0 else amounts[0] + Total(amounts[1..])
  }

  /** The price of taking `amounts[i]` units of each level i. */
  function Cost(levels: seq<Level>, amounts: seq<int>): Money
    requires |levels| == |amounts|
  {
    if levels == [] then 0 else levels[0].price * amounts[0] + Cost(levels[1..], amounts[1..])
  }

  /** `amounts` takes no more from any level than is there. */
  predicate Respects(levels: seq<Level>, amounts: seq<int>) {
    |levels| == |amounts| && forall i | 0 <= i < |levels| :: 0 <= amounts[i] <= levels[i].volume
  }

  /** Best level first, each emptied before the next is touched. */
  function Greedy(levels: seq<Level>, want: int): (amounts: seq<int>)
    ensures |amounts| == |levels|
  {
    if levels == [] then [] else
      var taken := Min(levels[0].volume, want);
      [taken] + Greedy(levels[1..], want - taken)
  }

  /** The number of leading levels the order may trade at. */
  function AdmissibleCount(order: Order, protection: Protection, levels: seq<Level>): (n: nat)
    ensures n <= |levels|
  {
    if levels == [] || !Admissible(order, protection, levels[0]) then 0
    else 1 + AdmissibleCount(order, protection, levels[1..])
  }

  predicate PositiveLevels(levels: seq<Level>) {
    forall i | 0 <= i < |levels| :: levels[i].price > 0 && levels[i].volume > 0
  }

  function GrossOf(fills: seq<Fill>): Money {
    if fills == [] then 0 else GrossOf(fills[..|fills| - 1]) + fills[|fills| - 1].price * fills[|fills| - 1].quantity
  }

  function FeesOf(fills: seq<Fill>): Money {
    if fills == [] then 0 else FeesOf(fills[..|fills| - 1]) + fills[|fills| - 1].fee
  }

  function QuantityOf(fills: seq<Fill>): int {
    if fills == [] then 0 else QuantityOf(fills[..|fills| - 1]) + fills[|fills| - 1].quantity
  }

  lemma {:induction false} ValidatedLevels(levels: seq<Level>)
    requires ValidateLevels(levels).Ok?
    ensures PositiveLevels(levels)
  {
    if levels != [] {
      ValidatedLevels(levels[1..]);
      assert forall i | 1 <= i < |levels| :: levels[i] == levels[1..][i - 1];
    }
  }

  // ---- What is admitted to the walk ----

  predicate ReadableOrder(order: Order) {
    && order.kind != OCO && 0 <= order.filled < order.quantity
    && (order.kind == MARKET ==> order.limitPrice.None?)
    && (order.kind == LIMIT ==> order.limitPrice.Some?)
    && (order.limitPrice.Some? ==> order.limitPrice.value > 0 && Exact(order.limitPrice.value))
  }

  predicate ReadableLevels(levels: seq<Level>) {
    forall i | 0 <= i < |levels| :: levels[i].price > 0 && Exact(levels[i].price) && levels[i].volume > 0
  }

  /** Each bid is above the next and each ask below it. */
  predicate StepByStep(bids: seq<Level>, asks: seq<Level>) {
    && (forall i | 0 < i < |bids| :: bids[i - 1].price > bids[i].price)
    && (forall i | 0 < i < |asks| :: asks[i - 1].price < asks[i].price)
  }

  /** The first level that is not readable refuses them all, for its price before its volume. */
  lemma {:induction false} LevelsReadExactly(levels: seq<Level>) returns (first: nat)
    ensures first <= |levels| && ReadableLevels(levels[..first])
    ensures ValidateLevels(levels) ==
              if first == |levels| then Ok(())
              else if levels[first].price > 0 && Exact(levels[first].price) then Err(INVALID_QUANTITY)
              else Err(INVALID_PRICE)
    ensures first < |levels| ==> !ReadableLevels(levels)
  {
    hide Exact;
    if levels == [] || !ValidLevel(levels[0]) {
      first := 0;
    } else {
      var later := LevelsReadExactly(levels[1..]);
      first := later + 1;
      assert levels[..first] == [levels[0]] + levels[1..][..later];
      assert first < |levels| ==> levels[first] == levels[1..][later];
    }
  }

  lemma {:induction false} Stepwise(prices: seq<int>)
    requires forall i | 0 < i < |prices| :: prices[i - 1] < prices[i]
    ensures forall i, j | 0 <= i < j < |prices| :: prices[i] < prices[j]
  {
    if prices != [] {
      var front := prices[..|prices| - 1];
      Stepwise(front);
      forall i, j | 0 <= i < j < |prices| ensures prices[i] < prices[j] {
        assert prices[i] == front[i];
        if j == |prices| - 1 {
          assert prices[j - 1] < prices[j] && prices[j - 1] == front[j - 1];
        } else {
          assert prices[j] == front[j];
        }
      }
    }
  }

  lemma OrderedStepByStep(bids: seq<Level>, asks: seq<Level>)
    ensures Descending(bids) && Ascending(asks) <==> StepByStep(bids, asks)
  {
    if StepByStep(bids, asks) {
      var falling := seq(|bids|, i requires 0 <= i < |bids| => -bids[i].price);
      var rising := seq(|asks|, i requires 0 <= i < |asks| => asks[i].price);
      Stepwise(falling);
      Stepwise(rising);
      assert forall i | 0 <= i < |bids| :: falling[i] == -bids[i].price;
      assert forall i | 0 <= i < |asks| :: rising[i] == asks[i].price;
    }
  }

  /**
    What is matched at all: a readable order against a two-sided book of readable levels, each better
    than the next, the sides apart, under the market's own schedule. Only cancellations are left
    exactly where a side is missing, or the sides of a readable book meet.
   */
  lemma AdmittedExactly(order: Order, bids: seq<Level>, asks: seq<Level>, market: Market, schedule: FeeSchedule,
                        protection: Protection)
    ensures var read := ReadableOrder(order) && protection.referenceMid > 0 && Exact(protection.referenceMid)
                        && protection.maxDeviationBps >= 0;
            var quoted := bids != [] && asks != [] && ReadableLevels(bids) && ReadableLevels(asks)
                          && StepByStep(bids, asks);
            var admitted := Validate(order, bids, asks, market, schedule, protection);
            && (admitted.Ok? <==> read && quoted && bids[0].price < asks[0].price && schedule.market == market)
            && (admitted == Err(CANCEL_ONLY) <==>
                  read && (bids == [] || asks == [] || (quoted && bids[0].price >= asks[0].price)))
  {
    hide Exact;
    var bid := LevelsReadExactly(bids);
    var ask := LevelsReadExactly(asks);
    assert bids[..|bids|] == bids && asks[..|asks|] == asks;
    OrderedStepByStep(bids, asks);
    hide ValidateLevels, Descending, Ascending, ReadableLevels;
  }

  lemma WithinProtectionIsProtected(order: Order, protection: Protection, price: Money)
    requires order.MarketStyle() && WithinProtection(price, protection).Ok?
    ensures WithinProtection(price, protection).value <==> Protected(order, protection, price)
  {
  }

  /** The books of a walk, whatever level it has reached. */
  ghost predicate Booked(order: Order, schedule: FeeSchedule, w: WalkState)
    requires schedule.Valid()
  {
    && w.grossAmount == GrossOf(w.fills)
    && w.feeTotal == FeesOf(w.fills)
    && w.remaining == order.quantity - order.filled - QuantityOf(w.fills)
    && w.remaining >= 0
    && forall i | 0 <= i < |w.fills| :: PricedFill(order, schedule, w.fills[i])
  }

  /** A fill inside the limit, charged the fee of its own notional. */
  ghost predicate PricedFill(order: Order, schedule: FeeSchedule, f: Fill)
    requires schedule.Valid()
  {
    && f.quantity > 0 && f.price > 0 && f.price * f.quantity >= 0
    && f.fee == FeeOn(schedule, order.side, f.price * f.quantity)
    && WithinLimit(order, f.price)
  }

  lemma ConsumeBooks(order: Order, schedule: FeeSchedule, level: Level, w: WalkState)
    requires schedule.Valid() && level.price > 0 && level.volume > 0
    requires Booked(order, schedule, w) && w.remaining > 0 && WithinLimit(order, level.price)
    requires Consume(order, schedule, level, w).Ok?
    ensures Booked(order, schedule, Consume(order, schedule, level, w).value)
  {
    var consumed := Min(level.volume, w.remaining);
    var next := Consume(order, schedule, level, w).value;
    var fee := Calculate(schedule, order.side, level.price, consumed).value;
    CalculateIsFeeOn(schedule, order.side, level.price, consumed);
    var f := Fill(level.price, consumed, fee);
    assert next.fills[..|next.fills| - 1] == w.fills && next.fills[|next.fills| - 1] == f;
    assert PricedFill(order, schedule, f);
  }

  /** Every walk keeps the books: totals are sums over the fills, and filled plus unfilled is what was wanted. */
  lemma {:induction false} WalkBooks(order: Order, schedule: FeeSchedule, protection: Protection, levels: seq<Level>,
                                     w: WalkState)
    requires schedule.Valid() && PositiveLevels(levels) && Booked(order, schedule, w)
    requires WalkLevels(order, schedule, protection, levels, w).Ok?
    ensures Booked(order, schedule, WalkLevels(order, schedule, protection, levels, w).value)
    decreases |levels|
  {
    if levels != [] && w.remaining > 0 && WithinLimit(order, levels[0].price) {
      var within := if order.MarketStyle() then WithinProtection(levels[0].price, protection) else Ok(true);
      if within.value {
        ConsumeBooks(order, schedule, levels[0], w);
        WalkBooks(order, schedule, protection, levels[1..], Consume(order, schedule, levels[0], w).value);
      }
    }
  }

  /** `out` is what the greedy walk over the admissible prefix of `levels` makes of `w`. */
  ghost predicate GreedyOutcome(order: Order, protection: Protection, levels: seq<Level>, w: WalkState, out: WalkState)
  {
    var n := AdmissibleCount(order, protection, levels);
    var amounts := Greedy(levels[..n], w.remaining);
    && out.remaining == w.remaining - Min(w.remaining, Volume(levels[..n]))
    && out.grossAmount == w.grossAmount + Cost(levels[..n], amounts)
    && FillsFollow(levels[..n], amounts, w.fills, out.fills)
    && (out.protectionStopped <==> out.remaining > 0 && n < |levels| && WithinLimit(order, levels[n].price))
  }

  /** The new fills are at the leading levels, one each, for the given amounts. */
  ghost predicate FillsFollow(levels: seq<Level>, amounts: seq<int>, before: seq<Fill>, after: seq<Fill>)
    requires |amounts| == |levels|
  {
    && before <= after && |after| - |before| <= |levels|
    && forall k | |before| <= k < |after| ::
         after[k].price == levels[k - |before|].price && after[k].quantity == amounts[k - |before|]
  }

  lemma FillsFollowStep(levels: seq<Level>, amounts: seq<int>, before: seq<Fill>, fill: Fill, after: seq<Fill>)
    requires levels != [] && |amounts| == |levels|
    requires fill.price == levels[0].price && fill.quantity == amounts[0]
    requires FillsFollow(levels[1..], amounts[1..], before + [fill], after)
    ensures FillsFollow(levels, amounts, before, after)
  {
    assert (before + [fill])[|before|] == after[|before|] == fill;
    assert before <= after;
  }

  /**
    A walk takes the greedy amounts of the admissible prefix, in order, one fill per level touched,
    and stops on protection exactly when quantity is left at an unprotected level inside the limit.
   */
  lemma {:induction false} WalkIsGreedy(order: Order, schedule: FeeSchedule, protection: Protection,
                                        levels: seq<Level>, w: WalkState)
    requires schedule.Valid() && PositiveLevels(levels)
    requires w.remaining >= 0 && !w.protectionStopped
    requires WalkLevels(order, schedule, protection, levels, w).Ok?
    ensures GreedyOutcome(order, protection, levels, w, WalkLevels(order, schedule, protection, levels, w).value)
    decreases |levels|
  {
    hide Calculate, Exact;
    var n := AdmissibleCount(order, protection, levels);
    if levels == [] {
    } else if w.remaining == 0 {
      GreedyOfNothing(levels[..n]);
    } else if WithinLimit(order, levels[0].price) {
      if order.MarketStyle() {
        WithinProtectionIsProtected(order, protection, levels[0].price);
      }
      if Protected(order, protection, levels[0].price) {
        var next := Consume(order, schedule, levels[0], w).value;
        var out := WalkLevels(order, schedule, protection, levels[1..], next).value;
        WalkIsGreedy(order, schedule, protection, levels[1..], next);
        GreedyOutcomeStep(order, protection, levels, w, next, out);
      }
    }
  }

  lemma GreedyOutcomeStep(order: Order, protection: Protection, levels: seq<Level>, w: WalkState, next: WalkState,
                          out: WalkState)
    requires levels != [] && PositiveLevels(levels) && w.remaining > 0
    requires Admissible(order, protection, levels[0])
    requires var consumed := Min(levels[0].volume, w.remaining);
             && next.remaining == w.remaining - consumed
             && next.grossAmount == w.grossAmount + levels[0].price * consumed
             && |next.fills| == |w.fills| + 1 && w.fills <= next.fills
             && next.fills[|w.fills|].price == levels[0].price
             && next.fills[|w.fills|].quantity == consumed
    requires GreedyOutcome(order, protection, levels[1..], next, out)
    ensures GreedyOutcome(order, protection, levels, w, out)
  {
    var tail := levels[1..];
    var n := AdmissibleCount(order, protection, tail);
    assert AdmissibleCount(order, protection, levels) == n + 1;
    assert levels[..n + 1][1..] == tail[..n];
    PositiveVolume(tail[..n]);
    var amounts := Greedy(levels[..n + 1], w.remaining);
    assert amounts[1..] == Greedy(tail[..n], next.remaining);
    assert next.fills == w.fills + [next.fills[|w.fills|]];
    FillsFollowStep(levels[..n + 1], amounts, w.fills, next.fills[|w.fills|], out.fills);
  }

  lemma {:induction false} PositiveVolume(levels: seq<Level>)
    requires PositiveLevels(levels)
    ensures Volume(levels) >= 0
  {
    if levels != [] {
      PositiveVolume(levels[1..]);
    }
  }

  lemma {:induction false} GreedyOfNothing(levels: seq<Level>)
    requires PositiveLevels(levels)
    ensures Cost(levels, Greedy(levels, 0)) == 0
    ensures Volume(levels) >= 0
  {
    if levels != [] {
      GreedyOfNothing(levels[1..]);
    }
  }

  // ---- The greedy walk is optimal ----

  /** From the buyer's side a cost, from the seller's the opposite of a proceed: smaller is better. */
  function Signed(side: Side, x: Money): Money {
    if side == BUY then x else -x
  }

  /** Each level is at least as good as those behind it. */
  predicate BestFirst(side: Side, levels: seq<Level>) {
    forall i, j | 0 <= i < j < |levels| :: Signed(side, levels[i].price) <= Signed(side, levels[j].price)
  }

  lemma TailBestFirst(side: Side, levels: seq<Level>)
    requires levels != [] && BestFirst(side, levels) && PositiveLevels(levels)
    ensures BestFirst(side, levels[1..]) && PositiveLevels(levels[1..])
    ensures forall i | 0 <= i < |levels[1..]| ::
              Signed(side, levels[0].price) <= Signed(side, levels[1..][i].price)
  {
    assert forall i | 0 <= i < |levels[1..]| :: levels[1..][i] == levels[i + 1];
  }

  /** Wanting `extra` more units costs at least `floor` for each, when every level costs at least that. */
  lemma {:induction false} GreedyExtra(side: Side, levels: seq<Level>, want: int, extra: int, floor: Money)
    requires BestFirst(side, levels) && PositiveLevels(levels)
    requires forall i | 0 <= i < |levels| :: floor <= Signed(side, levels[i].price)
    requires 0 <= want && 0 <= extra && want + extra <= Volume(levels)
    ensures Signed(side, Cost(levels, Greedy(levels, want + extra)))
         >= Signed(side, Cost(levels, Greedy(levels, want))) + floor * extra
  {
    if levels != [] {
      var head, tail := levels[0], levels[1..];
      TailBestFirst(side, levels);
      var few, many := Min(head.volume, want), Min(head.volume, want + extra);
      assert 0 <= many - few <= extra;
      PositiveVolume(tail);
      GreedyExtra(side, tail, want - few, extra - (many - few), floor);
      MulMono(floor, Signed(side, head.price), many - few);
      SplitProduct(floor, extra, many - few);
      SplitProduct(head.price, many, few);
      assert Greedy(levels, want)[1..] == Greedy(tail, want - few);
      assert Greedy(levels, want + extra)[1..] == Greedy(tail, want + extra - many);
    }
  }

  lemma SplitProduct(a: int, b: int, c: int)
    ensures a * b == a * c + a * (b - c)
    ensures a * (b - c) == (b - c) * a
    ensures (-a) * (b - c) == -(a * (b - c))
  {
  }

  lemma {:induction false} RespectsVolume(levels: seq<Level>, amounts: seq<int>)
    requires Respects(levels, amounts)
    ensures 0 <= Total(amounts) <= Volume(levels)
  {
    if levels != [] {
      RespectsVolume(levels[1..], amounts[1..]);
    }
  }

  /**
    Among all ways of taking a quantity from a best-first book without taking more from a level
    than it holds, the greedy one has the least cost (buying) or the most proceeds (selling).
   */
  lemma {:induction false} GreedyOptimal(side: Side, levels: seq<Level>, amounts: seq<int>)
    requires BestFirst(side, levels) && PositiveLevels(levels) && Respects(levels, amounts)
    ensures Signed(side, Cost(levels, Greedy(levels, Total(amounts)))) <= Signed(side, Cost(levels, amounts))
  {
    if levels != [] {
      var head, tail := levels[0], levels[1..];
      TailBestFirst(side, levels);
      RespectsVolume(tail, amounts[1..]);
      GreedyOptimal(side, tail, amounts[1..]);
      var want := Total(amounts);
      var taken := Min(head.volume, want);
      assert taken - amounts[0] >= 0;
      assert want - taken >= 0 by { RespectsVolume(levels, amounts); }
      GreedyExtra(side, tail, want - taken, taken - amounts[0], Signed(side, head.price));
      SplitProduct(head.price, taken, amounts[0]);
      assert Greedy(levels, want)[1..] == Greedy(tail, want - taken);
    }
  }

  /** The greedy cost of a book is that of its best level and of what is left for the others. */
  lemma GreedyCostHead(levels: seq<Level>, want: int)
    requires levels != []
    ensures var taken := Min(levels[0].volume, want);
            Cost(levels, Greedy(levels, want))
            == levels[0].price * taken + Cost(levels[1..], Greedy(levels[1..], want - taken))
  {
    var taken := Min(levels[0].volume, want);
    assert Greedy(levels, want)[1..] == Greedy(levels[1..], want - taken);
  }

  /** Restricting the book to a prefix that holds the quantity changes nothing for the greedy walk. */
  lemma {:induction false} GreedyPrefix(levels: seq<Level>, n: nat, want: int)
    requires n <= |levels| && PositiveLevels(levels) && 0 <= want
    ensures Cost(levels[..n], Greedy(levels[..n], want))
         == Cost(levels, Greedy(levels, Min(want, Volume(levels[..n]))))
  {
    if n == 0 {
      GreedyOfNothing(levels);
    } else {
      var tail := levels[1..];
      assert levels[..n][1..] == tail[..n - 1];
      PositiveVolume(tail[..n - 1]);
      var taken := Min(levels[0].volume, want);
      GreedyPrefix(tail, n - 1, want - taken);
      var less := Min(want, Volume(levels[..n]));
      assert Min(levels[0].volume, less) == taken;
      GreedyCostHead(levels[..n], want);
      GreedyCostHead(levels, less);
      hide Cost, Greedy;
    }
  }

  /** Behind a limit on a best-first book nothing is inside it: the admissible prefix is every such level. */
  lemma {:induction false} LimitPrefix(order: Order, protection: Protection, levels: seq<Level>, k: nat)
    requires BestFirst(order.side, levels) && PositiveLevels(levels) && !order.MarketStyle() && k < |levels|
    ensures k < AdmissibleCount(order, protection, levels) <==> WithinLimit(order, levels[k].price)
  {
    TailBestFirst(order.side, levels);
    if !Admissible(order, protection, levels[0]) {
      assert Signed(order.side, levels[0].price) <= Signed(order.side, levels[k].price);
    } else if k > 0 {
      LimitPrefix(order, protection, levels[1..], k - 1);
    }
  }

  // ---- The theorems about an execution ----

  function BookSide(order: Order, bids: seq<Level>, asks: seq<Level>): seq<Level> {
    if order.side == BUY then asks else bids
  }

  /** An execution is a walk over a valid, best-first book side, summarised. */
  lemma ExecutionParts(order: Order, bids: seq<Level>, asks: seq<Level>, market: Market, schedule: FeeSchedule,
                       protection: Protection)
    returns (levels: seq<Level>, w: WalkState, r: ExecutionResult)
    requires schedule.Valid()
    requires Execute(order, bids, asks, market, schedule, protection).Ok?
    ensures levels == BookSide(order, bids, asks)
    ensures BestFirst(order.side, levels) && PositiveLevels(levels)
    ensures order.filled < order.quantity
    ensures WalkLevels(order, schedule, protection, levels, Start(order)) == Ok(w)
    ensures Summarise(order, protection, w) == Ok(r)
    ensures Execute(order, bids, asks, market, schedule, protection) == Ok(r)
  {
    levels := BookSide(order, bids, asks);
    w := WalkLevels(order, schedule, protection, levels, Start(order)).value;
    r := Summarise(order, protection, w).value;
    ValidatedLevels(bids);
    ValidatedLevels(asks);
  }

  /**
    Conservation: filled and unfilled add up to what the order still wanted, the fills sum to the
    filled quantity, the gross amount and the fee total, and every fill is inside the limit with
    the fee of its own notional.
   */
  lemma ExecutionConserves(order: Order, bids: seq<Level>, asks: seq<Level>, market: Market, schedule: FeeSchedule,
                           protection: Protection)
    requires schedule.Valid()
    requires Execute(order, bids, asks, market, schedule, protection).Ok?
    ensures var r := Execute(order, bids, asks, market, schedule, protection).value;
            && r.filledQuantity + r.unfilledQuantity == order.quantity - order.filled
            && r.filledQuantity >= 0 && r.unfilledQuantity >= 0
            && QuantityOf(r.fills) == r.filledQuantity
            && GrossOf(r.fills) == r.grossAmount
            && FeesOf(r.fills) == r.feeTotal
            && r.netAmount == r.grossAmount + Signed(order.side, r.feeTotal)
            && forall i | 0 <= i < |r.fills| :: PricedFill(order, schedule, r.fills[i])
  {
    var levels, w, _ := ExecutionParts(order, bids, asks, market, schedule, protection);
    WalkBooks(order, schedule, protection, levels, Start(order));
    FillsNonNegative(order, schedule, w.fills);
  }

  lemma {:induction false} FillsNonNegative(order: Order, schedule: FeeSchedule, fills: seq<Fill>)
    requires schedule.Valid() && forall i | 0 <= i < |fills| :: PricedFill(order, schedule, fills[i])
    ensures QuantityOf(fills) >= 0
  {
    if fills != [] {
      FillsNonNegative(order, schedule, fills[..|fills| - 1]);
    }
  }

  /**
    Maximality: an execution fills all it wants or the whole admissible prefix of the book; for a
    limit order that prefix is every level inside the limit.
   */
  lemma ExecutionMaximal(order: Order, bids: seq<Level>, asks: seq<Level>, market: Market, schedule: FeeSchedule,
                         protection: Protection)
    requires schedule.Valid()
    requires Execute(order, bids, asks, market, schedule, protection).Ok?
    ensures var levels := BookSide(order, bids, asks);
            var n := AdmissibleCount(order, protection, levels);
            var r := Execute(order, bids, asks, market, schedule, protection).value;
            && r.filledQuantity == Min(order.quantity - order.filled, Volume(levels[..n]))
            && (!order.MarketStyle() ==>
                  forall k | 0 <= k < |levels| :: k < n <==> WithinLimit(order, levels[k].price))
            && (r.terminalReason == Some(PRICE_PROTECTION) <==>
                  r.unfilledQuantity > 0 && n < |levels| && WithinLimit(order, levels[n].price))
            && (r.terminalReason == Some(IOC_REMAINDER) <==>
                  r.unfilledQuantity > 0 && order.MarketStyle() &&
                  (n < |levels| ==> !WithinLimit(order, levels[n].price)))
  {
    var levels, _, _ := ExecutionParts(order, bids, asks, market, schedule, protection);
    WalkIsGreedy(order, schedule, protection, levels, Start(order));
    if !order.MarketStyle() {
      forall k | 0 <= k < |levels|
        ensures k < AdmissibleCount(order, protection, levels) <==> WithinLimit(order, levels[k].price)
      {
        LimitPrefix(order, protection, levels, k);
      }
    }
  }

  /** The level behind the admissible ones is not admissible, and they all are. */
  lemma {:induction false} AdmissiblePrefix(order: Order, protection: Protection, levels: seq<Level>)
    ensures var n := AdmissibleCount(order, protection, levels);
            && (forall k | 0 <= k < n :: Admissible(order, protection, levels[k]))
            && (n < |levels| ==> !Admissible(order, protection, levels[n]))
  {
    hide Admissible;
    if levels != [] && Admissible(order, protection, levels[0]) {
      AdmissiblePrefix(order, protection, levels[1..]);
      forall k | 0 <= k < AdmissibleCount(order, protection, levels)
        ensures Admissible(order, protection, levels[k])
      {
        assert k > 0 ==> levels[k] == levels[1..][k - 1];
      }
    }
  }

  /**
    In the prices of the book: a buy takes asks and a sale bids, from the best on, as long as they are
    at its limit or better and, for an order that may not rest, stray from the reference by no more
    than the permitted share of it. It takes all it wants or all of these.
   */
  lemma TakesExactly(order: Order, bids: seq<Level>, asks: seq<Level>, market: Market, schedule: FeeSchedule,
                     protection: Protection) returns (n: nat)
    requires schedule.Valid()
    requires Execute(order, bids, asks, market, schedule, protection).Ok?
    ensures var levels := if order.side == BUY then asks else bids;
            var mid, share := protection.referenceMid, protection.referenceMid * protection.maxDeviationBps;
            && n <= |levels|
            && Execute(order, bids, asks, market, schedule, protection).value.filledQuantity
               == Min(order.quantity - order.filled, Volume(levels[..n]))
            && (forall k | 0 <= k < n && order.limitPrice.Some? ::
                  if order.side == BUY then levels[k].price <= order.limitPrice.value
                  else levels[k].price >= order.limitPrice.value)
            && (forall k | 0 <= k < n && order.MarketStyle() :: Abs(levels[k].price - mid) * 10_000 <= share)
            && (n < |levels| ==>
                  || (order.limitPrice.Some?
                      && if order.side == BUY then levels[n].price > order.limitPrice.value
                         else levels[n].price < order.limitPrice.value)
                  || (order.MarketStyle() && Abs(levels[n].price - mid) * 10_000 > share))
  {
    var levels := BookSide(order, bids, asks);
    ExecutionMaximal(order, bids, asks, market, schedule, protection);
    AdmissiblePrefix(order, protection, levels);
    n := AdmissibleCount(order, protection, levels);
    hide Execute, AdmissibleCount, Volume;
  }

  lemma GreedyOutcomeOptimal(order: Order, protection: Protection, levels: seq<Level>, w: WalkState, out: WalkState,
                             amounts: seq<int>)
    requires BestFirst(order.side, levels) && PositiveLevels(levels) && w.remaining >= 0
    requires GreedyOutcome(order, protection, levels, w, out)
    requires Respects(levels, amounts) && Total(amounts) == w.remaining - out.remaining
    ensures Signed(order.side, out.grossAmount - w.grossAmount) <= Signed(order.side, Cost(levels, amounts))
  {
    hide BestFirst, PositiveLevels, Respects, AdmissibleCount, Cost, Greedy, Volume, Total, FillsFollow;
    GreedyPrefix(levels, AdmissibleCount(order, protection, levels), w.remaining);
    GreedyOptimal(order.side, levels, amounts);
  }

  /**
    Optimality: no allocation of the filled quantity over the whole book that respects the level
    volumes buys it for less, or sells it for more, than the execution did.
   */
  lemma ExecutionOptimal(order: Order, bids: seq<Level>, asks: seq<Level>, market: Market, schedule: FeeSchedule,
                         protection: Protection, amounts: seq<int>)
    requires schedule.Valid()
    requires Execute(order, bids, asks, market, schedule, protection).Ok?
    requires Respects(BookSide(order, bids, asks), amounts)
    requires Total(amounts) == Execute(order, bids, asks, market, schedule, protection).value.filledQuantity
    ensures var gross := Execute(order, bids, asks, market, schedule, protection).value.grossAmount;
            var other := Cost(BookSide(order, bids, asks), amounts);
            if order.side == BUY then gross <= other else gross >= other
  {
    var levels, w, _ := ExecutionParts(order, bids, asks, market, schedule, protection);
    WalkIsGreedy(order, schedule, protection, levels, Start(order));
    GreedyOutcomeOptimal(order, protection, levels, Start(order), w, amounts);
  }

  /** Slippage is the distance of the gross amount from the same quantity at the reference price. */
  lemma SlippageIsSignedDistance(order: Order, bids: seq<Level>, asks: seq<Level>, market: Market,
                                 schedule: FeeSchedule, protection: Protection)
    requires schedule.Valid()
    requires Execute(order, bids, asks, market, schedule, protection).Ok?
    ensures var r := Execute(order, bids, asks, market, schedule, protection).value;
            r.slippageAmount == Signed(order.side, GrossOf(r.fills) - protection.referenceMid * QuantityOf(r.fills))
  {
    hide Validate, Exact, WalkLevels;
    ExecutionConserves(order, bids, asks, market, schedule, protection);
  }
}
