/**
  What a sale takes out of a position's cost, and how far the profit a position has realised can be
  from its sales' proceeds less their exact share of the cost.
 */
module PortfolioProfit {
  import opened Types
  import opened Arithmetic
  import opened ExactMoney
  import opened Portfolio

  // ---- One sale ----

  /** The capped share is as near to the exact one as the share itself. */
  lemma CapKeepsBound(share: int, cost: int, q: int, held: int, bound: int, scale: int)
    requires cost >= 0 && 0 < q < held && scale > 0
    requires 2 * Abs(share * held - cost * q) * scale <= bound
    ensures 2 * Abs(Min(share, cost) * held - cost * q) * scale <= bound
  {
    if cost < share {
      MulMono(q, held, cost);
      Swap(q, cost);
      Swap(held, cost);
      MulMono(cost, share, held);
      MulMono(2 * Abs(cost * held - cost * q), 2 * Abs(share * held - cost * q), scale);
    }
  }

  /**
    A sale of some of the shares takes their share of the cost, up to the two roundings of a
    division and never more than all of it; a sale of all of them takes all of it. What it brings
    beyond that is the profit.
   */
  lemma SaleTakesItsShare(before: PositionCost, fill: PositionFill)
    requires ApplyFill(before, fill).Ok? && fill.side == SELL
    ensures var after := ApplyFill(before, fill).value;
            var removed, held := before.totalCost - after.totalCost, before.quantity;
            && 0 < fill.quantity <= held && 0 <= removed <= before.totalCost
            && (fill.quantity == held ==> removed == before.totalCost)
            && (fill.quantity < held ==>
                  before.totalCost * fill.quantity >= 0
                  && var scale := Pow10(QuotientScale(before.totalCost * fill.quantity, held));
                  2 * Abs(removed * held - before.totalCost * fill.quantity) * scale
                  <= held * scale * DIVISION_UNIT + held)
            && after.realizedPnl - before.realizedPnl == fill.price * fill.quantity - fill.fee - removed
  {
    hide Exact, DivideAndRound, Pow10, QuotientScale;
    if fill.quantity < before.quantity {
      MulNonNegative(before.totalCost, fill.quantity);
      var n, held := before.totalCost * fill.quantity, before.quantity;
      DivideAndRoundError(n, held);
      var scale := Pow10(QuotientScale(n, held));
      CapKeepsBound(DivideAndRound(n, held), before.totalCost, fill.quantity, held, held * scale * DIVISION_UNIT + held,
                    scale);
    }
  }

  // ---- The exact cost and profit ----

  /** Cost and realised profit with no rounding at all. */
  datatype ExactPosition = ExactPosition(cost: real, profit: real)

  /** The exact share of a cost that some of the shares carry. */
  ghost function Share(cost: real, quantity: int, held: int): real
    requires held > 0
  {
    cost * quantity as real / held as real
  }

  ghost function ExactFill(held: int, e: ExactPosition, f: PositionFill): ExactPosition
    requires held >= 0 && (f.side == SELL ==> 0 < f.quantity <= held)
  {
    var notional, fee := (f.price * f.quantity) as real, f.fee as real;
    if f.side == BUY then ExactPosition(e.cost + notional + fee, e.profit)
    else
      var share := Share(e.cost, f.quantity, held);
      ExactPosition(e.cost - share, e.profit + notional - fee - share)
  }

  ghost function ExactFills(p: PositionCost, e: ExactPosition, fills: seq<PositionFill>): ExactPosition
    requires WellFormed(p) && ApplyFills(p, fills).Ok?
    decreases |fills|
  {
    if fills == [] then e else
      FillConserves(p, fills[0]);
      ExactFills(ApplyFill(p, fills[0]).value, ExactFill(p.quantity, e, fills[0]), fills[1..])
  }

  /** The sales that leave something behind: the only fills that round. */
  function PartialSales(p: PositionCost, fills: seq<PositionFill>): nat
    requires ApplyFills(p, fills).Ok?
    decreases |fills|
  {
    if fills == [] then 0 else
      (if fills[0].side == SELL && fills[0].quantity < p.quantity then 1 else 0)
      + PartialSales(ApplyFill(p, fills[0]).value, fills[1..])
  }

  // ---- The drift of one fill ----

  lemma RealShare(cost: int, quantity: int, held: int)
    requires held > 0
    ensures Share(cost as real, quantity, held) == Ratio(cost * quantity, held)
  {
    assert cost as real * quantity as real == (cost * quantity) as real;
  }

  /** What is removed is within one step of the exact share of the stored cost. */
  lemma RemovedNearShare(before: PositionCost, fill: PositionFill)
    requires ApplyFill(before, fill).Ok? && fill.side == SELL && fill.quantity < before.quantity
    ensures Distance((before.totalCost - ApplyFill(before, fill).value.totalCost) as real,
                     Share(before.totalCost as real, fill.quantity, before.quantity)) <= STEP_ERROR
  {
    var n, held := before.totalCost * fill.quantity, before.quantity;
    SaleTakesItsShare(before, fill);
    NumeratorExact(before, fill);
    CarriedPlaces(n, held);
    RealShare(before.totalCost, fill.quantity, held);
    var removed := before.totalCost - ApplyFill(before, fill).value.totalCost;
    hide Exact, ApplyFill, Pow10, QuotientScale, Distance;
    RealStep(removed, n, held, Pow10(QuotientScale(n, held)));
  }

  lemma NumeratorExact(before: PositionCost, fill: PositionFill)
    requires ApplyFill(before, fill).Ok? && fill.side == SELL && fill.quantity < before.quantity
    ensures before.totalCost * fill.quantity >= 0 && Exact(before.totalCost * fill.quantity)
  {
    hide Exact, DivideAndRound;
    MulNonNegative(before.totalCost, fill.quantity);
  }

  /** Two costs that lose the same share come no further apart. */
  lemma SharesShrink(a: real, b: real, quantity: int, held: int)
    requires 0 <= quantity <= held && held > 0
    ensures Distance(a - Share(a, quantity, held), b - Share(b, quantity, held)) <= Distance(a, b)
  {
    hide Share, Distance;
    var f := quantity as real / held as real;
    ShareIsFactor(a, quantity, held, f);
    ShareIsFactor(b, quantity, held, f);
    FactorBounds(quantity, held);
    GapShrinks(a, b, f);
  }

  lemma GapShrinks(a: real, b: real, f: real)
    requires 0.0 <= f <= 1.0
    ensures Distance(a - a * f, b - b * f) <= Distance(a, b)
  {
    if a >= b {
      GapLeft(a, b, f, a - a * f, b - b * f);
    } else {
      GapLeft(b, a, f, b - b * f, a - a * f);
    }
  }

  lemma GapLeft(a: real, b: real, f: real, c: real, d: real)
    requires a >= b && 0.0 <= f <= 1.0 && c == a - a * f && d == b - b * f
    ensures 0.0 <= c - d <= a - b
  {
    var gap, left := a - b, c - d;
    assert left == gap - gap * f by {
      Distribute(a, b, f);
    }
    Shrunk(gap, f);
  }

  lemma Distribute(a: real, b: real, f: real)
    ensures (a - b) * f == a * f - b * f
  {
  }

  lemma Shrunk(gap: real, f: real)
    requires gap >= 0.0 && 0.0 <= f <= 1.0
    ensures 0.0 <= gap - gap * f <= gap
  {
    MulMonoReal(0.0, f, gap);
    MulMonoReal(f, 1.0, gap);
  }

  lemma ShareIsFactor(a: real, quantity: int, held: int, f: real)
    requires held > 0 && f == quantity as real / held as real
    ensures Share(a, quantity, held) == a * f
  {
    assert a * quantity as real / held as real == a * (quantity as real / held as real);
  }

  lemma FactorBounds(quantity: int, held: int)
    requires 0 <= quantity <= held && held > 0
    ensures 0.0 <= quantity as real / held as real <= 1.0
  {
  }

  /** A sale of everything leaves neither cost. */
  lemma WholeShare(cost: real, held: int)
    requires held > 0
    ensures Share(cost, held, held) == cost
  {
  }

  lemma Apart(c: real, x: real, removed: real, share: real, exactShare: real, d: real, step: real)
    requires Distance(removed, share) <= step
    requires Distance(c - share, x - exactShare) <= d
    ensures Distance(c - removed, x - exactShare) <= d + step
  {
  }

  /** One fill moves the stored cost at most one step further from the exact one, and only if it is a partial sale. */
  lemma FillDrift(before: PositionCost, e: ExactPosition, fill: PositionFill, step: real)
    requires ApplyFill(before, fill).Ok? && step == STEP_ERROR
    ensures WellFormed(before) && (fill.side == SELL ==> 0 < fill.quantity <= before.quantity)
    ensures var after, exact := ApplyFill(before, fill).value, ExactFill(before.quantity, e, fill);
            && Distance(after.totalCost as real, exact.cost)
               <= Distance(before.totalCost as real, e.cost)
                  + (if fill.side == SELL && fill.quantity < before.quantity then step else 0.0)
            && after.realizedPnl as real - exact.profit - (after.totalCost as real - exact.cost)
               == before.realizedPnl as real - e.profit - (before.totalCost as real - e.cost)
  {
    FillConserves(before, fill);
    var after := ApplyFill(before, fill).value;
    if fill.side == BUY {
      hide Exact, DivideAndRound, Distance;
      SameGap(before.totalCost, after.totalCost, e.cost, fill);
    } else {
      SaleTakesItsShare(before, fill);
      SaleBooks(before, after, e, fill);
      if fill.quantity < before.quantity {
        RemovedNearShare(before, fill);
        hide ApplyFill, Share, Distance, Pow10, QuotientScale;
        var removed := (before.totalCost - after.totalCost) as real;
        SharesShrink(before.totalCost as real, e.cost, fill.quantity, before.quantity);
        Apart(before.totalCost as real, e.cost, removed,
              Share(before.totalCost as real, fill.quantity, before.quantity),
              Share(e.cost, fill.quantity, before.quantity), Distance(before.totalCost as real, e.cost), step);
        assert before.totalCost as real - removed == after.totalCost as real;
      } else {
        WholeShare(e.cost, before.quantity);
        hide ApplyFill, Share;
      }
    }
  }

  lemma SameGap(before: Money, after: Money, cost: real, fill: PositionFill)
    requires after == before + fill.price * fill.quantity + fill.fee
    ensures Distance(after as real, cost + (fill.price * fill.quantity) as real + fill.fee as real)
         == Distance(before as real, cost)
  {
  }

  lemma SaleBooks(before: PositionCost, after: PositionCost, e: ExactPosition, fill: PositionFill)
    requires fill.side == SELL && 0 < fill.quantity <= before.quantity
    requires after.realizedPnl - before.realizedPnl
          == fill.price * fill.quantity - fill.fee - (before.totalCost - after.totalCost)
    ensures var exact := ExactFill(before.quantity, e, fill);
            after.realizedPnl as real - exact.profit - (after.totalCost as real - exact.cost)
            == before.realizedPnl as real - e.profit - (before.totalCost as real - e.cost)
  {
    hide Share;
    var notional := fill.price * fill.quantity;
    assert after.realizedPnl as real
        == before.realizedPnl as real + notional as real - fill.fee as real - before.totalCost as real
           + after.totalCost as real;
  }

  // ---- Every run ----

  lemma {:induction false} CostDrift(p: PositionCost, e: ExactPosition, fills: seq<PositionFill>, step: real)
    requires WellFormed(p) && ApplyFills(p, fills).Ok? && step == STEP_ERROR
    ensures var end, exact := ApplyFills(p, fills).value, ExactFills(p, e, fills);
            && Distance(end.totalCost as real, exact.cost)
               <= Distance(p.totalCost as real, e.cost) + Times(PartialSales(p, fills), step)
            && end.realizedPnl as real - exact.profit - (end.totalCost as real - exact.cost)
               == p.realizedPnl as real - e.profit - (p.totalCost as real - e.cost)
    decreases |fills|
  {
    hide ApplyFill, ExactFill, Distance;
    if fills != [] {
      FillConserves(p, fills[0]);
      FillDrift(p, e, fills[0], step);
      CostDrift(ApplyFill(p, fills[0]).value, ExactFill(p.quantity, e, fills[0]), fills[1..], step);
    }
  }

  /**
    Over any run of fills the cost kept and the profit realised are each within one step error per
    partial sale of the exact weighted cost and of the sales' proceeds less it, and by the same amount.
   */
  lemma ProfitDrift(p: PositionCost, fills: seq<PositionFill>)
    requires WellFormed(p) && ApplyFills(p, fills).Ok?
    ensures var end := ApplyFills(p, fills).value;
            var exact := ExactFills(p, ExactPosition(p.totalCost as real, p.realizedPnl as real), fills);
            && end.realizedPnl as real - exact.profit == end.totalCost as real - exact.cost
            && Distance(end.realizedPnl as real, exact.profit) <= PartialSales(p, fills) as real * STEP_ERROR
  {
    var e := ExactPosition(p.totalCost as real, p.realizedPnl as real);
    hide ApplyFills, ExactFills, PartialSales;
    CostDrift(p, e, fills, STEP_ERROR);
    TimesIsProduct(PartialSales(p, fills), STEP_ERROR);
  }
}
