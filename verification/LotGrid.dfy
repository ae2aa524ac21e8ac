/**
 * Lot and tick flooring of engine/core/binance.py in exact arithmetic, and what it buys
 * the ledger: on a lot grid coarser than the dust threshold nothing is ever dropped.
 */
module LotGrid {
  import opened Basics
  import opened RealFacts
  import opened Sums
  import opened Symbols
  import opened Ledger
  import opened LedgerLaws
  import opened LedgerDust

  const DEFAULT_STEP := 0.000001

  datatype LotFilter = LotFilter(stepSize: real, minQty: real, tickSize: real)

  datatype Quoted = Ordered(qty: real) | TooSmall(required: real, provided: real)

  /** Python's `x or default` on a number. */
  function Or(x: real, default: real): real { if x == 0.0 then default else x }

  /** None stands for a filter that could not be fetched. */
  function StepOf(f: Option<LotFilter>): (r: real)
    ensures r != 0.0
  {
    if f.None? then DEFAULT_STEP else Or(f.value.stepSize, DEFAULT_STEP)
  }

  function MinQtyOf(f: Option<LotFilter>): real { if f.None? then 0.0 else f.value.minQty }

  function Unit(px: real): (r: real)
    ensures r != 0.0
  {
    Or(px, 1.0)
  }

  function Factor(step: real): (r: real)
    requires step != 0.0
    ensures r * step == 1.0
    ensures r != 0.0
  {
    var r := 1.0 / step;
    assert r * step == 1.0;
    r
  }

  function FlooredBy(raw: real, factor: real): real
    requires factor != 0.0
  {
    (raw * factor).Floor as real / factor
  }

  function Floored(raw: real, step: real): real
    requires step != 0.0
  {
    FlooredBy(raw, Factor(step))
  }

  function Required(px: real, f: Option<LotFilter>): real {
    Max(Or(MinQtyOf(f), StepOf(f)), StepOf(f)) * Unit(px)
  }

  /** The futures branch of a quote-sized market order: its quantity, or a refusal. */
  function SubmitQuote(px: real, quote: real, f: Option<LotFilter>): Quoted {
    var qty := Floored(Max(quote / Unit(px), 0.0), StepOf(f));
    if quote < Required(px, f) || qty <= 0.0 then TooSmall(Required(px, f), quote) else Ordered(qty)
  }

  // ---- the grid ----

  function Multiple(n: int, step: real): real { n as real * step }

  ghost predicate OnGrid(q: real, step: real) { exists n: int :: q == Multiple(n, step) }

  lemma FlooredMultiple(raw: real, step: real) returns (n: int)
    requires step > 0.0
    ensures Floored(raw, step) == Multiple(n, step)
    ensures Multiple(n, step) <= raw < Multiple(n, step) + step
    ensures raw >= 0.0 ==> n >= 0
  {
    var factor := Factor(step);
    PositiveReciprocal(factor, step);
    n := FlooredCount(raw, factor);
    DivideByReciprocal(n as real, factor, step);
    ScaleBack(raw, factor, step, n as real);
    if raw >= 0.0 {
      NonNegative(raw, factor);
    }
  }

  lemma FlooredCount(raw: real, factor: real) returns (n: int)
    requires factor != 0.0
    ensures FlooredBy(raw, factor) == n as real / factor
    ensures n as real <= raw * factor < n as real + 1.0
  {
    n := (raw * factor).Floor;
  }

  lemma PositiveReciprocal(factor: real, step: real)
    requires factor * step == 1.0 && step > 0.0
    ensures factor > 0.0
  {
    if factor <= 0.0 {
      NonNegative(-factor, step);
    }
  }

  lemma DivideByReciprocal(x: real, factor: real, step: real)
    requires factor * step == 1.0 && factor > 0.0
    ensures x / factor == x * step
  {
    var y := x / factor;
    assert y * factor == x;
    assert x * step == y * (factor * step);
  }

  lemma ScaleBack(raw: real, factor: real, step: real, n: real)
    requires factor * step == 1.0 && step > 0.0 && n <= raw * factor < n + 1.0
    ensures n * step <= raw < n * step + step
  {
    assert raw * factor * step == raw * (factor * step) == raw;
    NonNegative(raw * factor - n, step);
    StrictlyBelow(raw * factor, n + 1.0, step);
  }

  lemma MultipleOrder(a: int, b: int, step: real)
    requires step > 0.0
    ensures Multiple(a, step) <= Multiple(b, step) <==> a <= b
    ensures Multiple(a + 1, step) == Multiple(a, step) + step
    ensures Multiple(0, step) == 0.0 && Multiple(1, step) == step
  {
    if a < b {
      StrictlyBelow(a as real, b as real, step);
    } else if a > b {
      StrictlyBelow(b as real, a as real, step);
    }
  }

  lemma RawTimesPrice(quote: real, unit: real)
    requires unit > 0.0
    ensures quote / unit * unit == quote
    ensures quote >= 0.0 ==> quote / unit >= 0.0
  {
    var r := quote / unit;
    assert r * unit == quote;
    if quote >= 0.0 && r < 0.0 {
      StrictlyBelow(r, 0.0, unit);
    }
  }

  /** No larger multiple than k fits below raw, and so none that quote can pay for. */
  lemma LargestBelow(raw: real, unit: real, step: real, k: int, n: int)
    requires unit > 0.0 && step > 0.0 && raw < Multiple(k, step) + step
    requires Multiple(n, step) * unit <= raw * unit
    ensures Multiple(n, step) <= Multiple(k, step)
  {
    MultipleOrder(n, k, step);
    MultipleOrder(k + 1, n, step);
    MultipleOrder(k, k, step);
    hide Multiple;
    if Multiple(n, step) > raw {
      StrictlyBelow(raw, Multiple(n, step), unit);
    }
  }

  lemma PaysFor(raw: real, qty: real, unit: real, step: real)
    requires unit > 0.0 && qty <= raw < qty + step
    ensures qty * unit <= raw * unit < (qty + step) * unit
  {
    NonNegative(raw - qty, unit);
    StrictlyBelow(raw, qty + step, unit);
  }

  /** What a quote buys: the largest multiple of the step that it can pay for. */
  lemma LargestAffordable(px: real, quote: real, f: Option<LotFilter>)
    requires Unit(px) > 0.0 && StepOf(f) > 0.0 && quote >= 0.0
    ensures var qty, step := Floored(Max(quote / Unit(px), 0.0), StepOf(f)), StepOf(f);
      && OnGrid(qty, step) && qty * Unit(px) <= quote < (qty + step) * Unit(px)
      && forall n: int :: Multiple(n, step) * Unit(px) <= quote ==> Multiple(n, step) <= qty
  {
    hide Unit, StepOf, Floored, Multiple;
    var unit, step := Unit(px), StepOf(f);
    RawTimesPrice(quote, unit);
    var raw := quote / unit;
    var k := FlooredMultiple(raw, step);
    PaysFor(raw, Multiple(k, step), unit, step);
    forall n: int | Multiple(n, step) * unit <= quote
      ensures Multiple(n, step) <= Multiple(k, step)
    {
      LargestBelow(raw, unit, step, k, n);
    }
  }

  lemma AffordsOneStep(quote: real, unit: real, step: real)
    requires unit > 0.0 && step > 0.0 && quote >= step * unit
    ensures quote > 0.0
  {
    SignedProduct(step, unit);
  }

  lemma SignedProduct(x: real, y: real)
    requires x > 0.0 && y > 0.0
    ensures x * y > 0.0
  {
  }

  lemma RequiredCoversStep(px: real, f: Option<LotFilter>)
    requires Unit(px) > 0.0 && StepOf(f) > 0.0
    ensures Required(px, f) >= StepOf(f) * Unit(px)
  {
    var m := Max(Or(MinQtyOf(f), StepOf(f)), StepOf(f));
    hide StepOf, Unit, MinQtyOf;
    NonNegative(m - StepOf(f), Unit(px));
  }

  lemma FlooredReachesStep(px: real, quote: real, f: Option<LotFilter>)
    requires Unit(px) > 0.0 && StepOf(f) > 0.0 && quote >= Required(px, f)
    ensures Floored(Max(quote / Unit(px), 0.0), StepOf(f)) >= StepOf(f)
  {
    hide Unit, StepOf, Required, Floored, Max;
    RequiredCoversStep(px, f);
    AffordsOneStep(quote, Unit(px), StepOf(f));
    LargestAffordable(px, quote, f);
    MultipleOrder(1, 1, StepOf(f));
    hide Multiple;
    assert Multiple(1, StepOf(f)) * Unit(px) == StepOf(f) * Unit(px);
  }

  /** A quote is accepted exactly when it reaches the required amount; the quantity test never bites. */
  lemma AcceptsIff(px: real, quote: real, f: Option<LotFilter>)
    requires Unit(px) > 0.0 && StepOf(f) > 0.0
    ensures SubmitQuote(px, quote, f).Ordered? <==> quote >= Required(px, f)
    ensures SubmitQuote(px, quote, f).Ordered? ==> SubmitQuote(px, quote, f).qty >= StepOf(f)
  {
    hide Unit, StepOf, Required, Floored;
    if quote >= Required(px, f) {
      FlooredReachesStep(px, quote, f);
    }
  }

  /** What a quote must reach: the price of the minimum quantity or of one step, whichever is more. */
  lemma QuoteMeans(px: real, quote: real, f: LotFilter)
    requires px > 0.0 && f.stepSize > 0.0
    ensures var need := (if f.minQty > f.stepSize then f.minQty else f.stepSize) * px;
      && (quote >= need ==> SubmitQuote(px, quote, Some(f)).Ordered?)
      && (quote < need ==> SubmitQuote(px, quote, Some(f)) == TooSmall(need, quote))
    ensures var need := 0.000001 * px;
      && (quote >= need ==> SubmitQuote(px, quote, None).Ordered?)
      && (quote < need ==> SubmitQuote(px, quote, None) == TooSmall(need, quote))
  {
    AcceptsIff(px, quote, Some(f));
    AcceptsIff(px, quote, None);
    hide Floored;
  }

  /** An accepted order is a positive number of steps, worth the quote to within one step. */
  lemma LotExact(px: real, quote: real, f: Option<LotFilter>)
    requires Unit(px) > 0.0 && StepOf(f) > 0.0 && SubmitQuote(px, quote, f).Ordered?
    ensures var qty, step := SubmitQuote(px, quote, f).qty, StepOf(f);
      OnGrid(qty, step) && step <= qty && qty * Unit(px) <= quote < (qty + step) * Unit(px)
  {
    hide Unit, StepOf, Required, Floored, Multiple, OnGrid;
    AcceptsIff(px, quote, f);
    RequiredCoversStep(px, f);
    AffordsOneStep(quote, Unit(px), StepOf(f));
    PaysForFloored(px, quote, f);
  }

  /** The floored quantity is on the grid and worth the quote to within one step. */
  lemma PaysForFloored(px: real, quote: real, f: Option<LotFilter>)
    requires Unit(px) > 0.0 && StepOf(f) > 0.0 && quote >= 0.0
    ensures var qty := Floored(Max(quote / Unit(px), 0.0), StepOf(f));
      OnGrid(qty, StepOf(f)) && qty * Unit(px) <= quote < (qty + StepOf(f)) * Unit(px)
  {
    hide Unit, StepOf, Floored, Multiple, OnGrid;
    LargestAffordable(px, quote, f);
  }

  /** No accepted quote gives less than the venue's minimum. */
  ghost predicate MinimumKept(px: real, f: Option<LotFilter>) {
    forall quote: real :: SubmitQuote(px, quote, f).Ordered? ==> SubmitQuote(px, quote, f).qty >= MinQtyOf(f)
  }

  lemma GridMinimumKept(px: real, quote: real, f: Option<LotFilter>)
    requires Unit(px) > 0.0 && StepOf(f) > 0.0 && SubmitQuote(px, quote, f).Ordered?
    requires MinQtyOf(f) > StepOf(f) && OnGrid(MinQtyOf(f), StepOf(f))
    ensures SubmitQuote(px, quote, f).qty >= MinQtyOf(f)
  {
    AcceptsIff(px, quote, f);
    assert Required(px, f) == MinQtyOf(f) * Unit(px);
    hide Unit, StepOf, Required, Floored, MinQtyOf;
    RequiredCoversStep(px, f);
    AffordsOneStep(quote, Unit(px), StepOf(f));
    LargestAffordable(px, quote, f);
  }

  /** At exactly the required quote, a minimum off the grid is undershot. */
  lemma OffGridUndershoots(px: real, f: Option<LotFilter>)
    requires Unit(px) > 0.0 && StepOf(f) > 0.0
    requires MinQtyOf(f) > StepOf(f) && !OnGrid(MinQtyOf(f), StepOf(f))
    ensures SubmitQuote(px, Required(px, f), f).Ordered? && SubmitQuote(px, Required(px, f), f).qty < MinQtyOf(f)
  {
    AcceptsIff(px, Required(px, f), f);
    LotExact(px, Required(px, f), f);
    assert Required(px, f) == MinQtyOf(f) * Unit(px);
    var qty := SubmitQuote(px, Required(px, f), f).qty;
    hide Unit, StepOf, Required, Floored, MinQtyOf, SubmitQuote;
    if qty >= MinQtyOf(f) && qty != MinQtyOf(f) {
      StrictlyBelow(MinQtyOf(f), qty, Unit(px));
    }
  }

  /**
   * Accepted orders reach the venue's minimum for every quote if and only if the minimum
   * is at most one step or is itself a multiple of the step.
   */
  lemma MinimumKeptIff(px: real, f: Option<LotFilter>)
    requires Unit(px) > 0.0 && StepOf(f) > 0.0
    ensures MinimumKept(px, f) <==> MinQtyOf(f) <= StepOf(f) || OnGrid(MinQtyOf(f), StepOf(f))
  {
    hide SubmitQuote, Unit, StepOf, MinQtyOf, OnGrid, Required;
    if MinQtyOf(f) <= StepOf(f) {
      forall quote: real | SubmitQuote(px, quote, f).Ordered?
        ensures SubmitQuote(px, quote, f).qty >= MinQtyOf(f)
      {
        AcceptsIff(px, quote, f);
      }
    } else if OnGrid(MinQtyOf(f), StepOf(f)) {
      forall quote: real | SubmitQuote(px, quote, f).Ordered?
        ensures SubmitQuote(px, quote, f).qty >= MinQtyOf(f)
      {
        GridMinimumKept(px, quote, f);
      }
    } else {
      OffGridUndershoots(px, f);
    }
  }

  // ---- tick flooring ----

  /** `int(x)`: towards zero. */
  function Truncated(x: real): int { if x >= 0.0 then x.Floor else -(-x).Floor }

  function SafePrice(price: real, tick: real): real {
    if tick > 0.0 then
      var steps := Truncated(price / tick);
      Multiple(if steps >= 0 then steps else 0, tick)
    else price
  }

  lemma QuotientSign(x: real, tick: real)
    requires tick > 0.0
    ensures x * tick >= 0.0 <==> x >= 0.0
  {
    if x >= 0.0 {
      NonNegative(x, tick);
    } else {
      StrictlyBelow(x, 0.0, tick);
    }
  }

  /** The price sent is the highest tick at or below the limit, and zero for a negative limit. */
  lemma TickExact(price: real, tick: real)
    requires tick > 0.0
    ensures OnGrid(SafePrice(price, tick), tick)
    ensures price >= 0.0 ==> SafePrice(price, tick) <= price < SafePrice(price, tick) + tick
    ensures price < 0.0 ==> SafePrice(price, tick) == 0.0
  {
    hide Multiple;
    var x := price / tick;
    assert x * tick == price;
    QuotientSign(x, tick);
    MultipleOrder(0, 0, tick);
    if x >= 0.0 {
      TickBelow(x, tick, x.Floor);
    }
  }

  lemma TickBelow(x: real, tick: real, n: int)
    requires tick > 0.0 && n as real <= x < n as real + 1.0
    ensures Multiple(n, tick) <= x * tick < Multiple(n, tick) + tick
  {
    NonNegative(x - n as real, tick);
    StrictlyBelow(x, n as real + 1.0, tick);
  }

  // ---- the ledger on a grid ----

  /** Every fill's quantity is a multiple of the step of its symbol. */
  ghost predicate GridFills(es: seq<Event>, step: string -> real) {
    forall i :: 0 <= i < |es| && es[i].Filled? ==> OnGrid(es[i].fill.quantity, step(Key(es[i].fill)))
  }

  ghost predicate GridBook(b: Book, step: string -> real) {
    forall k :: k in b.positions ==> OnGrid(b.positions[k].quantity, step(k))
  }

  lemma GridSum(x: real, y: real, step: real)
    requires OnGrid(x, step) && OnGrid(y, step)
    ensures OnGrid(x + y, step) && OnGrid(x - y, step)
  {
    var m: int :| x == Multiple(m, step);
    var n: int :| y == Multiple(n, step);
    MultipleSum(m, n, step);
  }

  lemma MultipleSum(m: int, n: int, step: real)
    ensures Multiple(m + n, step) == Multiple(m, step) + Multiple(n, step)
    ensures Multiple(m - n, step) == Multiple(m, step) - Multiple(n, step)
  {
  }

  lemma ZeroOnGrid(step: real)
    ensures OnGrid(0.0, step)
  {
    assert Multiple(0, step) == 0.0;
  }

  /** On a grid coarser than the threshold, dust is zero. */
  lemma GridDustIsZero(q: real, step: real)
    requires OnGrid(q, step) && IsDust(q) && step > DUST
    ensures q == 0.0
  {
    DustIsAbsolute(q);
    var n: int :| q == Multiple(n, step);
    MultipleOrder(n, 0, step);
    MultipleOrder(0, n, step);
    MultipleOrder(n, -1, step);
    MultipleOrder(1, n, step);
    MultipleOrder(-1, -1, step);
  }

  lemma GridFill(b: Book, f: Fill, step: string -> real)
    requires Coherent(b) && GridBook(b, step)
    requires OnGrid(f.quantity, step(Key(f))) && step(Key(f)) > DUST
    ensures GridBook(ApplyFill(b, f), step) && Residue(b, f) == 0.0
  {
    hide Key, NewAverage, RealizedBy, Sum, IsDust, OnGrid, Upl;
    var p, s := Before(b.positions, f), step(Key(f));
    ZeroOnGrid(s);
    assert OnGrid(p.quantity, s);
    GridSum(p.quantity, f.quantity, s);
    var q := After(p, f).quantity;
    assert OnGrid(q, s);
    if IsDust(q) {
      GridDustIsZero(q, s);
    }
    CleanupOne(b, f);
  }

  /** Histories on coarse grids never drop a non-zero quantity. */
  lemma {:induction false} GridRun(b: Book, es: seq<Event>, step: string -> real)
    requires Coherent(b) && GridBook(b, step) && GridFills(es, step) && forall k :: step(k) > DUST
    ensures GridBook(Run(b, es), step) && Deletions(b, es) == 0
  {
    if es != [] {
      hide OnGrid, Residue, Key, Coherent, ApplyFill;
      var init, e := es[..|es| - 1], es[|es| - 1];
      GridRun(b, init, step);
      RunCoherent(b, init);
      if e.Filled? {
        GridFill(Run(b, init), e.fill, step);
      }
    }
  }

  /** On coarse grids the ledger law holds without any condition on dust. */
  lemma GridLedgerLaw(starting: map<string, real>, es: seq<Event>, step: string -> real, m: string -> real)
    requires GridFills(es, step) && forall k :: step(k) > DUST
    requires AgreesWithLast(Run(Opening(starting), es), m)
    ensures Run(Opening(starting), es).equity
      == UsdtOf(starting) + Deposits(Opening(starting), es) - SumSeq(es, FeeOf) + SumSeq(es, GainAt(m))
  {
    OpeningCoherent(starting);
    hide Coherent, OnGrid, Opening;
    GridRun(Opening(starting), es, step);
    OpeningLaw(starting, es, m);
  }

  /** One buy of one step, from flat. */
  function OneLot(step: real): Fill { Fill("X", "BUY", step, 1.0, 0.0, "", "") }

  lemma OneLotResidue(step: real, b: Book)
    requires 0.0 < step <= DUST && b.positions == map[]
    ensures Residue(b, OneLot(step)) == step
  {
    hide Key, NewAverage, Upl;
    DustIsAbsolute(step);
    assert Upper("BUY") == "BUY";
  }

  lemma FineGridDrops(step: real)
    requires 0.0 < step <= DUST
    ensures GridFills([Filled(OneLot(step))], Flat(step))
    ensures Deletions(Opening(map[]), [Filled(OneLot(step))]) == 1
  {
    hide Residue, Key, Coherent, Recalculate;
    OpeningCoherent(map[]);
    MultipleOrder(1, 1, step);
    OneLotResidue(step, Opening(map[]));
    assert [Filled(OneLot(step))][..0] == [];
  }

  /** A grid protects the ledger from drops in every history if and only if it is coarser than 1e-9. */
  lemma GridExactIff(step: real)
    requires step > 0.0
    ensures (forall es :: GridFills(es, Flat(step)) ==> Deletions(Opening(map[]), es) == 0) <==> step > DUST
  {
    hide GridFills, Deletions, Coherent;
    if step > DUST {
      forall es | GridFills(es, Flat(step))
        ensures Deletions(Opening(map[]), es) == 0
      {
        OpeningCoherent(map[]);
        GridRun(Opening(map[]), es, Flat(step));
      }
    } else {
      FineGridDrops(step);
    }
  }
}
