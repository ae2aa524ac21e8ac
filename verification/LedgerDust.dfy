/**
 * How far dust deletion can move the ledger, and the law for a single symbol.
 */
module LedgerDust {
  import opened Basics
  import opened RealFacts
  import opened Sums
  import opened Ledger
  import opened LedgerLaws

  /** Every fill of symbol k was priced between lo(k) and hi(k). */
  predicate PricesIn(es: seq<Event>, lo: string -> real, hi: string -> real) {
    forall i :: 0 <= i < |es| && es[i].Filled? ==> PriceIn(es[i].fill, lo, hi)
  }

  predicate PriceIn(f: Fill, lo: string -> real, hi: string -> real) {
    lo(Key(f)) <= f.price <= hi(Key(f))
  }

  function Flat(x: real): string -> real { k => x }

  predicate AveragesIn(b: Book, lo: string -> real, hi: string -> real) {
    forall k :: k in b.positions ==> lo(k) <= b.positions[k].avgPrice <= hi(k)
  }

  lemma AverageBetween(q0: real, a0: real, q: real, price: real, lo: real, hi: real)
    requires q0 + q != 0.0
    requires lo <= price <= hi && (q0 == 0.0 || lo <= a0 <= hi)
    ensures lo <= NewAverage(q0, a0, q, price) <= hi
  {
    if q0 == 0.0 || q0 * q > 0.0 {
      SameSign(q0, q);
      MeanBetween(a0, Abs(q0), price, Abs(q), lo, hi);
      assert Abs(q0 + q) == Abs(q0) + Abs(q) by {
        hide NewAverage;
      }
    }
  }

  lemma {:induction false} AveragesStay(b: Book, es: seq<Event>, lo: string -> real, hi: string -> real)
    requires Coherent(b) && AveragesIn(b, lo, hi) && PricesIn(es, lo, hi)
    ensures AveragesIn(Run(b, es), lo, hi)
  {
    if es != [] {
      var init, e := es[..|es| - 1], es[|es| - 1];
      AveragesStay(b, init, lo, hi);
      RunCoherent(b, init);
      var mid := Run(b, init);
      if e.Filled? {
        assert PriceIn(e.fill, lo, hi);
        FillAverages(mid, e.fill, lo, hi);
      }
    }
  }

  lemma FillAverages(b: Book, f: Fill, lo: string -> real, hi: string -> real)
    requires Coherent(b) && AveragesIn(b, lo, hi) && PriceIn(f, lo, hi)
    ensures AveragesIn(ApplyFill(b, f), lo, hi)
    ensures Residue(b, f) != 0.0 ==> lo(Key(f)) <= ResidueAverage(b, f) <= hi(Key(f))
  {
    hide Key, NewAverage, Sum, Signed, RealizedBy, IsDust;
    var p := Before(b.positions, f);
    assert p.quantity == 0.0 || lo(Key(f)) <= p.avgPrice <= hi(Key(f));
    CleanupOne(b, f);
    ZeroIsDust();
    if p.quantity + Signed(f) != 0.0 {
      AverageBetween(p.quantity, p.avgPrice, Signed(f), f.price, lo(Key(f)), hi(Key(f)));
    }
    hide Before, Coherent, Cleanup;
  }

  lemma ZeroIsDust()
    ensures IsDust(0.0)
  {
  }

  /**
   * With all prices and marks in [0, top], N deletions move equity by at most
   * N * 1e-9 * top.
   */
  lemma {:induction false} DriftBound(b: Book, es: seq<Event>, m: string -> real, top: real)
    requires Coherent(b) && AveragesIn(b, Flat(0.0), Flat(top)) && PricesIn(es, Flat(0.0), Flat(top))
    requires forall k: string :: 0.0 <= m(k) <= top
    ensures Abs(Drift(b, es, m)) <= Budget(Deletions(b, es), top)
  {
    hide StepDrift, Coherent, Residue, Budget, AveragesIn, PriceIn;
    Budgets(0, top);
    if es != [] {
      var init, e := es[..|es| - 1], es[|es| - 1];
      DriftBound(b, init, m, top);
      RunCoherent(b, init);
      AveragesStay(b, init, Flat(0.0), Flat(top));
      var mid := Run(b, init);
      assert e.Filled? ==> PriceIn(e.fill, Flat(0.0), Flat(top));
      StepDriftBound(mid, e, m, top);
      Budgets(Deletions(b, init), top);
      assert Drift(b, es, m) == Drift(b, init, m) + StepDrift(mid, e, m);
    }
  }

  /** n deletions at 1e-9 each, of something worth at most `top`. */
  function Budget(n: nat, top: real): real { n as real * (DUST * top) }

  lemma Budgets(n: nat, top: real)
    ensures Budget(0, top) == 0.0
    ensures Budget(n + 1, top) == Budget(n, top) + DUST * top
  {
    assert (n + 1) as real == n as real + 1.0;
  }

  lemma StepDriftBound(b: Book, e: Event, m: string -> real, top: real)
    requires Coherent(b) && AveragesIn(b, Flat(0.0), Flat(top))
    requires e.Filled? ==> PriceIn(e.fill, Flat(0.0), Flat(top))
    requires forall k: string :: 0.0 <= m(k) <= top
    ensures Abs(StepDrift(b, e, m)) <= if e.Filled? && Residue(b, e.fill) != 0.0 then DUST * top else 0.0
  {
    if e.Filled? {
      FillAverages(b, e.fill, Flat(0.0), Flat(top));
      var d, a, mark := Residue(b, e.fill), ResidueAverage(b, e.fill), m(Key(e.fill));
      hide Key, After, Before, ResidueAverage;
      if d == 0.0 {
        GainOfNothing(a, mark);
      } else {
        SmallGain(d, a, mark, top);
      }
    }
  }

  lemma SmallGain(d: real, a: real, mark: real, top: real)
    requires IsDust(d) && 0.0 <= a <= top && 0.0 <= mark <= top
    ensures Abs(Gain(d, a, mark)) <= DUST * top
  {
    var y, g := mark - a, Gain(d, a, mark);
    assert g == d * y;
    ProductWithin(d, y, DUST, top);
    hide Gain;
  }

  /** The reported equity of a new portfolio, within the dust bound. */
  lemma EquityWithinDust(starting: map<string, real>, es: seq<Event>, m: string -> real, top: real)
    requires AgreesWithLast(Run(Opening(starting), es), m)
    requires PricesIn(es, Flat(0.0), Flat(top)) && forall k: string :: 0.0 <= m(k) <= top
    ensures Abs(Run(Opening(starting), es).equity - ExactEquity(Opening(starting), es, m))
         <= Budget(Deletions(Opening(starting), es), top)
  {
    var b := Opening(starting);
    OpeningCoherent(starting);
    hide Coherent, ExactEquity, Budget, PriceIn, Opening;
    EquityLaw(b, es, m);
    DriftBound(b, es, m, top);
  }

  lemma OpeningCoherent(starting: map<string, real>)
    ensures Coherent(Opening(starting))
    ensures Opening(starting).positions == map[]
  {
    var b := Opening(starting);
    assert Upls(b.positions) == map[] && Notionals(b.positions) == map[];
  }

  // ---- one symbol ----

  ghost function Held(b: Book, k: string): real {
    if k in b.positions then b.positions[k].quantity else 0.0
  }

  ghost function Basis(b: Book, k: string): real {
    if k in b.positions then Cost(b.positions[k].quantity, b.positions[k].avgPrice) else 0.0
  }

  function Cost(q: real, price: real): real { q * price }

  predicate Trades(e: Event, k: string) { e.Filled? && Key(e.fill) == k }

  function QuantityIn(k: string): Event -> real {
    (e: Event) => if Trades(e, k) then Signed(e.fill) else 0.0
  }

  function SpentIn(k: string): Event -> real {
    (e: Event) => if Trades(e, k) then Cost(Signed(e.fill), e.fill.price) else 0.0
  }

  /** Realised profit, dropped quantity and dropped cost basis of symbol k over a run. */
  ghost function RealizedIn(b: Book, es: seq<Event>, k: string): real {
    if es == [] then 0.0 else
      var mid, e := Run(b, es[..|es| - 1]), es[|es| - 1];
      RealizedIn(b, es[..|es| - 1], k)
      + if Trades(e, k) then RealizedOn(Before(mid.positions, e.fill), e.fill) else 0.0
  }

  ghost function DroppedIn(b: Book, es: seq<Event>, k: string): real {
    if es == [] then 0.0 else
      var mid, e := Run(b, es[..|es| - 1]), es[|es| - 1];
      DroppedIn(b, es[..|es| - 1], k) + if Trades(e, k) then Residue(mid, e.fill) else 0.0
  }

  ghost function DroppedBasisIn(b: Book, es: seq<Event>, k: string): real {
    if es == [] then 0.0 else
      var mid, e := Run(b, es[..|es| - 1]), es[|es| - 1];
      DroppedBasisIn(b, es[..|es| - 1], k)
      + if Trades(e, k) then Cost(Residue(mid, e.fill), ResidueAverage(mid, e.fill)) else 0.0
  }

  /**
   * Per symbol: the quantity held is the net quantity traded less what was
   * dropped, and realised profit is the trade cash flow plus the cost basis still
   * held, plus the basis dropped.
   */
  lemma {:induction false} SymbolLaw(b: Book, es: seq<Event>, k: string)
    requires Coherent(b)
    ensures Held(Run(b, es), k) == Held(b, k) + SumSeq(es, QuantityIn(k)) - DroppedIn(b, es, k)
    ensures RealizedIn(b, es, k)
         == -SumSeq(es, SpentIn(k)) + Basis(Run(b, es), k) - Basis(b, k) + DroppedBasisIn(b, es, k)
  {
    if es != [] {
      var init, e := es[..|es| - 1], es[|es| - 1];
      var mid := Run(b, init);
      SymbolLaw(b, init, k);
      RunCoherent(b, init);
      hide Residue, ResidueAverage, Cost, Coherent, Signed, Key, RealizedOn;
      match e
      case Filled(f) =>
        SymbolFill(mid, f, k);
        hide ApplyFill, Held, Basis, Before;
      case Marked(symbol, price) =>
      case Synced(wallet) =>
    }
  }

  lemma SymbolFill(b: Book, f: Fill, k: string)
    requires Coherent(b)
    ensures k != Key(f) ==> Held(ApplyFill(b, f), k) == Held(b, k) && Basis(ApplyFill(b, f), k) == Basis(b, k)
    ensures k == Key(f) ==>
              && Held(ApplyFill(b, f), k) == Held(b, k) + Signed(f) - Residue(b, f)
              && RealizedOn(Before(b.positions, f), f) + Cost(Signed(f), f.price)
                 == Basis(ApplyFill(b, f), k) - Basis(b, k) + Cost(Residue(b, f), ResidueAverage(b, f))
  {
    hide Cost, Key, NewAverage, RealizedBy, Signed, Sum, Cleanup, IsDust, Coherent, Upl;
    var p := Before(b.positions, f);
    CleanupOne(b, f);
    CostConserved(p.quantity, p.avgPrice, Signed(f), f.price);
    NoCost(p.avgPrice);
    NoCost(After(p, f).avgPrice);
  }

  lemma NoCost(price: real)
    ensures Cost(0.0, price) == 0.0
  {
  }

  lemma CostConserved(q0: real, a0: real, q: real, price: real)
    ensures RealizedBy(q0, a0, q, price) + Cost(q, price)
         == Cost(q0 + q, NewAverage(q0, a0, q, price)) - Cost(q0, a0)
  {
    TradeConserves(q0, a0, q, price);
    hide NewAverage, RealizedBy;
  }
}
