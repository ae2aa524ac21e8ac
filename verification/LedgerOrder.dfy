/**
 * What the ledger does not depend on: the order of its fills. Reordered histories agree
 * up to what they drop as dust, once they are marked to the same prices.
 */
module LedgerOrder {
  import opened Basics
  import opened Sums
  import opened Ledger
  import opened LedgerLaws
  import opened LedgerDust

  // ---- permutations ----

  predicate NoSync(es: seq<Event>) { forall e :: e in es ==> !e.Synced? }

  lemma {:induction false} NoDeposits(b: Book, es: seq<Event>)
    requires NoSync(es)
    ensures Deposits(b, es) == 0.0
  {
    if es != [] {
      NoDeposits(b, es[..|es| - 1]);
    }
  }

  /** Reordering a history changes marked equity and quantities only through dropped dust. */
  lemma Reordered(b: Book, es: seq<Event>, fs: seq<Event>, m: string -> real, k: string)
    requires Coherent(b) && NoSync(es) && multiset(es) == multiset(fs)
    ensures EquityAt(Run(b, es), m) + Drift(b, es, m) == EquityAt(Run(b, fs), m) + Drift(b, fs, m)
    ensures Held(Run(b, es), k) + DroppedIn(b, es, k) == Held(Run(b, fs), k) + DroppedIn(b, fs, k)
  {
    assert NoSync(fs) by {
      assert forall e :: e in fs ==> e in multiset(es);
    }
    NoDeposits(b, es);
    NoDeposits(b, fs);
    LedgerLaw(b, es, m);
    LedgerLaw(b, fs, m);
    SymbolLaw(b, es, k);
    SymbolLaw(b, fs, k);
    SumSeqPermutation(es, fs, FeeOf);
    SumSeqPermutation(es, fs, GainAt(m));
    SumSeqPermutation(es, fs, QuantityIn(k));
  }

  lemma {:induction false} RunConcat(b: Book, es: seq<Event>, fs: seq<Event>)
    ensures Run(b, es + fs) == Run(Run(b, es), fs)
    decreases |fs|
  {
    if fs == [] {
      assert es + fs == es;
    } else {
      var init := fs[..|fs| - 1];
      assert (es + fs)[..|es + fs| - 1] == es + init;
      RunConcat(b, es, init);
    }
  }

  /** The last price a sequence of price updates gives to symbol k. */
  function FinalMark(ms: seq<Event>, k: string): Option<real> {
    if ms == [] then None
    else
      var e := ms[|ms| - 1];
      if e.Marked? && e.symbol == k then Some(e.price) else FinalMark(ms[..|ms| - 1], k)
  }

  function MarksOf(ms: seq<Event>): string -> real {
    (k: string) => var x := FinalMark(ms, k); if x.Some? then x.value else 0.0
  }

  predicate OnlyMarks(ms: seq<Event>) { forall e :: e in ms ==> e.Marked? }

  lemma {:induction false} MarkingRun(b: Book, ms: seq<Event>, m: string -> real)
    requires Coherent(b) && OnlyMarks(ms)
    ensures EquityAt(Run(b, ms), m) == EquityAt(b, m)
    ensures Run(b, ms).balances == b.balances && Run(b, ms).realized == b.realized
    ensures Run(b, ms).fees == b.fees
    ensures Run(b, ms).positions.Keys == b.positions.Keys
    ensures forall k :: k in b.positions ==>
              && Run(b, ms).positions[k].quantity == b.positions[k].quantity
              && (FinalMark(ms, k).Some? ==> Run(b, ms).positions[k].lastPrice == FinalMark(ms, k).value)
  {
    if ms != [] {
      var init, e := ms[..|ms| - 1], ms[|ms| - 1];
      MarkingRun(b, init, m);
      MarkKeepsEquity(Run(b, init), e.symbol, e.price, m);
      hide Sum, EquityAt;
    }
  }

  /** USDT only moves by deposits, fees and realised profit. */
  lemma {:induction false} CashLaw(b: Book, es: seq<Event>)
    ensures UsdtOf(Run(b, es).balances)
         == UsdtOf(b.balances) + Deposits(b, es)
            - (Run(b, es).fees - b.fees) + (Run(b, es).realized - b.realized)
  {
    if es != [] {
      var init, e := es[..|es| - 1], es[|es| - 1];
      CashLaw(b, init);
      hide RealizedOn, Sum, Before, Key, After, Cleanup;
    }
  }

  lemma {:induction false} FeesLaw(b: Book, es: seq<Event>)
    ensures Run(b, es).fees == b.fees + SumSeq(es, FeeOf)
  {
    if es != [] {
      FeesLaw(b, es[..|es| - 1]);
      hide RealizedOn, Sum, Before, Key, After, Cleanup;
    }
  }

  lemma SameHoldings(b: Book, es: seq<Event>, fs: seq<Event>)
    requires Coherent(b) && NoSync(es) && multiset(es) == multiset(fs)
    requires Deletions(b, es) == 0 && Deletions(b, fs) == 0
    ensures Run(b, es).positions.Keys == Run(b, fs).positions.Keys
    ensures forall k :: k in Run(b, es).positions ==>
              Run(b, es).positions[k].quantity == Run(b, fs).positions[k].quantity
  {
    var x, y := Run(b, es), Run(b, fs);
    RunCoherent(b, es);
    RunCoherent(b, fs);
    forall k
      ensures k in x.positions <==> k in y.positions
      ensures Held(x, k) == Held(y, k)
    {
      Reordered(b, es, fs, Flat(0.0), k);
      NothingDropped(b, es, k);
      NothingDropped(b, fs, k);
      HeldIffNonzero(x, k);
      HeldIffNonzero(y, k);
      hide Coherent, EquityAt, Held, Sum, Run;
    }
    forall k | k in x.positions
      ensures x.positions[k].quantity == y.positions[k].quantity
    {
      assert Held(x, k) == Held(y, k);
    }
  }

  lemma SameMoney(b: Book, es: seq<Event>, fs: seq<Event>, m: string -> real)
    requires Coherent(b) && NoSync(es) && multiset(es) == multiset(fs)
    requires Deletions(b, es) == 0 && Deletions(b, fs) == 0
    ensures EquityAt(Run(b, es), m) == EquityAt(Run(b, fs), m)
    ensures Run(b, es).fees == Run(b, fs).fees
  {
    Reordered(b, es, fs, m, "");
    NoDrift(b, es, m);
    NoDrift(b, fs, m);
    FeesLaw(b, es);
    FeesLaw(b, fs);
    SumSeqPermutation(es, fs, FeeOf);
  }

  /**
   * Two orders of the same history, marked to the same final prices, give the same
   * quantities, fees, equity and total profit, when neither drops non-zero dust.
   */
  lemma OrderIrrelevant(b: Book, es: seq<Event>, fs: seq<Event>, ms: seq<Event>)
    requires Coherent(b) && NoSync(es) && multiset(es) == multiset(fs) && OnlyMarks(ms)
    requires Deletions(b, es) == 0 && Deletions(b, fs) == 0
    requires forall k :: k in Run(b, es).positions ==> FinalMark(ms, k).Some?
    ensures var x, y := Run(b, es + ms), Run(b, fs + ms);
            && x.equity == y.equity && x.fees == y.fees
            && x.realized + x.unrealized == y.realized + y.unrealized
            && x.positions.Keys == y.positions.Keys
            && (forall k :: k in x.positions ==> x.positions[k].quantity == y.positions[k].quantity)
  {
    hide EquityAt, Sum, MarksOf, Coherent, Run, FinalMark;
    SameHoldings(b, es, fs);
    SameMoney(b, es, fs, MarksOf(ms));
    MarkedToEnd(b, es, ms);
    MarkedToEnd(b, fs, ms);
    CashLaw(b, es + ms);
    CashLaw(b, fs + ms);
    NoDeposits(b, es + ms);
    NoDeposits(b, fs + ms) by {
      assert forall e :: e in fs ==> e in multiset(es);
    }
  }

  lemma MarkedToEnd(b: Book, es: seq<Event>, ms: seq<Event>)
    requires Coherent(b) && OnlyMarks(ms)
    requires forall k :: k in Run(b, es).positions ==> FinalMark(ms, k).Some?
    ensures var x, y := Run(b, es), Run(b, es + ms);
            && y.equity == EquityAt(x, MarksOf(ms)) && y.equity == UsdtOf(y.balances) + y.unrealized
            && y.fees == x.fees && y.positions.Keys == x.positions.Keys
            && forall k :: k in x.positions ==> y.positions[k].quantity == x.positions[k].quantity
  {
    RunCoherent(b, es);
    RunConcat(b, es, ms);
    MarkingRun(Run(b, es), ms, MarksOf(ms));
    RunCoherent(Run(b, es), ms);
    BookEquity(Run(b, es + ms), MarksOf(ms));
    hide EquityAt, Sum;
  }

  lemma HeldIffNonzero(b: Book, k: string)
    requires Coherent(b)
    ensures k in b.positions <==> Held(b, k) != 0.0
  {
    if k in b.positions {
      assert Sound(b.positions[k]);
      ZeroIsDust();
    }
  }

  lemma {:induction false} NothingDropped(b: Book, es: seq<Event>, k: string)
    requires Deletions(b, es) == 0
    ensures DroppedIn(b, es, k) == 0.0
  {
    if es != [] {
      NothingDropped(b, es[..|es| - 1], k);
    }
  }
}
