/**
 * What the ledger is for: money is conserved over every history of fills, price
 * updates and wallet synchronisations, up to the dust that is deleted.
 *
 * A mark function gives every symbol a price. `EquityAt(b, m)` values the open
 * positions of b at m; at the book's own last prices it is the book's equity.
 */
module LedgerLaws {
  import opened Basics
  import opened Sums
  import opened Ledger

  /** What q units bought at `price` have gained at `mark`. */
  function Gain(q: real, price: real, mark: real): real { q * (mark - price) }

  function ValueOf(p: Position, mark: real): real { Gain(p.quantity, p.avgPrice, mark) }

  ghost function OpenValues(positions: map<string, Position>, m: string -> real): map<string, real> {
    map k | k in positions :: ValueOf(positions[k], m(k))
  }

  ghost function EquityAt(b: Book, m: string -> real): real {
    UsdtOf(b.balances) + Sum(OpenValues(b.positions, m))
  }

  ghost predicate AgreesWithLast(b: Book, m: string -> real) {
    forall k :: k in b.positions ==> m(k) == b.positions[k].lastPrice
  }

  function FeeOf(e: Event): real { if e.Filled? then e.fill.feeUsd else 0.0 }

  /** What a fill would be worth, at the mark, over what was paid for it. */
  function GainOf(e: Event, m: string -> real): real {
    if e.Filled? then Gain(Signed(e.fill), e.fill.price, m(Key(e.fill))) else 0.0
  }

  function GainAt(m: string -> real): Event -> real { (e: Event) => GainOf(e, m) }

  /** The quantity a fill leaves behind as dust, which `_cleanup_positions` then drops. */
  function Residue(b: Book, f: Fill): real {
    var q := After(Before(b.positions, f), f).quantity;
    if IsDust(q) then q else 0.0
  }

  function ResidueAverage(b: Book, f: Fill): real { After(Before(b.positions, f), f).avgPrice }

  ghost function StepDrift(b: Book, e: Event, m: string -> real): real {
    if e.Filled? then Gain(Residue(b, e.fill), ResidueAverage(b, e.fill), m(Key(e.fill))) else 0.0
  }

  /** Sum over the deleted residues of d * (mark - average). */
  ghost function Drift(b: Book, es: seq<Event>, m: string -> real): real {
    if es == [] then 0.0 else
      var init := es[..|es| - 1];
      Drift(b, init, m) + StepDrift(Run(b, init), es[|es| - 1], m)
  }

  /** The number of fills that delete a non-zero residue. */
  ghost function Deletions(b: Book, es: seq<Event>): nat {
    if es == [] then 0 else
      var init, e := es[..|es| - 1], es[|es| - 1];
      Deletions(b, init) + if e.Filled? && Residue(Run(b, init), e.fill) != 0.0 then 1 else 0
  }

  /** The change of USDT made by wallet synchronisations. */
  ghost function Deposits(b: Book, es: seq<Event>): real {
    if es == [] then 0.0 else
      var init, e := es[..|es| - 1], es[|es| - 1];
      Deposits(b, init) +
      if e.Synced? && USDT in e.wallet then e.wallet[USDT] - UsdtOf(Run(b, init).balances) else 0.0
  }

  lemma SameSign(x: real, y: real)
    requires x == 0.0 || x * y > 0.0
    ensures x + y > 0.0 ==> x >= 0.0 && y >= 0.0
    ensures x + y <= 0.0 ==> x <= 0.0 && y <= 0.0
  {
  }

  lemma Quotient(q: real, n: real)
    requires q != 0.0
    ensures Abs(q) * (n / Abs(q)) == n
  {
  }

  /** Adding to a position: the new average spreads the joint cost over the joint quantity. */
  lemma AveragedCost(q0: real, a0: real, q: real, price: real)
    requires q0 + q != 0.0 && (q0 == 0.0 || q0 * q > 0.0)
    ensures (q0 + q) * NewAverage(q0, a0, q, price) == a0 * q0 + price * q
  {
    var q1, n := q0 + q, a0 * Abs(q0) + price * Abs(q);
    SameSign(q0, q);
    assert NewAverage(q0, a0, q, price) == n / Abs(q1);
    Quotient(q1, n);
    hide NewAverage;
    if q1 > 0.0 {
      assert n == a0 * q0 + price * q;
    } else {
      assert n == -(a0 * q0 + price * q);
    }
  }

  /** One trade: profit plus money spent equals the change of cost basis. */
  lemma TradeConserves(q0: real, a0: real, q: real, price: real)
    ensures RealizedBy(q0, a0, q, price) + q * price
         == (q0 + q) * NewAverage(q0, a0, q, price) - q0 * a0
  {
    if q0 + q != 0.0 && (q0 == 0.0 || q0 * q > 0.0) {
      AveragedCost(q0, a0, q, price);
      SameSign(q0, q);
      assert RealizedBy(q0, a0, q, price) == 0.0;
      hide NewAverage, RealizedBy;
    } else if q == 0.0 {
      assert RealizedBy(q0, a0, q, price) == 0.0;
    } else {
      OppositeSides(q0, q);
      OppositeTrade(q0, a0, q, price);
      hide NewAverage, RealizedBy;
      if Abs(q0) == Abs(q) {
        CloseMoney(q0, a0, q, price);
      } else if Abs(q0) < Abs(q) {
        FlipMoney(q0, a0, q, price);
      } else {
        ReduceMoney(q0, a0, q, price);
      }
    }
  }

  lemma CloseMoney(q0: real, a0: real, q: real, price: real)
    requires q0 + q == 0.0
    ensures (price - a0) * q0 + q * price == (q0 + q) * 0.0 - q0 * a0
  {
    assert q == -q0;
  }

  lemma FlipMoney(q0: real, a0: real, q: real, price: real)
    ensures (price - a0) * q0 + q * price == (q0 + q) * price - q0 * a0
  {
  }

  lemma ReduceMoney(q0: real, a0: real, q: real, price: real)
    ensures (a0 - price) * q + q * price == (q0 + q) * a0 - q0 * a0
  {
  }

  /** Reducing, closing or flipping a position. */
  lemma OppositeTrade(q0: real, a0: real, q: real, price: real)
    requires q0 > 0.0 > q || q0 < 0.0 < q
    ensures RealizedBy(q0, a0, q, price) == if Abs(q0) <= Abs(q) then (price - a0) * q0 else (a0 - price) * q
    ensures NewAverage(q0, a0, q, price) == if Abs(q0) == Abs(q) then 0.0 else if Abs(q0) < Abs(q) then price else a0
  {
    NotAligned(q0, q);
  }

  lemma NotAligned(x: real, y: real)
    requires x > 0.0 > y || x < 0.0 < y
    ensures !(x * y > 0.0)
  {
  }

  lemma OppositeSides(x: real, y: real)
    requires x != 0.0 && y != 0.0 && !(x * y > 0.0)
    ensures x > 0.0 > y || x < 0.0 < y
  {
  }

  lemma CleanupOne(b: Book, f: Fill)
    requires Coherent(b)
    ensures var ps := b.positions[Key(f) := After(Before(b.positions, f), f)];
            Cleanup(ps) == if IsDust(ps[Key(f)].quantity) then b.positions - {Key(f)} else ps
  {
    hide After, Before, Key, Sum;
  }

  lemma Reweigh(ps: map<string, Position>, k: string, p: Position, m: string -> real)
    ensures Sum(OpenValues(ps[k := p], m))
         == Sum(OpenValues(ps, m)) - At(OpenValues(ps, m), k) + ValueOf(p, m(k))
    ensures Sum(OpenValues(ps - {k}, m)) == Sum(OpenValues(ps, m)) - At(OpenValues(ps, m), k)
  {
    hide Sum, ValueOf;
    var was := OpenValues(ps, m);
    SumUpdate(was, k, ValueOf(p, m(k)));
    SumSplit(was, k);
    assert OpenValues(ps[k := p], m) == was[k := ValueOf(p, m(k))];
    assert OpenValues(ps - {k}, m) == was - {k};
  }

  /** Only the position that was filled changes its contribution. */
  lemma OpenValuesAfter(b: Book, f: Fill, m: string -> real)
    requires Coherent(b)
    ensures Sum(OpenValues(ApplyFill(b, f).positions, m))
         == Sum(OpenValues(b.positions, m)) - ValueOf(Before(b.positions, f), m(Key(f)))
            + if IsDust(After(Before(b.positions, f), f).quantity) then 0.0
              else ValueOf(After(Before(b.positions, f), f), m(Key(f)))
  {
    CleanupOne(b, f);
    Reweigh(b.positions, Key(f), After(Before(b.positions, f), f), m);
    assert ValueOf(Before(b.positions, f), m(Key(f))) == At(OpenValues(b.positions, m), Key(f)) by {
      hide Key, Sum;
    }
    hide Key, Sum, IsDust, After, Before, ValueOf, OpenValues, RealizedOn, Coherent, Cleanup;
  }

  /** One fill moves marked equity by minus the fee, plus the gain, minus the dust dropped. */
  lemma FillConserves(b: Book, f: Fill, m: string -> real)
    requires Coherent(b)
    ensures EquityAt(ApplyFill(b, f), m)
         == EquityAt(b, m) - f.feeUsd + GainOf(Filled(f), m) - StepDrift(b, Filled(f), m)
  {
    hide Gain, NewAverage, RealizedBy, Sum, Key, IsDust, Signed, Before, OpenValues, Cleanup, Coherent;
    var p := Before(b.positions, f);
    OpenValuesAfter(b, f, m);
    UsdtAfter(b, f);
    MarkedGain(p.quantity, p.avgPrice, Signed(f), f.price, m(Key(f)));
    GainOfNothing(After(p, f).avgPrice, m(Key(f)));
    hide ApplyFill;
  }

  lemma UsdtAfter(b: Book, f: Fill)
    ensures UsdtOf(ApplyFill(b, f).balances)
         == UsdtOf(b.balances) - f.feeUsd + RealizedOn(Before(b.positions, f), f)
  {
    hide RealizedOn, Key, Before, Sum, Cleanup, After;
  }

  lemma GainOfNothing(price: real, mark: real)
    ensures Gain(0.0, price, mark) == 0.0
  {
  }

  lemma MarkedGain(q0: real, a0: real, q: real, price: real, mark: real)
    ensures RealizedBy(q0, a0, q, price) + Gain(q0 + q, NewAverage(q0, a0, q, price), mark)
         == Gain(q0, a0, mark) + Gain(q, price, mark)
  {
    TradeConserves(q0, a0, q, price);
    hide NewAverage, RealizedBy;
  }

  lemma MarkKeepsEquity(b: Book, symbol: string, price: real, m: string -> real)
    ensures EquityAt(UpdatePrice(b, symbol, price), m) == EquityAt(b, m)
  {
    hide Sum, Gain;
    assert OpenValues(UpdatePrice(b, symbol, price).positions, m) == OpenValues(b.positions, m);
  }

  lemma {:induction false} RunCoherent(b: Book, es: seq<Event>)
    requires Coherent(b)
    ensures Coherent(Run(b, es))
  {
    if es != [] {
      RunCoherent(b, es[..|es| - 1]);
      CoherentStep(Run(b, es[..|es| - 1]), es[|es| - 1]);
    }
  }

  /**
   * The ledger law, for every run from every coherent book and at every mark:
   * marked equity is what it was, plus deposits, minus fees, plus what each fill
   * has gained, minus the value of the dust that was dropped.
   */
  lemma {:induction false} LedgerLaw(b: Book, es: seq<Event>, m: string -> real)
    requires Coherent(b)
    ensures EquityAt(Run(b, es), m)
         == EquityAt(b, m) + Deposits(b, es) - SumSeq(es, FeeOf) + SumSeq(es, GainAt(m)) - Drift(b, es, m)
  {
    if es != [] {
      var init, e := es[..|es| - 1], es[|es| - 1];
      var mid := Run(b, init);
      LedgerLaw(b, init, m);
      RunCoherent(b, init);
      hide GainOf, StepDrift, EquityAt, Coherent;
      match e
      case Filled(f) => FillConserves(mid, f, m);
      case Marked(symbol, price) =>
        MarkKeepsEquity(mid, symbol, price, m);
        assert GainOf(e, m) == StepDrift(mid, e, m) == 0.0 by { NoGain(mid, e, m); }
      case Synced(wallet) =>
        NoGain(mid, e, m);
        SyncDeposits(mid, wallet, m);
    }
  }

  lemma NoGain(b: Book, e: Event, m: string -> real)
    requires !e.Filled?
    ensures GainOf(e, m) == StepDrift(b, e, m) == 0.0
  {
  }

  lemma SyncDeposits(b: Book, wallet: map<string, real>, m: string -> real)
    ensures EquityAt(SyncWallet(b, wallet), m)
         == EquityAt(b, m) + if USDT in wallet then wallet[USDT] - UsdtOf(b.balances) else 0.0
  {
  }

  /** At the last prices, marked equity is the figure the book reports. */
  lemma BookEquity(b: Book, m: string -> real)
    requires Coherent(b) && AgreesWithLast(b, m)
    ensures b.equity == EquityAt(b, m)
  {
    forall k | k in b.positions
      ensures b.positions[k].upl == ValueOf(b.positions[k], m(k))
    {
      assert Sound(b.positions[k]);
    }
    assert Upls(b.positions) == OpenValues(b.positions, m);
  }

  /** What equity should be if no dust had ever been dropped. */
  ghost function ExactEquity(b: Book, es: seq<Event>, m: string -> real): real {
    EquityAt(b, m) + Deposits(b, es) - SumSeq(es, FeeOf) + SumSeq(es, GainAt(m))
  }

  /** Reported equity is exact if and only if the dropped dust has no net value at the marks. */
  lemma EquityLaw(b: Book, es: seq<Event>, m: string -> real)
    requires Coherent(b) && AgreesWithLast(Run(b, es), m)
    ensures Run(b, es).equity == ExactEquity(b, es, m) - Drift(b, es, m)
    ensures Deletions(b, es) == 0 ==> Run(b, es).equity == ExactEquity(b, es, m)
  {
    LedgerLaw(b, es, m);
    RunCoherent(b, es);
    BookEquity(Run(b, es), m);
    if Deletions(b, es) == 0 {
      NoDrift(b, es, m);
    }
  }

  lemma {:induction false} NoDrift(b: Book, es: seq<Event>, m: string -> real)
    requires Deletions(b, es) == 0
    ensures Drift(b, es, m) == 0.0
  {
    if es != [] {
      NoDrift(b, es[..|es| - 1], m);
    }
  }

  /** Starting from a new portfolio: start, plus deposits, minus fees, plus gains. */
  lemma OpeningLaw(starting: map<string, real>, es: seq<Event>, m: string -> real)
    requires AgreesWithLast(Run(Opening(starting), es), m)
    ensures Deletions(Opening(starting), es) == 0 ==>
              Run(Opening(starting), es).equity
              == UsdtOf(starting) + Deposits(Opening(starting), es) - SumSeq(es, FeeOf) + SumSeq(es, GainAt(m))
  {
    var b := Opening(starting);
    assert Upls(b.positions) == map[] && Notionals(b.positions) == map[];
    assert OpenValues(b.positions, m) == map[];
    EquityLaw(b, es, m);
  }
}
