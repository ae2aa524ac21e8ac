/**
 * The ledger told by its events alone: which price marks a symbol, how much of it is
 * held and what the whole book is worth, with no figure taken from the book's own state.
 */
module LedgerMarks {
  import opened Basics
  import opened Symbols
  import opened Sums
  import opened Ledger
  import opened LedgerLaws
  import opened LedgerDust
  import opened LedgerOrder

  /** The upper-cased ticker of a fill, its venue joined on when the symbol names none. */
  function Ticker(f: Fill): string {
    Upper(if '.' in f.symbol || f.venue == "" then f.symbol else f.symbol + "." + f.venue)
  }

  function Bought(f: Fill): real { if Upper(f.side) == "BUY" then f.quantity else -f.quantity }

  /** The price of the last event on symbol k. */
  function LastPriceOf(es: seq<Event>, k: string): Option<real> {
    if es == [] then None
    else
      var before := LastPriceOf(es[..|es| - 1], k);
      match es[|es| - 1]
      case Filled(f) => if Ticker(f) == k then Some(f.price) else before
      case Marked(symbol, price) => if symbol == k then Some(price) else before
      case Synced(_) => before
  }

  /** The last prices of a history, as a mark function. */
  function LastMarks(es: seq<Event>): string -> real {
    (k: string) => var x := LastPriceOf(es, k); if x.Some? then x.value else 0.0
  }

  function BoughtIn(k: string): Event -> real {
    (e: Event) => if e.Filled? && Ticker(e.fill) == k then Bought(e.fill) else 0.0
  }

  /** What the history has bought of symbol k, net of what it sold. */
  ghost function NetOf(es: seq<Event>, k: string): real { SumSeq(es, BoughtIn(k)) }

  /** No fill leaves its symbol with a non-zero net quantity of at most 1e-9. */
  ghost predicate NeverDust(es: seq<Event>) {
    es == [] ||
    var e := es[|es| - 1];
    && NeverDust(es[..|es| - 1])
    && (e.Filled? ==> var q := NetOf(es, Ticker(e.fill)); q == 0.0 || q > 0.000000001 || q < -0.000000001)
  }

  /** What the trades have gained at the marks: units times the price move since the trade. */
  function ProfitAt(m: string -> real): Event -> real {
    (e: Event) => if e.Filled? then Bought(e.fill) * (m(Ticker(e.fill)) - e.fill.price) else 0.0
  }

  lemma UpperJoined(s: string, t: string)
    ensures Upper(s + "." + t) == Upper(s) + "." + Upper(t)
  {
  }

  lemma KeyIsTicker(f: Fill)
    ensures Key(f) == Ticker(f)
  {
    UpperBase(f.symbol);
    UpperJoined(f.symbol, f.venue);
  }

  /** The stored quantity and mark of the symbol just filled, if it is still held. */
  lemma FillMarks(b: Book, f: Fill, k: string)
    requires Coherent(b) && k in ApplyFill(b, f).positions
    ensures ApplyFill(b, f).positions[k].lastPrice == if Ticker(f) == k then f.price else b.positions[k].lastPrice
    ensures Ticker(f) != k ==> k in b.positions
  {
    hide Key, Ticker, NewAverage, RealizedBy, Signed, Sum, IsDust, Coherent, Upl;
    KeyIsTicker(f);
  }

  /** Every held symbol is marked at the price of the last event on it. */
  lemma {:induction false} MarkedAtLast(b: Book, es: seq<Event>, k: string)
    requires Coherent(b) && k in Run(b, es).positions
    ensures var last := LastPriceOf(es, k);
      && (last.Some? ==> Run(b, es).positions[k].lastPrice == last.value)
      && (last.None? ==> k in b.positions && Run(b, es).positions[k].lastPrice == b.positions[k].lastPrice)
  {
    if es != [] {
      hide Ticker, ApplyFill, Coherent, Sum;
      var init, e := es[..|es| - 1], es[|es| - 1];
      var mid := Run(b, init);
      RunCoherent(b, init);
      match e {
        case Filled(f) => FillMarks(mid, f, k);
        case Marked(_, _) =>
        case Synced(_) =>
      }
      if k in mid.positions {
        MarkedAtLast(b, init, k);
      }
    }
  }

  /** In a run of a new portfolio the marks of the book are the last prices of its events. */
  lemma OpeningMarks(starting: map<string, real>, es: seq<Event>)
    ensures AgreesWithLast(Run(Opening(starting), es), LastMarks(es))
    ensures forall k :: k in Run(Opening(starting), es).positions ==>
      LastPriceOf(es, k) == Some(Run(Opening(starting), es).positions[k].lastPrice)
  {
    OpeningCoherent(starting);
    forall k | k in Run(Opening(starting), es).positions
      ensures LastPriceOf(es, k) == Some(Run(Opening(starting), es).positions[k].lastPrice)
    {
      hide Coherent, Opening, Run, LastPriceOf;
      MarkedAtLast(Opening(starting), es, k);
    }
  }

  /** A history that never nets to dust drops nothing, and leaves each symbol's net quantity. */
  lemma HeldIsNet(starting: map<string, real>, es: seq<Event>, k: string)
    requires NeverDust(es)
    ensures Deletions(Opening(starting), es) == 0
    ensures Held(Run(Opening(starting), es), k) == NetOf(es, k)
    ensures k in Run(Opening(starting), es).positions <==> NetOf(es, k) != 0.0
  {
    hide Opening, Coherent, NeverDust;
    var b := Opening(starting);
    OpeningCoherent(starting);
    NothingDeleted(starting, es);
    SymbolLaw(b, es, k);
    NothingDropped(b, es, k);
    SameQuantity(es, k);
    RunCoherent(b, es);
    HeldIffNonzero(Run(b, es), k);
  }

  lemma SameQuantity(es: seq<Event>, k: string)
    ensures SumSeq(es, QuantityIn(k)) == NetOf(es, k)
  {
    forall e: Event
      ensures QuantityIn(k)(e) == BoughtIn(k)(e)
    {
      if e.Filled? {
        KeyIsTicker(e.fill);
      }
    }
    SumSeqSame(es, QuantityIn(k), BoughtIn(k));
  }

  lemma {:induction false} NothingDeleted(starting: map<string, real>, es: seq<Event>)
    requires NeverDust(es)
    ensures Deletions(Opening(starting), es) == 0
  {
    if es != [] {
      hide Opening, Coherent;
      var b, init, e := Opening(starting), es[..|es| - 1], es[|es| - 1];
      NothingDeleted(starting, init);
      if e.Filled? {
        NetResidue(starting, init, e.fill);
      }
    }
  }

  /** The fill's residue is judged on the net quantity it leaves. */
  lemma NetResidue(starting: map<string, real>, init: seq<Event>, f: Fill)
    requires Deletions(Opening(starting), init) == 0
    ensures var q := NetOf(init + [Filled(f)], Ticker(f));
      Residue(Run(Opening(starting), init), f) == if -DUST <= q <= DUST then q else 0.0
  {
    hide Opening, Coherent, Ticker, Key, Bought, Signed, Run, Sum;
    var b, k := Opening(starting), Ticker(f);
    OpeningCoherent(starting);
    SymbolLaw(b, init, k);
    NothingDropped(b, init, k);
    SameQuantity(init, k);
    KeyIsTicker(f);
    SumSeqSnoc(init, Filled(f), BoughtIn(k));
    assert Signed(f) == Bought(f) by { SameSide(f); }
    assert Held(Run(b, init), k) == Before(Run(b, init).positions, f).quantity;
    assert After(Before(Run(b, init).positions, f), f).quantity == NetOf(init + [Filled(f)], k);
  }

  lemma SameSide(f: Fill)
    ensures Signed(f) == Bought(f)
  {
  }

  lemma SameGains(es: seq<Event>, m: string -> real)
    ensures SumSeq(es, GainAt(m)) == SumSeq(es, ProfitAt(m))
  {
    forall e: Event
      ensures GainAt(m)(e) == ProfitAt(m)(e)
    {
      if e.Filled? {
        KeyIsTicker(e.fill);
      }
    }
    SumSeqSame(es, GainAt(m), ProfitAt(m));
  }

  /**
   * The reported equity of a new portfolio, from its events alone: the starting cash, what
   * wallets brought in, less the fees, plus the gain of every trade at its symbol's last price.
   */
  lemma EquityFromEvents(starting: map<string, real>, es: seq<Event>)
    requires NeverDust(es)
    ensures Run(Opening(starting), es).equity
      == UsdtOf(starting) + Deposits(Opening(starting), es) - SumSeq(es, FeeOf) + SumSeq(es, ProfitAt(LastMarks(es)))
  {
    OpeningMarks(starting, es);
    NothingDeleted(starting, es);
    OpeningLaw(starting, es, LastMarks(es));
    SameGains(es, LastMarks(es));
  }

  /** With any dust: equity is exact but for the value, at the last prices, of what was dropped. */
  lemma EquityAtLastPrices(starting: map<string, real>, es: seq<Event>)
    ensures Run(Opening(starting), es).equity
      == UsdtOf(starting) + Deposits(Opening(starting), es) - SumSeq(es, FeeOf) + SumSeq(es, ProfitAt(LastMarks(es)))
         - Drift(Opening(starting), es, LastMarks(es))
  {
    hide LastMarks, ProfitAt, GainAt, Drift, Deposits, Coherent, Sum;
    var b, m := Opening(starting), LastMarks(es);
    OpeningMarks(starting, es);
    OpeningCoherent(starting);
    assert OpenValues(b.positions, m) == map[];
    assert EquityAt(b, m) == UsdtOf(starting) by { NoValue(m); }
    EquityLaw(b, es, m);
    SameGains(es, m);
  }

  lemma NoValue(m: string -> real)
    ensures Sum(OpenValues(map[], m)) == 0.0
  {
    assert OpenValues(map[], m) == map[];
  }

  // ---- the derived figures ----

  function UnrealizedOf(positions: map<string, Position>): map<string, real> {
    map k | k in positions :: positions[k].quantity * (positions[k].lastPrice - positions[k].avgPrice)
  }

  function ExposureOf(positions: map<string, Position>): map<string, real> {
    map k | k in positions :: Abs(positions[k].quantity) * Abs(positions[k].lastPrice)
  }

  /** What the four derived figures of a coherent book are, from balances, quantities and prices. */
  lemma FiguresMean(b: Book)
    requires Coherent(b)
    ensures b.cash == if "USDT" in b.balances then b.balances["USDT"] else 0.0
    ensures b.equity == b.cash + b.unrealized
    ensures b.unrealized == Sum(UnrealizedOf(b.positions))
    ensures b.exposure == Sum(ExposureOf(b.positions))
  {
    assert Upls(b.positions) == UnrealizedOf(b.positions) by {
      assert forall k :: k in b.positions ==> Sound(b.positions[k]);
    }
    forall k | k in b.positions
      ensures Notionals(b.positions)[k] == ExposureOf(b.positions)[k]
    {
      SameSize(b.positions, k);
    }
    assert Notionals(b.positions) == ExposureOf(b.positions);
  }

  lemma SameSize(positions: map<string, Position>, k: string)
    requires k in positions
    ensures Notionals(positions)[k] == ExposureOf(positions)[k]
  {
    var p := positions[k];
    AbsOfProduct(p.quantity, p.lastPrice);
    assert Notionals(positions)[k] == Abs(p.quantity * p.lastPrice);
    assert ExposureOf(positions)[k] == Abs(p.quantity) * Abs(p.lastPrice);
  }

  lemma AbsOfProduct(x: real, y: real)
    ensures Abs(x * y) == Abs(x) * Abs(y)
  {
  }

  /** What the symbols are worth, long or short, at the last prices of the events. */
  ghost function NetExposures(es: seq<Event>, held: set<string>): map<string, real> {
    map k | k in held :: Abs(NetOf(es, k)) * Abs(LastMarks(es)(k))
  }

  /** Exposure from the events alone: over the symbols with a net quantity, its size at the last price. */
  lemma ExposureFromEvents(starting: map<string, real>, es: seq<Event>)
    requires NeverDust(es)
    ensures var b := Run(Opening(starting), es);
      && (forall k :: k in b.positions.Keys <==> NetOf(es, k) != 0.0)
      && b.exposure == Sum(NetExposures(es, b.positions.Keys))
  {
    hide Opening, Run, Coherent, Sum, NetOf, LastMarks, NeverDust;
    var b := Run(Opening(starting), es);
    OpeningCoherent(starting);
    RunCoherent(Opening(starting), es);
    FiguresMean(b);
    OpeningMarks(starting, es);
    forall k
      ensures k in b.positions <==> NetOf(es, k) != 0.0
      ensures k in b.positions ==> ExposureOf(b.positions)[k] == NetExposures(es, b.positions.Keys)[k]
    {
      HeldIsNet(starting, es, k);
    }
    assert ExposureOf(b.positions) == NetExposures(es, b.positions.Keys);
  }

  /** A synchronisation takes over the wallet's balances, keeps the others and moves no position. */
  lemma SyncMeans(b: Book, wallet: map<string, real>, asset: string)
    ensures var b' := SyncWallet(b, wallet);
      && (asset in b'.balances <==> asset in wallet || asset in b.balances)
      && (asset in wallet ==> b'.balances[asset] == wallet[asset])
      && (asset in b.balances && asset !in wallet ==> b'.balances[asset] == b.balances[asset])
      && b'.positions == b.positions && b'.realized == b.realized && b'.fees == b.fees
  {
    hide Sum;
  }

  // ---- labels ----

  /** A position is labelled by the fill that opened it; later fills and updates keep the labels. */
  lemma FillLabels(b: Book, f: Fill)
    requires Coherent(b) && Ticker(f) in ApplyFill(b, f).positions
    ensures var p := ApplyFill(b, f).positions[Ticker(f)];
      if Ticker(f) in b.positions
      then p.(quantity := 0.0, avgPrice := 0.0, lastPrice := 0.0, upl := 0.0)
        == b.positions[Ticker(f)].(quantity := 0.0, avgPrice := 0.0, lastPrice := 0.0, upl := 0.0)
      else p.symbol == Ticker(f) && p.venue == f.venue
           && (f.market == "" ==> p.market == "spot") && (f.market != "" ==> p.market == f.market)
  {
    hide Key, Ticker, NewAverage, RealizedBy, Signed, Sum, IsDust, Coherent, Upl;
    KeyIsTicker(f);
  }

  /** No event changes the labels of a position that stays open. */
  lemma StepLabels(b: Book, e: Event, k: string)
    requires Coherent(b) && k in b.positions && k in Step(b, e).positions
    ensures var p, p' := b.positions[k], Step(b, e).positions[k];
      p'.symbol == p.symbol && p'.venue == p.venue && p'.market == p.market
  {
    hide Coherent, Sum, Ticker, ApplyFill;
    match e
    case Filled(f) =>
      KeyIsTicker(f);
      if k == Ticker(f) {
        FillLabels(b, f);
      } else {
        FillSpares(b, f, k);
      }
    case Marked(_, _) =>
    case Synced(_) =>
  }

  lemma FillSpares(b: Book, f: Fill, k: string)
    requires Coherent(b) && k != Key(f)
    ensures k in ApplyFill(b, f).positions <==> k in b.positions
    ensures k in b.positions ==> ApplyFill(b, f).positions[k] == b.positions[k]
  {
    hide Key, After, RealizedOn, Sum, IsDust, Coherent;
    CleanupOne(b, f);
  }

  /** Every position carries its own key as its symbol, and a market. */
  lemma {:induction false} LabelledByKey(starting: map<string, real>, es: seq<Event>, k: string)
    requires k in Run(Opening(starting), es).positions
    ensures Run(Opening(starting), es).positions[k].symbol == k
    ensures Run(Opening(starting), es).positions[k].market != ""
  {
    if es != [] {
      hide Ticker, Coherent, Sum, Opening;
      var init, e := es[..|es| - 1], es[|es| - 1];
      var mid := Run(Opening(starting), init);
      OpeningCoherent(starting);
      RunCoherent(Opening(starting), init);
      if k in mid.positions {
        LabelledByKey(starting, init, k);
      }
      match e
      case Filled(f) =>
        KeyIsTicker(f);
        if k == Ticker(f) {
          FillLabels(mid, f);
        } else {
          hide After, Before, IsDust;
        }
      case Marked(_, _) =>
      case Synced(_) =>
    }
  }
}
