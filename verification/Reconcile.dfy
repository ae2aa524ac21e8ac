/**
 * engine/reconcile.py: collect the trades of every symbol, sort them by time with a
 * stable sort, and replay them into the portfolio. Replaying the merged history is
 * the same as replaying each symbol's history on its own.
 */
module Reconcile {
  import opened Basics
  import opened Symbols
  import opened Sequences
  import opened StableSort
  import opened Ledger
  import opened LedgerCells

  /** A myTrades-style payload; absent numbers are zero and absent strings empty. */
  datatype Trade = Trade(
    time: int, symbol: string, shortSymbol: string, isBuyer: bool, qty: real, price: real,
    quoteFee: real, commissionQuote: real, commission: real, commissionAsset: string,
    venue: string, market: string)

  function SymbolOf(t: Trade): string { if t.symbol != "" then t.symbol else t.shortSymbol }

  function FeeUsd(t: Trade): real {
    if t.quoteFee != 0.0 then t.quoteFee
    else if t.commissionQuote != 0.0 then t.commissionQuote
    else if t.commissionAsset == "USDT" || t.commissionAsset == "USD" then t.commission
    else 0.0
  }

  function VenueHint(t: Trade): string { Upper(if t.venue != "" then t.venue else DEFAULT_VENUE) }

  function MarketHint(t: Trade): string {
    var m := Lower(t.market);
    if m == "margin" || m == "spot" || m == "futures" || m == "options" then m else ""
  }

  /** The fill a trade stands for; None when symbol, quantity or price is missing or zero. */
  function FillOf(t: Trade): Option<Fill> {
    if SymbolOf(t) != "" && t.qty != 0.0 && t.price != 0.0 then
      Some(Fill(Qualify(SymbolOf(t), VenueHint(t)), if t.isBuyer then "BUY" else "SELL",
                t.qty, t.price, FeeUsd(t), VenueHint(t), MarketHint(t)))
    else None
  }

  function FillsOf(ts: seq<Trade>): seq<Fill> {
    if ts == [] then []
    else
      var rest, f := FillsOf(ts[..|ts| - 1]), FillOf(ts[|ts| - 1]);
      if f.Some? then rest + [f.value] else rest
  }

  function TimeOf(): Trade -> real { (t: Trade) => t.time as real }

  /** What each symbol's fetch returned; a failed fetch is skipped, like an empty one. */
  function Collected(fetches: seq<Option<seq<Trade>>>): seq<Trade> {
    if fetches == [] then []
    else
      var last := fetches[|fetches| - 1];
      Collected(fetches[..|fetches| - 1]) + if last.Some? then last.value else []
  }

  method ReconcileSince(portfolio: Portfolio, fetches: seq<Option<seq<Trade>>>)
    requires Coherent(portfolio.State())
    modifies portfolio
    ensures portfolio.State() == Replay(old(portfolio.State()), FillsOf(Sort(Collected(fetches), TimeOf())))
    ensures Coherent(portfolio.State())
  {
    hide Coherent, ApplyFill, FillOf;
    var trades := [];
    for i := 0 to |fetches|
      invariant trades == Collected(fetches[..i])
    {
      assert fetches[..i + 1][..i] == fetches[..i];
      if fetches[i].Some? {
        trades := trades + fetches[i].value;
      }
    }
    assert fetches[..|fetches|] == fetches;
    trades := Sort(trades, TimeOf());
    ghost var start := portfolio.State();
    for i := 0 to |trades|
      invariant Coherent(portfolio.State())
      invariant portfolio.State() == Replay(start, FillsOf(trades[..i]))
    {
      assert trades[..i + 1][..i] == trades[..i];
      var f := FillOf(trades[i]);
      if f.Some? {
        ReplaySnoc(start, FillsOf(trades[..i]), f.value);
        portfolio.Fill(f.value);
      }
    }
    assert trades[..|trades|] == trades;
  }

  lemma ReplaySnoc(b: Book, fs: seq<Fill>, f: Fill)
    ensures Replay(b, fs + [f]) == ApplyFill(Replay(b, fs), f)
  {
    hide ApplyFill;
    assert (fs + [f])[..|fs|] == fs;
  }

  /** Which trades become fills, and what each field of the fill is taken from. */
  lemma FillMeans(t: Trade)
    ensures FillOf(t).None? <==> (t.symbol == "" && t.shortSymbol == "") || t.qty == 0.0 || t.price == 0.0
    ensures FillOf(t).Some? ==>
      var f := FillOf(t).value;
      && f.quantity == t.qty && f.price == t.price
      && (t.isBuyer ==> f.side == "BUY") && (!t.isBuyer ==> f.side == "SELL")
      && f.venue == (if t.venue == "" then "BINANCE" else Upper(t.venue))
      && (t.symbol != "" ==> f.symbol == if '.' in t.symbol then t.symbol else t.symbol + "." + f.venue)
      && (t.symbol == "" ==> f.symbol == if '.' in t.shortSymbol then t.shortSymbol else t.shortSymbol + "." + f.venue)
      && f.market == (if Lower(t.market) in {"margin", "spot", "futures", "options"} then Lower(t.market) else "")
  {
    assert Upper(DEFAULT_VENUE) == "BINANCE";
  }

  /** The fee in dollars: the first of the two quote amounts that is not zero, else a commission paid in dollars. */
  lemma FeeMeans(t: Trade)
    requires FillOf(t).Some?
    ensures t.quoteFee != 0.0 ==> FillOf(t).value.feeUsd == t.quoteFee
    ensures t.quoteFee == 0.0 && t.commissionQuote != 0.0 ==> FillOf(t).value.feeUsd == t.commissionQuote
    ensures t.quoteFee == 0.0 && t.commissionQuote == 0.0 ==>
      FillOf(t).value.feeUsd == if t.commissionAsset in {"USDT", "USD"} then t.commission else 0.0
  {
  }

  function At(time: int): Trade -> bool { (t: Trade) => t.time == time }

  /** The trades are replayed in the order of their times, and those of one time in the order they were fetched. */
  lemma ReplayedInTime(fetches: seq<Option<seq<Trade>>>, i: nat, j: nat, time: int)
    ensures var sorted := Sort(Collected(fetches), TimeOf());
      && multiset(sorted) == multiset(Collected(fetches))
      && (i <= j < |sorted| ==> sorted[i].time <= sorted[j].time)
      && Filter(sorted, At(time)) == Filter(Collected(fetches), At(time))
  {
    hide Sort, Filter, Collected;
    SortSorts(Collected(fetches), TimeOf());
    forall t: Trade
      ensures At(time)(t) <==> TimeOf()(t) == time as real
    {
    }
    SortIsStable(Collected(fetches), TimeOf(), At(time), time as real);
  }

  // ---- the merge does not matter ----

  function OnKey(k: string): Trade -> bool {
    (t: Trade) => FillOf(t).Some? && Key(FillOf(t).value) == k
  }

  lemma {:induction false} FillsOnKey(ts: seq<Trade>, k: string)
    ensures ForKey(FillsOf(ts), k) == FillsOf(Filter(ts, OnKey(k)))
  {
    hide FillOf, Key;
    if ts != [] {
      var init, t := ts[..|ts| - 1], ts[|ts| - 1];
      FillsOnKey(init, k);
      if FillOf(t).Some? {
        FilterSnoc(FillsOf(init), FillOf(t).value, OfKey(k));
      }
      var kept := Filter(init, OnKey(k));
      assert (kept + [t])[..|kept|] == kept;
    }
  }

  function Concat<T>(lists: seq<seq<T>>): seq<T> {
    if lists == [] then [] else Concat(lists[..|lists| - 1]) + lists[|lists| - 1]
  }

  function SortedEach(lists: seq<seq<Trade>>): seq<seq<Trade>> {
    seq(|lists|, i requires 0 <= i < |lists| => Sort(lists[i], TimeOf()))
  }

  /** No two lists trade the same ledger key. */
  ghost predicate KeysDisjoint(lists: seq<seq<Trade>>) {
    forall i, j, t, u | 0 <= i < |lists| && 0 <= j < |lists| && i != j && t in lists[i] && u in lists[j] ::
      FillOf(t).Some? && FillOf(u).Some? ==> Key(FillOf(t).value) != Key(FillOf(u).value)
  }

  /** All of what p picks from the concatenation comes from one list. */
  lemma {:induction false} FilterOnlyOne<T>(lists: seq<seq<T>>, p: T -> bool, i: int)
    requires -1 <= i < |lists|
    requires forall j :: 0 <= j < |lists| && j != i ==> Filter(lists[j], p) == []
    ensures Filter(Concat(lists), p) == if i == -1 then [] else Filter(lists[i], p)
  {
    hide Filter;
    if lists == [] {
      FilterEmpty(p);
    } else {
      var n := |lists| - 1;
      var init := lists[..n];
      FilterConcat(Concat(init), lists[n], p);
      if i == n {
        FilterOnlyOne(init, p, -1);
        assert Filter(Concat(init), p) + Filter(lists[n], p) == Filter(lists[n], p);
      } else {
        FilterOnlyOne(init, p, i);
        assert Filter(Concat(init), p) + [] == Filter(Concat(init), p);
      }
    }
  }

  /** The list that trades key k, or -1. */
  lemma OwnerOf(lists: seq<seq<Trade>>, k: string) returns (i: int)
    requires KeysDisjoint(lists)
    ensures -1 <= i < |lists|
    ensures forall j :: 0 <= j < |lists| && j != i ==> Filter(lists[j], OnKey(k)) == []
  {
    hide FillOf, Key;
    if j :| 0 <= j < |lists| && Filter(lists[j], OnKey(k)) != [] {
      i := j;
      var t := Filter(lists[j], OnKey(k))[0];
      assert t in Filter(lists[j], OnKey(k));
      FilterMember(lists[j], OnKey(k), t);
      forall j' | 0 <= j' < |lists| && j' != i
        ensures Filter(lists[j'], OnKey(k)) == []
      {
        if Filter(lists[j'], OnKey(k)) != [] {
          var u := Filter(lists[j'], OnKey(k))[0];
          assert u in Filter(lists[j'], OnKey(k));
          FilterMember(lists[j'], OnKey(k), u);
        }
      }
    } else {
      i := -1;
    }
  }

  /** What symbol k sees of the merged history is exactly its own sorted list. */
  lemma MergedOnKey(lists: seq<seq<Trade>>, k: string)
    requires KeysDisjoint(lists)
    ensures Filter(Sort(Concat(lists), TimeOf()), OnKey(k)) == Filter(Concat(SortedEach(lists)), OnKey(k))
  {
    hide FillOf, Key;
    var i := OwnerOf(lists, k);
    var p := OnKey(k);
    FilterSort(Concat(lists), TimeOf(), p);
    FilterOnlyOne(lists, p, i);
    forall j | 0 <= j < |lists|
      ensures Filter(SortedEach(lists)[j], p) == Sort(Filter(lists[j], p), TimeOf())
    {
      FilterSort(lists[j], TimeOf(), p);
    }
    FilterOnlyOne(SortedEach(lists), p, i);
  }

  /** The stable merge by time leaves the same book as replaying symbol after symbol. */
  lemma MergeIndependence(b: Book, lists: seq<seq<Trade>>)
    requires Coherent(b) && KeysDisjoint(lists)
    ensures Replay(b, FillsOf(Sort(Concat(lists), TimeOf())))
         == Replay(b, FillsOf(Concat(SortedEach(lists))))
  {
    hide KeysDisjoint, Coherent;
    var merged, apart := Sort(Concat(lists), TimeOf()), Concat(SortedEach(lists));
    forall k
      ensures ForKey(FillsOf(merged), k) == ForKey(FillsOf(apart), k)
    {
      MergedOnKey(lists, k);
      FillsOnKey(merged, k);
      FillsOnKey(apart, k);
    }
    Interleaving(b, FillsOf(merged), FillsOf(apart));
  }

  lemma DisjointPermute(lists: seq<seq<Trade>>, lists': seq<seq<Trade>>)
    requires KeysDisjoint(lists) && multiset(lists) == multiset(lists')
    ensures KeysDisjoint(lists')
  {
    hide FillOf, Key;
    forall i, j, t, u | 0 <= i < |lists'| && 0 <= j < |lists'| && i != j && t in lists'[i] && u in lists'[j]
                        && FillOf(t).Some? && FillOf(u).Some?
      ensures Key(FillOf(t).value) != Key(FillOf(u).value)
    {
      Apart(lists, lists', i, j);
    }
  }

  /** Two places of a permuted list come from two places of the list. */
  lemma Apart<T>(s: seq<T>, s': seq<T>, i: nat, j: nat)
    requires multiset(s) == multiset(s') && i < |s'| && j < |s'| && i != j
    ensures exists a, b :: 0 <= a < |s| && 0 <= b < |s| && a != b && s[a] == s'[i] && s[b] == s'[j]
  {
    assert s'[i] in multiset(s) && s'[j] in multiset(s);
    if s'[i] == s'[j] {
      TwiceIn(s', i, j);
      TwiceOut(s, s'[i]);
    }
  }

  lemma TwiceIn<T>(s: seq<T>, i: nat, j: nat)
    requires i < |s| && j < |s| && i != j && s[i] == s[j]
    ensures multiset(s)[s[i]] >= 2
  {
    var x, lo, hi := s[i], if i < j then i else j, if i < j then j else i;
    assert s == s[..lo] + [x] + s[lo + 1..hi] + [x] + s[hi + 1..];
  }

  lemma TwiceOut<T>(s: seq<T>, x: T)
    requires multiset(s)[x] >= 2
    ensures exists a, b :: 0 <= a < |s| && 0 <= b < |s| && a != b && s[a] == s[b] == x
  {
    assert x in multiset(s);
    var a :| 0 <= a < |s| && s[a] == x;
    var rest := s[..a] + s[a + 1..];
    assert s == s[..a] + [x] + s[a + 1..];
    assert x in multiset(rest);
    var c :| 0 <= c < |rest| && rest[c] == x;
    assert s[if c < a then c else c + 1] == x;
  }

  /** The order in which symbols are fetched is irrelevant. */
  lemma SymbolOrderIrrelevant(b: Book, lists: seq<seq<Trade>>, lists': seq<seq<Trade>>)
    requires Coherent(b) && KeysDisjoint(lists) && multiset(lists) == multiset(lists')
    ensures Replay(b, FillsOf(Sort(Concat(lists), TimeOf())))
         == Replay(b, FillsOf(Sort(Concat(lists'), TimeOf())))
  {
    hide Coherent, KeysDisjoint;
    DisjointPermute(lists, lists');
    var x, y := Sort(Concat(lists), TimeOf()), Sort(Concat(lists'), TimeOf());
    forall k
      ensures ForKey(FillsOf(x), k) == ForKey(FillsOf(y), k)
    {
      SameOnKey(lists, lists', k);
      FilterSort(Concat(lists), TimeOf(), OnKey(k));
      FilterSort(Concat(lists'), TimeOf(), OnKey(k));
      FillsOnKey(x, k);
      FillsOnKey(y, k);
    }
    Interleaving(b, FillsOf(x), FillsOf(y));
  }

  lemma SameOnKey(lists: seq<seq<Trade>>, lists': seq<seq<Trade>>, k: string)
    requires KeysDisjoint(lists) && KeysDisjoint(lists') && multiset(lists) == multiset(lists')
    ensures Filter(Concat(lists), OnKey(k)) == Filter(Concat(lists'), OnKey(k))
  {
    hide KeysDisjoint;
    FoundOnKey(lists, lists', k);
    FoundOnKey(lists', lists, k);
  }

  lemma FoundOnKey(lists: seq<seq<Trade>>, lists': seq<seq<Trade>>, k: string)
    requires KeysDisjoint(lists) && KeysDisjoint(lists') && multiset(lists) == multiset(lists')
    ensures Filter(Concat(lists), OnKey(k)) != [] ==>
              Filter(Concat(lists), OnKey(k)) == Filter(Concat(lists'), OnKey(k))
  {
    hide KeysDisjoint, FillOf, Key;
    var p := OnKey(k);
    var i := OwnerOf(lists, k);
    var j := OwnerOf(lists', k);
    FilterOnlyOne(lists, p, i);
    FilterOnlyOne(lists', p, j);
    if Filter(Concat(lists), p) != [] {
      assert lists[i] in multiset(lists');
      var i' :| 0 <= i' < |lists'| && lists'[i'] == lists[i];
      assert i' == j;
    }
  }

  // ---- the output of the method ----

  /** The fetched lists, a failed fetch counting as an empty one. */
  function ListsOf(fetches: seq<Option<seq<Trade>>>): (lists: seq<seq<Trade>>)
    ensures |lists| == |fetches|
    ensures forall i :: 0 <= i < |fetches| ==> lists[i] == if fetches[i].Some? then fetches[i].value else []
  {
    seq(|fetches|, i requires 0 <= i < |fetches| => if fetches[i].Some? then fetches[i].value else [])
  }

  lemma {:induction false} CollectedIsConcat(fetches: seq<Option<seq<Trade>>>)
    ensures Collected(fetches) == Concat(ListsOf(fetches))
  {
    if fetches != [] {
      CollectedIsConcat(fetches[..|fetches| - 1]);
      assert ListsOf(fetches)[..|fetches| - 1] == ListsOf(fetches[..|fetches| - 1]);
    }
  }

  /**
   * What `ReconcileSince` leaves: the book of each symbol's sorted trades replayed one
   * symbol after the other, and the same book for the fetches in any other order.
   */
  lemma ReconciledBook(b: Book, fetches: seq<Option<seq<Trade>>>, fetches': seq<Option<seq<Trade>>>)
    requires Coherent(b) && KeysDisjoint(ListsOf(fetches))
    requires multiset(ListsOf(fetches)) == multiset(ListsOf(fetches'))
    ensures var end := Replay(b, FillsOf(Sort(Collected(fetches), TimeOf())));
      && end == Replay(b, FillsOf(Concat(SortedEach(ListsOf(fetches)))))
      && end == Replay(b, FillsOf(Sort(Collected(fetches'), TimeOf())))
  {
    hide Coherent, KeysDisjoint, Collected, Concat, SortedEach, FillsOf, Replay;
    CollectedIsConcat(fetches);
    CollectedIsConcat(fetches');
    MergeIndependence(b, ListsOf(fetches));
    SymbolOrderIrrelevant(b, ListsOf(fetches), ListsOf(fetches'));
  }

  // ---- when fetches do not share a ledger key ----

  /**
   * Fetches that return only trades of their own ledger key, for symbols that differ as
   * qualified and upper-cased: one base may be listed on several venues.
   */
  predicate OwnTrades(lists: seq<seq<Trade>>, symbols: seq<string>) {
    && |lists| == |symbols|
    && (forall i, t :: 0 <= i < |lists| && t in lists[i] && FillOf(t).Some? ==>
          Upper(Qualify(SymbolOf(t), VenueHint(t))) == Upper(Qualify(symbols[i], DEFAULT_VENUE)))
    && (forall i, j :: 0 <= i < j < |symbols| ==>
          Upper(Qualify(symbols[i], DEFAULT_VENUE)) != Upper(Qualify(symbols[j], DEFAULT_VENUE)))
  }

  lemma KeyIsQualified(t: Trade)
    requires FillOf(t).Some?
    ensures Key(FillOf(t).value) == Upper(Qualify(SymbolOf(t), VenueHint(t)))
  {
    var s, v := SymbolOf(t), VenueHint(t);
    UpperBase(Qualify(s, v));
    if !HasDot(s) {
      assert (s + "." + v)[|s|] == '.';
    }
  }

  lemma OwnTradesAreDisjoint(lists: seq<seq<Trade>>, symbols: seq<string>)
    requires OwnTrades(lists, symbols)
    ensures KeysDisjoint(lists)
  {
    hide Key, FillOf, SymbolOf, VenueHint, Upper, Qualify;
    forall i, j, t, u | 0 <= i < |lists| && 0 <= j < |lists| && i != j && t in lists[i] && u in lists[j]
                        && FillOf(t).Some? && FillOf(u).Some?
      ensures Key(FillOf(t).value) != Key(FillOf(u).value)
    {
      KeyIsQualified(t);
      KeyIsQualified(u);
    }
  }

  /** Fetches whose trades carry their own symbol, whatever the venue, for symbols with distinct bases. */
  predicate OwnBases(lists: seq<seq<Trade>>, symbols: seq<string>) {
    && |lists| == |symbols|
    && (forall i, t :: 0 <= i < |lists| && t in lists[i] ==> SymbolOf(t) == symbols[i])
    && (forall i, j :: 0 <= i < j < |symbols| ==> Upper(Base(symbols[i])) != Upper(Base(symbols[j])))
  }

  lemma KeyBase(t: Trade)
    requires FillOf(t).Some?
    ensures Base(Key(FillOf(t).value)) == Upper(Base(SymbolOf(t)))
  {
    var s, v := SymbolOf(t), VenueHint(t);
    UpperBase(Qualify(s, v));
    BaseOfJoined(s, v);
    assert HasDot(Qualify(s, v)) by {
      if !HasDot(s) {
        assert (s + "." + v)[|s|] == '.';
      }
    }
  }

  lemma OwnBasesAreDisjoint(lists: seq<seq<Trade>>, symbols: seq<string>)
    requires OwnBases(lists, symbols)
    ensures KeysDisjoint(lists)
  {
    hide Key, FillOf, SymbolOf, Upper, Base;
    forall i, j, t, u | 0 <= i < |lists| && 0 <= j < |lists| && i != j && t in lists[i] && u in lists[j]
                        && FillOf(t).Some? && FillOf(u).Some?
      ensures Key(FillOf(t).value) != Key(FillOf(u).value)
    {
      KeyBase(t);
      KeyBase(u);
    }
  }
}
