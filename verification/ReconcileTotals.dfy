/**
 * What reconciling fetched trades comes to, from the trades alone: each symbol ends with
 * the net quantity of its trades, in whatever order they were fetched.
 */
module ReconcileTotals {
  import opened Basics
  import opened Symbols
  import opened Sums
  import opened StableSort
  import opened Ledger
  import opened LedgerLaws
  import opened LedgerOrder
  import opened LedgerCells
  import opened LedgerMarks
  import opened Reconcile

  /** A trade that names its symbol, with a quantity and a price. */
  predicate Usable(t: Trade) { (t.symbol != "" || t.shortSymbol != "") && t.qty != 0.0 && t.price != 0.0 }

  /** The ledger key of a trade: its symbol in upper case, with its venue when it names none. */
  function KeyOf(t: Trade): string {
    var s, venue := if t.symbol != "" then t.symbol else t.shortSymbol, if t.venue != "" then t.venue else "BINANCE";
    Upper(if '.' in s then s else s + "." + venue)
  }

  function SignedIn(k: string): Trade -> real {
    (t: Trade) => if Usable(t) && KeyOf(t) == k then (if t.isBuyer then t.qty else -t.qty) else 0.0
  }

  /** The dollars a trade cost: the first fee amount that is not zero, or a commission paid in dollars. */
  function FeePaid(): Trade -> real {
    (t: Trade) =>
      if !Usable(t) then 0.0
      else if t.quoteFee != 0.0 then t.quoteFee
      else if t.commissionQuote != 0.0 then t.commissionQuote
      else if t.commissionAsset == "USDT" || t.commissionAsset == "USD" then t.commission else 0.0
  }

  lemma TradeIsEvent(t: Trade, k: string)
    ensures FillOf(t).Some? <==> Usable(t)
    ensures SignedIn(k)(t) == if FillOf(t).Some? then BoughtIn(k)(Filled(FillOf(t).value)) else 0.0
    ensures FeePaid()(t) == if FillOf(t).Some? then FeeOf(Filled(FillOf(t).value)) else 0.0
  {
    hide KeyOf, Ticker, FillOf, Upper, Lower, Bought;
    FillMeans(t);
    if Usable(t) {
      FeeMeans(t);
      TradeKey(t);
      SideMeans(FillOf(t).value);
    }
  }

  lemma SideMeans(f: Fill)
    ensures f.side == "BUY" ==> Bought(f) == f.quantity
    ensures f.side == "SELL" ==> Bought(f) == -f.quantity
  {
    assert Upper("SELL")[0] == 'S';
    assert Upper("BUY") == "BUY";
  }

  lemma TradeKey(t: Trade)
    requires Usable(t)
    ensures FillOf(t).Some? && Ticker(FillOf(t).value) == KeyOf(t)
  {
    FillMeans(t);
    var s, f := if t.symbol != "" then t.symbol else t.shortSymbol, FillOf(t).value;
    var venue := if t.venue != "" then t.venue else "BINANCE";
    if !('.' in s) {
      assert f.symbol[|s|] == '.';
      UpperJoined(s, venue);
      UpperJoined(s, f.venue);
      assert f.venue == Upper(venue) by { assert Upper("BINANCE") == "BINANCE"; }
      UpperIdempotent(venue);
    }
  }

  /** Sums over the fills are sums over the trades. */
  lemma {:induction false} SumsOfTrades(ts: seq<Trade>, k: string)
    ensures SumSeq(AsEvents(FillsOf(ts)), BoughtIn(k)) == SumSeq(ts, SignedIn(k))
    ensures SumSeq(AsEvents(FillsOf(ts)), FeeOf) == SumSeq(ts, FeePaid())
  {
    if ts != [] {
      hide FillOf, BoughtIn, SignedIn, FeePaid, FeeOf;
      var init, t := ts[..|ts| - 1], ts[|ts| - 1];
      SumsOfTrades(init, k);
      TradeIsEvent(t, k);
      if FillOf(t).Some? {
        var fs, f := FillsOf(init), FillOf(t).value;
        assert AsEvents(fs + [f]) == AsEvents(fs) + [Filled(f)];
        SumSeqSnoc(AsEvents(fs), Filled(f), BoughtIn(k));
        SumSeqSnoc(AsEvents(fs), Filled(f), FeeOf);
      }
    } else {
      assert AsEvents(FillsOf(ts)) == [];
    }
  }

  /**
   * After reconciling a new portfolio its fees are those of the usable trades fetched; and
   * when no trade leaves its symbol at a net quantity of dust, it holds each symbol in the
   * net quantity of its trades, and no other symbol.
   */
  lemma ReconciledTotals(starting: map<string, real>, fetches: seq<Option<seq<Trade>>>, k: string)
    ensures var end := Replay(Opening(starting), FillsOf(Sort(Collected(fetches), TimeOf())));
      && end.fees == SumSeq(Collected(fetches), FeePaid())
      && (NeverDust(AsEvents(FillsOf(Sort(Collected(fetches), TimeOf())))) ==>
            if k in end.positions then end.positions[k].quantity == SumSeq(Collected(fetches), SignedIn(k)) != 0.0
            else SumSeq(Collected(fetches), SignedIn(k)) == 0.0)
  {
    hide Sort, Collected, FillsOf, Replay, NeverDust, SignedIn, FeePaid, Run;
    var trades := Sort(Collected(fetches), TimeOf());
    var es := AsEvents(FillsOf(trades));
    SortSorts(Collected(fetches), TimeOf());
    SumSeqPermutation(Collected(fetches), trades, SignedIn(k));
    SumSeqPermutation(Collected(fetches), trades, FeePaid());
    SumsOfTrades(trades, k);
    ReplayIsRun(Opening(starting), FillsOf(trades));
    FeesLaw(Opening(starting), es);
    if NeverDust(es) {
      HeldIsNet(starting, es, k);
    }
  }
}
