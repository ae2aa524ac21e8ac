/**
 * The moving-average crossover of engine/strategy.py: one capped window of prices per
 * symbol, and a signal that compares a fast mean with a slow one.
 */
module MaCross {
  import opened Basics
  import opened RealFacts
  import opened Sums

  datatype Side = Buy | Sell

  datatype Tick = Tick(symbol: string, price: real)

  type Windows = map<string, seq<real>>

  function WindowOf(m: Windows, symbol: string): seq<real> { if symbol in m then m[symbol] else [] }

  /** The last n elements, or all of them when there are fewer. */
  function Last(s: seq<real>, n: nat): seq<real> { if |s| <= n then s else s[|s| - n..] }

  function Mean(s: seq<real>): real
    requires s != []
  {
    Total(s) / |s| as real
  }

  predicate ValidSpans(fast: int, slow: int) { 1 <= fast < slow }

  function Signal(w: seq<real>, fast: int, slow: int): Option<Side>
    requires ValidSpans(fast, slow)
  {
    if |w| < slow then None
    else
      var quick, steady := Mean(w[|w| - fast..]), Mean(w);
      if quick > steady then Some(Buy) else if quick < steady then Some(Sell) else None
  }

  /** What a push gives its caller: a signal, or an exception that leaves the window as capped. */
  datatype Reply = Answer(signal: Option<Side>) | Raised

  /** The window holds at most this many prices; a negative span empties it. */
  function Cap(slow: int): nat { if slow < 0 then 0 else slow }

  /** `list(w)[-fast:]`. */
  function Tail(w: seq<real>, fast: int): seq<real> {
    if fast > |w| || fast == 0 then w
    else if fast > 0 then w[|w| - fast..]
    else if -fast > |w| then [] else w[-fast..]
  }

  /** On a capped window, for any spans: popping an empty deque and dividing by zero raise. */
  function Replied(w: seq<real>, fast: int, slow: int): Reply {
    if slow < 0 then Raised
    else if |w| < slow then Answer(None)
    else if fast == 0 || w == [] then Raised
    else
      var quick, steady := Total(Tail(w, fast)) / fast as real, Mean(w);
      Answer(if quick > steady then Some(Buy) else if quick < steady then Some(Sell) else None)
  }

  function Pushed(m: Windows, slow: nat, t: Tick): Windows {
    m[t.symbol := Last(WindowOf(m, t.symbol) + [t.price], slow)]
  }

  function Run(slow: nat, ticks: seq<Tick>): Windows {
    if ticks == [] then map[] else Pushed(Run(slow, ticks[..|ticks| - 1]), slow, ticks[|ticks| - 1])
  }

  /** What the last push of a run returns. */
  function Output(fast: int, slow: int, ticks: seq<Tick>): Option<Side>
    requires ValidSpans(fast, slow) && ticks != []
  {
    Signal(WindowOf(Run(slow, ticks), ticks[|ticks| - 1].symbol), fast, slow)
  }

  // ---- the window ----

  function PricesOf(ticks: seq<Tick>, symbol: string): seq<real> {
    if ticks == [] then []
    else
      var past, t := PricesOf(ticks[..|ticks| - 1], symbol), ticks[|ticks| - 1];
      if t.symbol == symbol then past + [t.price] else past
  }

  lemma LastSnoc(s: seq<real>, n: nat, x: real)
    ensures Last(Last(s, n) + [x], n) == Last(s + [x], n)
  {
    if |s| > n {
      assert s + [x] == s[..|s| - n] + (s[|s| - n..] + [x]);
    }
  }

  /** Each window is the last `slow` prices of its own symbol, however the symbols interleave. */
  lemma {:induction false} WindowIsLast(slow: nat, ticks: seq<Tick>, symbol: string)
    ensures WindowOf(Run(slow, ticks), symbol) == Last(PricesOf(ticks, symbol), slow)
  {
    if ticks != [] {
      hide Last;
      var init, t := ticks[..|ticks| - 1], ticks[|ticks| - 1];
      WindowIsLast(slow, init, symbol);
      LastSnoc(PricesOf(init, symbol), slow, t.price);
    } else {
      assert Last([], slow) == [];
    }
  }

  /** No signal until `slow` prices of the symbol have been pushed. */
  lemma SilentUntilFull(fast: int, slow: int, ticks: seq<Tick>)
    requires ValidSpans(fast, slow) && ticks != []
    ensures var prices := PricesOf(ticks, ticks[|ticks| - 1].symbol);
      if |prices| < slow then Output(fast, slow, ticks) == None
      else Output(fast, slow, ticks) == Signal(prices[|prices| - slow..], fast, slow)
  {
    WindowIsLast(slow, ticks, ticks[|ticks| - 1].symbol);
  }

  /** With 1 <= fast < slow a push never raises, and answers with the signal of the window. */
  lemma ValidSpansAnswer(w: seq<real>, fast: int, slow: int)
    requires ValidSpans(fast, slow) && |w| <= slow
    ensures Replied(w, fast, slow) == Answer(Signal(w, fast, slow))
  {
  }

  /**
   * With spans that the constructor lets through, the last push of a stream raises exactly
   * when the slow span is not positive, or the fast one is zero and the window is full.
   */
  lemma RaisesIff(fast: int, slow: int, ticks: seq<Tick>)
    requires fast < slow && ticks != []
    ensures var symbol := ticks[|ticks| - 1].symbol;
      Replied(WindowOf(Run(Cap(slow), ticks), symbol), fast, slow).Raised?
      <==> slow <= 0 || (fast == 0 && |PricesOf(ticks, symbol)| >= slow)
  {
    hide Total, Mean;
    WindowIsLast(Cap(slow), ticks, ticks[|ticks| - 1].symbol);
  }

  /** Spans 0 and 1: the first price fills the window, and the push divides by zero. */
  lemma ZeroFastRaises()
    ensures Replied(WindowOf(Run(Cap(1), [Tick("X", 9.0)]), "X"), 0, 1).Raised?
  {
    var ticks := [Tick("X", 9.0)];
    assert ticks[..0] == [] && PricesOf(ticks, "X") == [9.0];
    RaisesIff(0, 1, ticks);
  }

  // ---- the signal as the sign of one quantity ----

  /** The two means, cross-multiplied. */
  function Lead(w: seq<real>, fast: int): real
    requires 1 <= fast <= |w|
  {
    Total(w[|w| - fast..]) * |w| as real - Total(w) * fast as real
  }

  lemma SignOfProduct(x: real, y: real)
    requires y > 0.0
    ensures (x * y > 0.0 <==> x > 0.0) && (x * y < 0.0 <==> x < 0.0)
  {
    if x > 0.0 {
      StrictlyBelow(0.0, x, y);
    } else if x < 0.0 {
      StrictlyBelow(x, 0.0, y);
    }
  }

  lemma QuotientsCompare(a: real, m: real, b: real, n: real)
    requires m > 0.0 && n > 0.0
    ensures (a / m > b / n <==> a * n - b * m > 0.0) && (a / m < b / n <==> a * n - b * m < 0.0)
  {
    var x, y := a / m, b / n;
    assert x * m == a && y * n == b;
    assert a * n - b * m == (x - y) * (m * n) by {
      assert a * n == x * (m * n) && b * m == y * (m * n);
    }
    NonNegative(m, n);
    SignOfProduct(m, n);
    SignOfProduct(x - y, m * n);
  }

  lemma SignalIsSign(w: seq<real>, fast: int, slow: int)
    requires ValidSpans(fast, slow) && |w| == slow
    ensures Signal(w, fast, slow) == Some(Buy) <==> Lead(w, fast) > 0.0
    ensures Signal(w, fast, slow) == Some(Sell) <==> Lead(w, fast) < 0.0
  {
    QuotientsCompare(Total(w[|w| - fast..]), fast as real, Total(w), |w| as real);
  }

  /**
   * The answer to the last push of a stream: none before `slow` prices of its symbol, then
   * the side on which the sum of the last `fast` of them, scaled up to `slow`, lies of the
   * sum of the last `slow`, scaled up to `fast`.
   */
  lemma OutputMeans(fast: int, slow: int, ticks: seq<Tick>)
    requires ValidSpans(fast, slow) && ticks != []
    ensures var prices := PricesOf(ticks, ticks[|ticks| - 1].symbol);
      if |prices| < slow then Output(fast, slow, ticks) == None
      else
        var quick := Total(prices[|prices| - fast..]) * slow as real;
        var steady := Total(prices[|prices| - slow..]) * fast as real;
        && (Output(fast, slow, ticks) == Some(Buy) <==> quick > steady)
        && (Output(fast, slow, ticks) == Some(Sell) <==> quick < steady)
  {
    hide Signal, Total;
    SilentUntilFull(fast, slow, ticks);
    var prices := PricesOf(ticks, ticks[|ticks| - 1].symbol);
    if |prices| >= slow {
      var w := prices[|prices| - slow..];
      assert w[|w| - fast..] == prices[|prices| - fast..];
      SignalIsSign(w, fast, slow);
    }
  }

  // ---- trends ----

  predicate Rising(w: seq<real>) { forall i, j :: 0 <= i < j < |w| ==> w[i] < w[j] }

  predicate Falling(w: seq<real>) { forall i, j :: 0 <= i < j < |w| ==> w[i] > w[j] }

  lemma {:induction false} SumAbove(s: seq<real>, lo: real)
    requires forall i :: 0 <= i < |s| ==> lo <= s[i]
    ensures |s| as real * lo <= Total(s)
  {
    if s != [] {
      SumAbove(s[..|s| - 1], lo);
    }
  }

  lemma {:induction false} SumBelow(s: seq<real>, hi: real)
    requires forall i :: 0 <= i < |s| ==> s[i] <= hi
    ensures Total(s) <= |s| as real * hi
  {
    if s != [] {
      SumBelow(s[..|s| - 1], hi);
    }
  }

  /** Recent total r over m prices, older total o over k: above means apart, the lead is positive. */
  lemma ApartLeads(r: real, o: real, m: real, k: real, lo: real, hi: real)
    requires m > 0.0 && k > 0.0 && hi < lo && m * lo <= r && o <= k * hi
    ensures r * (m + k) - (r + o) * m > 0.0
  {
    assert r * (m + k) - (r + o) * m == r * k - o * m;
    NonNegative(r - m * lo, k);
    NonNegative(k * hi - o, m);
    SignOfProduct(m, k);
    SignOfProduct(lo - hi, m * k);
    assert m * lo * k - k * hi * m == (lo - hi) * (m * k);
  }

  /** A strictly rising full window is a buy. */
  lemma RisingBuys(w: seq<real>, fast: int, slow: int)
    requires ValidSpans(fast, slow) && |w| == slow && Rising(w)
    ensures Signal(w, fast, slow) == Some(Buy)
  {
    hide Total;
    var cut := |w| - fast;
    var older, recent := w[..cut], w[cut..];
    assert w == older + recent;
    TotalConcat(older, recent);
    SumAbove(recent, w[cut]);
    SumBelow(older, w[cut - 1]);
    ApartLeads(Total(recent), Total(older), fast as real, cut as real, w[cut], w[cut - 1]);
    SignalIsSign(w, fast, slow);
  }

  // ---- changing the unit and the origin of prices ----

  function Moved(x: real, k: real, c: real): real { k * x + c }

  /** The sum of n moved values whose plain sum is given. */
  function MovedSum(sum: real, n: nat, k: real, c: real): real { k * sum + n as real * c }

  function Affine(s: seq<real>, k: real, c: real): (r: seq<real>)
    ensures |r| == |s| && forall i :: 0 <= i < |s| ==> r[i] == Moved(s[i], k, c)
  {
    if s == [] then [] else Affine(s[..|s| - 1], k, c) + [Moved(s[|s| - 1], k, c)]
  }

  lemma AffineSlice(s: seq<real>, from: nat, k: real, c: real)
    requires from <= |s|
    ensures Affine(s, k, c)[from..] == Affine(s[from..], k, c)
  {
    hide Moved;
  }

  lemma {:induction false} SumAffine(s: seq<real>, k: real, c: real)
    ensures Total(Affine(s, k, c)) == MovedSum(Total(s), |s|, k, c)
  {
    if s == [] {
      assert Total(Affine(s, k, c)) == 0.0;
    } else {
      hide Moved, Total, MovedSum;
      var init, x := s[..|s| - 1], s[|s| - 1];
      SumAffine(init, k, c);
      TotalSnoc(Affine(init, k, c), Moved(x, k, c));
      assert s == init + [x];
      TotalSnoc(init, x);
      AffineTerm(Total(init), x, |init|, k, c);
    }
  }

  lemma AffineTerm(sum: real, x: real, n: nat, k: real, c: real)
    ensures MovedSum(sum, n, k, c) + Moved(x, k, c) == MovedSum(sum + x, n + 1, k, c)
  {
  }

  lemma LeadScales(r: real, s: real, m: nat, n: nat, k: real, c: real)
    ensures MovedSum(r, m, k, c) * n as real - MovedSum(s, n, k, c) * m as real
      == (r * n as real - s * m as real) * k
  {
  }

  lemma LeadAffine(w: seq<real>, fast: int, k: real, c: real)
    requires 1 <= fast <= |w|
    ensures Lead(Affine(w, k, c), fast) == Lead(w, fast) * k
  {
    hide Total, Moved, Affine, MovedSum;
    var cut := |w| - fast;
    AffineSlice(w, cut, k, c);
    SumAffine(w[cut..], k, c);
    SumAffine(w, k, c);
    LeadScales(Total(w[cut..]), Total(w), fast, |w|, k, c);
  }

  function Opposite(signal: Option<Side>): Option<Side> {
    match signal
    case None => None
    case Some(Buy) => Some(Sell)
    case Some(Sell) => Some(Buy)
  }

  /** A positive scale and any shift keep the signal; a negative scale turns it round. */
  lemma SignalAffine(w: seq<real>, fast: int, slow: int, k: real, c: real)
    requires ValidSpans(fast, slow) && |w| <= slow && k != 0.0
    ensures Signal(Affine(w, k, c), fast, slow)
      == if k > 0.0 then Signal(w, fast, slow) else Opposite(Signal(w, fast, slow))
  {
    if |w| == slow {
      hide Lead, Mean;
      LeadAffine(w, fast, k, c);
      SignalIsSign(w, fast, slow);
      SignalIsSign(Affine(w, k, c), fast, slow);
      if k > 0.0 {
        SignOfProduct(Lead(w, fast), k);
      } else {
        SignOfProduct(Lead(w, fast), -k);
        assert Lead(w, fast) * -k == -(Lead(w, fast) * k);
      }
    }
  }

  /** A strictly falling full window is a sell: mirrored prices rise. */
  lemma FallingSells(w: seq<real>, fast: int, slow: int)
    requires ValidSpans(fast, slow) && |w| == slow && Falling(w)
    ensures Signal(w, fast, slow) == Some(Sell)
  {
    hide Signal;
    SignalAffine(w, fast, slow, -1.0, 0.0);
    RisingBuys(Affine(w, -1.0, 0.0), fast, slow);
  }

  function AffineTicks(ticks: seq<Tick>, k: real, c: real): (r: seq<Tick>)
    ensures |r| == |ticks|
    ensures forall i :: 0 <= i < |ticks| ==> r[i] == Tick(ticks[i].symbol, Moved(ticks[i].price, k, c))
  {
    if ticks == [] then []
    else
      var t := ticks[|ticks| - 1];
      AffineTicks(ticks[..|ticks| - 1], k, c) + [Tick(t.symbol, Moved(t.price, k, c))]
  }

  lemma {:induction false} PricesAffine(ticks: seq<Tick>, symbol: string, k: real, c: real)
    ensures PricesOf(AffineTicks(ticks, k, c), symbol) == Affine(PricesOf(ticks, symbol), k, c)
  {
    if ticks != [] {
      hide Moved;
      var init, t := ticks[..|ticks| - 1], ticks[|ticks| - 1];
      PricesAffine(init, symbol, k, c);
      var past := PricesOf(init, symbol);
      assert AffineTicks(ticks, k, c)[..|ticks| - 1] == AffineTicks(init, k, c);
      assert (past + [t.price])[..|past|] == past;
    }
  }

  lemma LastAffine(s: seq<real>, n: nat, k: real, c: real)
    ensures Last(Affine(s, k, c), n) == Affine(Last(s, n), k, c)
  {
    if |s| > n {
      AffineSlice(s, |s| - n, k, c);
    }
  }

  /** Over any stream, rescaling every price by a positive factor and shifting it changes no signal. */
  lemma StreamAffine(fast: int, slow: int, ticks: seq<Tick>, k: real, c: real)
    requires ValidSpans(fast, slow) && ticks != [] && k > 0.0
    ensures Output(fast, slow, AffineTicks(ticks, k, c)) == Output(fast, slow, ticks)
  {
    hide Affine, PricesOf, Run, Signal;
    var symbol := ticks[|ticks| - 1].symbol;
    WindowIsLast(slow, ticks, symbol);
    WindowIsLast(slow, AffineTicks(ticks, k, c), symbol);
    PricesAffine(ticks, symbol, k, c);
    LastAffine(PricesOf(ticks, symbol), slow, k, c);
    SignalAffine(Last(PricesOf(ticks, symbol), slow), fast, slow, k, c);
  }

  // ---- the object ----

  /** Pop from the front down to the slow span, or until there is nothing left to pop. */
  method Shorten(all: seq<real>, slow: int) returns (w: seq<real>)
    ensures w == Last(all, Cap(slow)) && |w| <= Cap(slow)
  {
    w := all;
    while |w| > slow && w != []
      invariant |w| <= |all| && w == all[|all| - |w|..]
      invariant |all| > Cap(slow) ==> |w| >= Cap(slow)
      invariant |all| <= Cap(slow) ==> w == all
    {
      w := w[1..];
    }
  }

  class MACross {
    const fast: int
    const slow: int
    var windows: Windows

    constructor (fast: int, slow: int)
      requires fast < slow
      ensures this.fast == fast && this.slow == slow && windows == map[]
    {
      this.fast, this.slow := fast, slow;
      windows := map[];
    }

    /** The source's constructor: the spans are refused when the fast one is not shorter. */
    static method Create(fast: int, slow: int) returns (r: Option<MACross>)
      ensures r.None? <==> fast >= slow
      ensures r.Some? ==> r.value.fast == fast && r.value.slow == slow && r.value.windows == map[]
    {
      if fast >= slow {
        return None;
      }
      var m := new MACross(fast, slow);
      return Some(m);
    }

    method Push(symbol: string, price: real) returns (reply: Reply)
      requires fast < slow
      modifies this
      ensures windows == Pushed(old(windows), Cap(slow), Tick(symbol, price))
      ensures reply == Replied(WindowOf(windows, symbol), fast, slow)
    {
      hide Total, Mean, Tail, Last;
      var w := Shorten(WindowOf(windows, symbol) + [price], slow);
      windows := windows[symbol := w];
      if |w| > slow {
        return Raised;
      }
      if |w| < slow {
        return Answer(None);
      }
      if fast == 0 || w == [] {
        return Raised;
      }
      var quick, steady := Total(Tail(w, fast)) / fast as real, Mean(w);
      reply := Answer(if quick > steady then Some(Buy) else if quick < steady then Some(Sell) else None);
    }
  }
}
