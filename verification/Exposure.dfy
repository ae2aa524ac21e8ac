/**
 * The check of engine/risk.py and the ledger of engine/core/portfolio.py together:
 * trading only what the check accepts, at fixed marks, never takes the net exposure
 * of a symbol, a venue or the whole book past its cap.
 */
module Exposure {
  import opened Basics
  import opened RealFacts
  import opened Symbols
  import opened Sums
  import opened Ledger
  import opened LedgerLaws
  import opened LedgerDust
  import opened SlidingWindow
  import opened RiskRails
  import RiskLaws

  /** What each position contributes to the group that `pick` selects, at the marks. */
  ghost function GroupValues(b: Book, m: string -> real, pick: string -> bool): map<string, real> {
    map k | k in b.positions :: if pick(k) then Cost(b.positions[k].quantity, m(k)) else 0.0
  }

  ghost function Net(b: Book, m: string -> real, pick: string -> bool): real { Sum(GroupValues(b, m, pick)) }

  function ByBase(base: string): string -> bool { (k: string) => Base(k) == base }

  function ByVenue(venue: string): string -> bool { (k: string) => VenueOrDefault(k) == venue }

  function Everything(): string -> bool { (k: string) => true }

  datatype Caps = Caps(symbol: real, total: real, venue: real)

  ghost predicate WithinCaps(b: Book, m: string -> real, caps: Caps) {
    && (forall base :: Abs(Net(b, m, ByBase(base))) <= caps.symbol)
    && (forall venue :: Abs(Net(b, m, ByVenue(venue))) <= caps.venue)
    && Abs(Net(b, m, Everything())) <= caps.total
  }

  /** Positions are stored under their own upper-case, venue-qualified symbol and marked at m. */
  ghost predicate MarkedAt(b: Book, m: string -> real) {
    forall k :: k in b.positions ==>
      Upper(k) == k && HasDot(k) && b.positions[k].symbol == k && b.positions[k].lastPrice == m(k)
  }

  function ViewOf(p: Position): PositionView { PositionView(p.symbol, p.quantity, p.lastPrice) }

  /** ps lists every position of b once, in the order of `keys`. */
  ghost predicate Lists(ps: seq<PositionView>, b: Book, keys: seq<string>) {
    && |ps| == |keys|
    && (forall i, j :: 0 <= i < j < |keys| ==> keys[i] != keys[j])
    && (forall k :: k in keys <==> k in b.positions)
    && (forall i :: 0 <= i < |keys| ==> keys[i] in b.positions && ps[i] == ViewOf(b.positions[keys[i]]))
  }

  /** The check is shown the portfolio's own snapshot, the marks and the caps. */
  ghost predicate Shows(w: World, b: Book, m: string -> real, caps: Caps, keys: seq<string>) {
    && Lists(w.positions, b, keys)
    && (forall s :: w.prices(s) == m(s))
    && w.cfg.capSymbol == caps.symbol && w.cfg.capTotal == caps.total && w.cfg.capVenue == caps.venue
  }

  /** The fill of `portion` of an order at its mark, on the venue the symbol names. */
  function FillAt(o: Order, m: string -> real, portion: real, fee: real): Fill
    requires m(Qualify(o.symbol, DEFAULT_VENUE)) != 0.0
  {
    var k := Qualify(o.symbol, DEFAULT_VENUE);
    var full := if o.quote.Some? then o.quote.value / m(k) else Amount(o.quantity);
    Fill(k, o.side, portion * full, m(k), fee, DEFAULT_VENUE, "")
  }

  /** The base is upper-case; a venue in another spelling is priced like its upper-case form. */
  predicate ValidOrder(o: Order, m: string -> real) {
    var k := Qualify(o.symbol, DEFAULT_VENUE);
    Upper(Base(o.symbol)) == Base(o.symbol) && m(Upper(k)) == m(k)
  }

  lemma {:induction false} ListedSum(keys: seq<string>, ps: seq<PositionView>, g: PositionView -> real,
                                     v: map<string, real>)
    requires |keys| == |ps|
    requires forall i, j :: 0 <= i < j < |keys| ==> keys[i] != keys[j]
    requires forall k :: k in keys <==> k in v
    requires forall i :: 0 <= i < |keys| ==> keys[i] in v && g(ps[i]) == v[keys[i]]
    ensures SumSeq(ps, g) == Sum(v)
  {
    if keys == [] {
      assert v == map[];
    } else {
      var n := |keys| - 1;
      var k := keys[n];
      forall k' ensures k' in keys[..n] <==> k' in v - {k} {
        assert keys == keys[..n] + [k];
      }
      ListedSum(keys[..n], ps[..n], g, v - {k});
      SumSplit(v, k);
    }
  }

  /** The exposures the check computes are the net values of the book's groups. */
  lemma ExposuresAreNet(o: Order, w: World, b: Book, m: string -> real, caps: Caps, keys: seq<string>)
    requires MarkedAt(b, m) && Shows(w, b, m, caps, keys) && forall k: string :: m(k) > 0.0
    ensures SymbolExposure(o, w) == Net(b, m, ByBase(Base(o.symbol)))
    ensures VenueExposure(o, w) == Net(b, m, ByVenue(VenueOrDefault(o.symbol)))
    ensures TotalExposure(w) == Net(b, m, Everything())
  {
    hide Sum, SumSeq, Base, VenueOrDefault;
    var base, venue := Base(o.symbol), VenueOrDefault(o.symbol);
    forall i | 0 <= i < |keys|
      ensures OnBase(base, w)(w.positions[i]) == GroupValues(b, m, ByBase(base))[keys[i]]
      ensures OnVenue(venue, w)(w.positions[i]) == GroupValues(b, m, ByVenue(venue))[keys[i]]
      ensures Valued(w)(w.positions[i]) == GroupValues(b, m, Everything())[keys[i]]
    {
      PositionAtMark(w, b.positions[keys[i]], m);
      hide PositionValue, Upper, Cost;
    }
    hide OnBase, OnVenue, Valued, PositionValue;
    ListedSum(keys, w.positions, OnBase(base, w), GroupValues(b, m, ByBase(base)));
    ListedSum(keys, w.positions, OnVenue(venue, w), GroupValues(b, m, ByVenue(venue)));
    ListedSum(keys, w.positions, Valued(w), GroupValues(b, m, Everything()));
  }

  lemma PositionAtMark(w: World, p: Position, m: string -> real)
    requires Upper(p.symbol) == p.symbol && HasDot(p.symbol) && p.lastPrice == m(p.symbol) > 0.0
    ensures PositionValue(ViewOf(p), w) == Cost(p.quantity, m(p.symbol))
  {
  }

  /** One fill at the mark adds its signed value to the groups of its key, and to no other. */
  lemma FillMovesNet(b: Book, f: Fill, m: string -> real, pick: string -> bool)
    requires Coherent(b) && Residue(b, f) == 0.0
    ensures Net(ApplyFill(b, f), m, pick)
         == Net(b, m, pick) + if pick(Key(f)) then Cost(Signed(f), m(Key(f))) else 0.0
  {
    hide Key, Signed, Cost, Sum, NewAverage, RealizedOn, Cleanup, Coherent, Upl, IsDust;
    var k, p, was := Key(f), Before(b.positions, f), GroupValues(b, m, pick);
    var p' := After(p, f);
    var v := if pick(k) then Cost(p'.quantity, m(k)) else 0.0;
    CleanupOne(b, f);
    CostSplit(p.quantity, Signed(f), m(k));
    NoWorth(m(k));
    SumUpdate(was, k, v);
    SumSplit(was, k);
    assert At(was, k) == if pick(k) then Cost(p.quantity, m(k)) else 0.0;
    hide Before, ApplyFill;
    ValuesAfter(b, f, m, pick);
  }

  lemma ValuesAfter(b: Book, f: Fill, m: string -> real, pick: string -> bool)
    requires Coherent(b)
    ensures var k, p' := Key(f), After(Before(b.positions, f), f);
            GroupValues(ApplyFill(b, f), m, pick)
            == if IsDust(p'.quantity) then GroupValues(b, m, pick) - {k}
               else GroupValues(b, m, pick)[k := if pick(k) then Cost(p'.quantity, m(k)) else 0.0]
  {
    hide Key, Signed, Cost, Sum, RealizedOn, Cleanup, Coherent, IsDust, Before, After;
    CleanupOne(b, f);
  }

  lemma CostSplit(x: real, y: real, price: real)
    ensures Cost(x + y, price) == Cost(x, price) + Cost(y, price)
  {
  }

  lemma NoWorth(price: real)
    ensures Cost(0.0, price) == 0.0
  {
  }

  /** Moving part of the way from x to x + d stays within a bound that holds at both ends. */
  lemma PartWay(x: real, d: real, portion: real, cap: real)
    requires 0.0 <= portion <= 1.0 && Abs(x) <= cap && Abs(x + d) <= cap
    ensures Abs(x + portion * d) <= cap
  {
    NonNegative(portion, cap - (x + d));
    NonNegative(1.0 - portion, cap - x);
    NonNegative(portion, cap + (x + d));
    NonNegative(1.0 - portion, cap + x);
  }

  lemma QualifiedOrder(s: string)
    ensures var k := Qualify(s, DEFAULT_VENUE);
            HasDot(k) && Base(k) == Base(s) && VenueOrDefault(k) == VenueOrDefault(s)
  {
    if !HasDot(s) {
      BaseOfJoined(s, DEFAULT_VENUE);
      SplitJoined(s, DEFAULT_VENUE);
      assert Upper(DEFAULT_VENUE) == DEFAULT_VENUE;
    }
  }

  lemma OrderKey(o: Order, m: string -> real, portion: real, fee: real)
    requires ValidOrder(o, m) && m(Qualify(o.symbol, DEFAULT_VENUE)) != 0.0
    ensures var f := FillAt(o, m, portion, fee);
            && Upper(Key(f)) == Key(f) && HasDot(Key(f)) && f.price == m(Key(f))
            && Base(Key(f)) == Base(o.symbol) && VenueOrDefault(Key(f)) == VenueOrDefault(o.symbol)
  {
    var k := Qualify(o.symbol, DEFAULT_VENUE);
    hide Base, VenueOrDefault, Qualify;
    QualifiedOrder(o.symbol);
    UpperBase(k);
    UpperVenue(k);
    UpperIdempotent(k);
    assert Key(FillAt(o, m, portion, fee)) == Upper(k);
  }

  /** The value of the fill is the portion of the order's signed size. */
  lemma FillValue(o: Order, w: World, m: string -> real, portion: real, fee: real)
    requires m(Qualify(o.symbol, DEFAULT_VENUE)) > 0.0 && o.quote.Some? != o.quantity.Some?
    requires w.prices(Qualify(o.symbol, DEFAULT_VENUE)) == m(Qualify(o.symbol, DEFAULT_VENUE))
    ensures var f := FillAt(o, m, portion, fee);
            Cost(Signed(f), f.price) == portion * Delta(o, w)
  {
    var px := m(Qualify(o.symbol, DEFAULT_VENUE));
    assert LastPrice(o, w) == px;
    hide LastPrice, Qualify, Upper;
    if o.quote.Some? {
      var full := o.quote.value / px;
      assert full * px == o.quote.value;
      Scaled(portion, full, px);
    } else {
      Scaled(portion, o.quantity.value, px);
    }
  }

  lemma Scaled(portion: real, full: real, px: real)
    ensures portion * full * px == portion * (full * px)
    ensures (-(portion * full)) * px == portion * -(full * px)
  {
  }

  // ---- runs ----

  datatype State = State(rails: Rails, book: Book)

  /** A trade attempt, of which `portion` fills if accepted; or any other operation on the rails. */
  datatype Step =
    | Attempt(order: Order, world: World, clock: Clock, portion: real, fee: real, keys: seq<string>)
    | Other(op: RiskLaws.Op)

  ghost function Next(s: State, x: Step, m: string -> real): State
    requires forall k: string :: m(k) > 0.0
  {
    match x
    case Other(op) => State(RiskLaws.Next(s.rails, op), s.book)
    case Attempt(o, w, c, portion, fee, _) =>
      var (r, d) := CheckOrder(s.rails, o, w, c);
      State(r, if d.Accepted? then ApplyFill(s.book, FillAt(o, m, portion, fee)) else s.book)
  }

  ghost function Run(s: State, xs: seq<Step>, m: string -> real): State
    requires forall k: string :: m(k) > 0.0
  {
    if xs == [] then s else Next(Run(s, xs[..|xs| - 1], m), xs[|xs| - 1], m)
  }

  /** Of an accepted attempt: an upper-case base, a true snapshot, the fixed caps, and no dropped non-zero dust. */
  ghost predicate Fair(s: State, x: Step, m: string -> real, caps: Caps)
    requires forall k: string :: m(k) > 0.0
  {
    x.Attempt? && CheckOrder(s.rails, x.order, x.world, x.clock).1.Accepted? ==>
      && ValidOrder(x.order, m) && 0.0 <= x.portion <= 1.0
      && Shows(x.world, s.book, m, caps, x.keys)
      && Residue(s.book, FillAt(x.order, m, x.portion, x.fee)) == 0.0
  }

  ghost predicate FairRun(s: State, xs: seq<Step>, m: string -> real, caps: Caps)
    requires forall k: string :: m(k) > 0.0
  {
    xs == [] || (FairRun(s, xs[..|xs| - 1], m, caps) && Fair(Run(s, xs[..|xs| - 1], m), xs[|xs| - 1], m, caps))
  }

  ghost predicate Safe(b: Book, m: string -> real, caps: Caps) {
    Coherent(b) && MarkedAt(b, m) && WithinCaps(b, m, caps)
  }

  /** What acceptance means for the three exposures. */
  lemma AcceptedWithinCaps(r: Rails, o: Order, w: World, c: Clock)
    requires CheckOrder(r, o, w, c).1.Accepted?
    ensures Abs(SymbolExposure(o, w) + Delta(o, w)) <= w.cfg.capSymbol
    ensures Abs(TotalExposure(w) + Delta(o, w)) <= w.cfg.capTotal
    ensures Abs(VenueExposure(o, w) + Delta(o, w)) <= w.cfg.capVenue
    ensures o.quote.Some? != o.quantity.Some?
  {
    hide Gate, Refresh, Breach, Allows, AfterAllow, GrantsLock, AfterLock, MarginRule, Delta,
      SymbolExposure, TotalExposure, VenueExposure, Allowed, LastPrice;
  }

  lemma FillIsMarked(b: Book, f: Fill, m: string -> real)
    requires Coherent(b) && MarkedAt(b, m)
    requires f.price == m(Key(f)) && Upper(Key(f)) == Key(f) && HasDot(Key(f))
    ensures MarkedAt(ApplyFill(b, f), m)
  {
    hide Key, Upper, Sum, NewAverage, RealizedOn, Cleanup, IsDust;
    CleanupOne(b, f);
  }

  lemma SafeAttempt(s: State, o: Order, w: World, c: Clock, portion: real, fee: real, keys: seq<string>,
                    m: string -> real, caps: Caps)
    requires forall k: string :: m(k) > 0.0
    requires Safe(s.book, m, caps) && CheckOrder(s.rails, o, w, c).1.Accepted?
    requires Fair(s, Attempt(o, w, c, portion, fee, keys), m, caps)
    ensures Safe(ApplyFill(s.book, FillAt(o, m, portion, fee)), m, caps)
  {
    hide CheckOrder, Delta, SymbolExposure, TotalExposure, VenueExposure, Base, VenueOrDefault, Upper, Qualify,
      Net, Key, Signed, Cost, ApplyFill, Coherent, Residue, Lists, MarkedAt;
    var b, f := s.book, FillAt(o, m, portion, fee);
    OrderKey(o, m, portion, fee);
    AcceptedWithinCaps(s.rails, o, w, c);
    ExposuresAreNet(o, w, b, m, caps, keys);
    FillValue(o, w, m, portion, fee);
    FillIsMarked(b, f, m);
    CoherentStep(b, Filled(f));
    hide FillAt, Shows;
    CapsKept(b, f, m, caps, Base(o.symbol), VenueOrDefault(o.symbol), Delta(o, w), portion);
  }

  /** A fill worth `portion` of d keeps the caps that both x and x + d respect. */
  lemma CapsKept(b: Book, f: Fill, m: string -> real, caps: Caps, base0: string, venue0: string,
                 d: real, portion: real)
    requires Coherent(b) && WithinCaps(b, m, caps) && Residue(b, f) == 0.0 && 0.0 <= portion <= 1.0
    requires Base(Key(f)) == base0 && VenueOrDefault(Key(f)) == venue0
    requires Cost(Signed(f), m(Key(f))) == portion * d
    requires Abs(Net(b, m, ByBase(base0)) + d) <= caps.symbol
    requires Abs(Net(b, m, ByVenue(venue0)) + d) <= caps.venue
    requires Abs(Net(b, m, Everything()) + d) <= caps.total
    ensures WithinCaps(ApplyFill(b, f), m, caps)
  {
    hide Base, VenueOrDefault, Upper, Net, Key, Signed, Cost, ApplyFill, Coherent, Residue;
    var b' := ApplyFill(b, f);
    forall base ensures Abs(Net(b', m, ByBase(base))) <= caps.symbol {
      FillMovesNet(b, f, m, ByBase(base));
      if base == base0 {
        PartWay(Net(b, m, ByBase(base)), d, portion, caps.symbol);
      }
    }
    forall venue ensures Abs(Net(b', m, ByVenue(venue))) <= caps.venue {
      FillMovesNet(b, f, m, ByVenue(venue));
      if venue == venue0 {
        PartWay(Net(b, m, ByVenue(venue)), d, portion, caps.venue);
      }
    }
    FillMovesNet(b, f, m, Everything());
    PartWay(Net(b, m, Everything()), d, portion, caps.total);
  }

  /**
   * Exposure safety: from a safe book, every reachable book is safe, whatever is
   * attempted, refused, partly filled or done to the rails in between.
   */
  lemma {:induction false} SafeRun(s: State, xs: seq<Step>, m: string -> real, caps: Caps)
    requires forall k: string :: m(k) > 0.0
    requires Safe(s.book, m, caps) && FairRun(s, xs, m, caps)
    ensures Safe(Run(s, xs, m).book, m, caps)
  {
    if xs != [] {
      var init, x := xs[..|xs| - 1], xs[|xs| - 1];
      hide Safe, Fair, CheckOrder, ApplyFill, RiskLaws.Next;
      SafeRun(s, init, m, caps);
      var mid := Run(s, init, m);
      if x.Attempt? && CheckOrder(mid.rails, x.order, x.world, x.clock).1.Accepted? {
        SafeAttempt(mid, x.order, x.world, x.clock, x.portion, x.fee, x.keys, m, caps);
      }
    }
  }

  /** A flat book is safe when the caps are not negative. */
  lemma FlatIsSafe(starting: map<string, real>, m: string -> real, caps: Caps)
    requires caps.symbol >= 0.0 && caps.total >= 0.0 && caps.venue >= 0.0
    ensures Safe(Opening(starting), m, caps)
  {
    OpeningCoherent(starting);
    hide Coherent;
    var b := Opening(starting);
    forall pick ensures Net(b, m, pick) == 0.0 {
      assert GroupValues(b, m, pick) == map[];
    }
  }

  // ---- symbols that are not upper-case ----

  lemma {:induction false} AllZero(ps: seq<PositionView>, g: PositionView -> real)
    requires forall i :: 0 <= i < |ps| ==> g(ps[i]) == 0.0
    ensures SumSeq(ps, g) == 0.0
  {
    if ps != [] {
      AllZero(ps[..|ps| - 1], g);
    }
  }

  /** An order whose base is not upper-case is checked as if nothing were held in its symbol. */
  lemma LowerCaseSeesNothing(o: Order, w: World)
    requires Upper(Base(o.symbol)) != Base(o.symbol)
    ensures SymbolExposure(o, w) == 0.0
  {
    forall i | 0 <= i < |w.positions|
      ensures OnBase(Base(o.symbol), w)(w.positions[i]) == 0.0
    {
      var s := w.positions[i].symbol;
      UpperBase(Upper(s));
      UpperIdempotent(s);
      hide PositionValue, Upper, Base;
    }
    AllZero(w.positions, OnBase(Base(o.symbol), w));
  }

  /**
   * What the check sees of a symbol is what the book holds in it exactly when the order
   * spells the base in upper case or the book is flat in it.
   */
  lemma SymbolSeenIff(o: Order, w: World, b: Book, m: string -> real, caps: Caps, keys: seq<string>)
    requires MarkedAt(b, m) && Shows(w, b, m, caps, keys) && forall k: string :: m(k) > 0.0
    ensures SymbolExposure(o, w) == Net(b, m, ByBase(Upper(Base(o.symbol))))
      <==> Upper(Base(o.symbol)) == Base(o.symbol) || Net(b, m, ByBase(Upper(Base(o.symbol)))) == 0.0
  {
    hide SymbolExposure, VenueExposure, TotalExposure, Net, Upper, Base, VenueOrDefault, Shows, MarkedAt;
    if Upper(Base(o.symbol)) == Base(o.symbol) {
      ExposuresAreNet(o, w, b, m, caps, keys);
    } else {
      LowerCaseSeesNothing(o, w);
    }
  }

  const PAR_CAPS := Caps(100.0, 1000.0, 1000.0)

  function LowerOrder(): Order { Order("x", "BUY", Some(100.0), None, "", "", false) }

  function LowerFill(): Fill { Fill("x.BINANCE", "BUY", 100.0, 1.0, 0.0, "BINANCE", "") }

  /** The rails ignore what the book holds under "X" and accept another 100 of "x". */
  lemma LowerOrderAccepted(r: Rails, b: Book, keys: seq<string>, ps: seq<PositionView>, c: Clock)
    requires RiskLaws.Idle(r) && r.pending == map[] && r.cfg == RiskLaws.ParConfig()
    requires MarkedAt(b, RiskLaws.AtPar()) && Shows(RiskLaws.ParWorld(ps), b, RiskLaws.AtPar(), PAR_CAPS, keys)
    requires Abs(Net(b, RiskLaws.AtPar(), Everything())) <= 100.0
    requires Abs(Net(b, RiskLaws.AtPar(), ByVenue("BINANCE"))) <= 100.0
    ensures CheckOrder(r, LowerOrder(), RiskLaws.ParWorld(ps), c)
      == (r.(limiter := AfterAllow(r.limiter, c.rate)), Accepted)
    ensures |AfterAllow(r.limiter, c.rate).events| <= |r.limiter.events| + 1
    ensures AfterAllow(r.limiter, c.rate).maxPerMin == r.limiter.maxPerMin
  {
    hide Net, SymbolExposure, VenueExposure, TotalExposure, Upper, Base, VenueOrDefault, CheckOrder, Shows, MarkedAt,
      Delta, AfterAllow, Rules;
    var o, w := LowerOrder(), RiskLaws.ParWorld(ps);
    LowerSpelling();
    LowerDelta(w);
    ExposuresAreNet(o, w, b, RiskLaws.AtPar(), PAR_CAPS, keys);
    LowerCaseSeesNothing(o, w);
    RiskLaws.PlainQuotePasses(o, w, r.cfg);
    RiskLaws.IdleAccepts(r, o, w, c);
  }

  lemma LowerSpelling()
    ensures Base("x") == "x" && Upper("x") == "X" && VenueOrDefault("x") == "BINANCE"
  {
    DotFreeBase("x");
    hide Base;
  }

  lemma LowerDelta(w: World)
    ensures Delta(LowerOrder(), w) == 100.0
  {
    hide LastPrice;
    LowerSide();
  }

  lemma LowerFillIs()
    ensures FillAt(LowerOrder(), RiskLaws.AtPar(), 1.0, 0.0) == LowerFill()
    ensures Key(LowerFill()) == "X.BINANCE" && Signed(LowerFill()) == 100.0
    ensures Base("X.BINANCE") == "X" && VenueOrDefault("X.BINANCE") == "BINANCE"
    ensures Upper("X.BINANCE") == "X.BINANCE" && HasDot("X.BINANCE")
  {
    hide Upper, Base, VenueOrDefault, Qualify, HasDot;
    LowerNames();
    LowerSide();
    LowerQualified();
    UpperIdempotent("x.BINANCE");
    assert RiskLaws.AtPar()("x.BINANCE") == 1.0;
  }

  lemma LowerSide()
    ensures Upper("BUY") == "BUY"
  {
  }

  lemma LowerQualified()
    ensures Qualify("x", DEFAULT_VENUE) == "x.BINANCE"
  {
    assert "x" + "." + DEFAULT_VENUE == "x.BINANCE";
  }

  lemma LowerNames()
    ensures Upper("x.BINANCE") == "X.BINANCE" && HasDot("X.BINANCE")
    ensures Base("X.BINANCE") == "X" && VenueOrDefault("X.BINANCE") == "BINANCE"
  {
    SplitJoined("X", "BINANCE");
    assert "X" + "." + "BINANCE" == "X.BINANCE";
    assert Upper("BINANCE") == "BINANCE";
    hide Base, AfterDot;
  }

  /** After n fills of 100 the book holds 100 * n of "X", marked at par, and nothing else. */
  ghost predicate HoldsLots(b: Book, n: real) {
    && Coherent(b) && MarkedAt(b, RiskLaws.AtPar())
    && Net(b, RiskLaws.AtPar(), ByBase("X")) == 100.0 * n
    && Net(b, RiskLaws.AtPar(), ByVenue("BINANCE")) == 100.0 * n
    && Net(b, RiskLaws.AtPar(), Everything()) == 100.0 * n
    && (forall k :: k in b.positions <==> k == "X.BINANCE" && n > 0.0)
    && Held(b, "X.BINANCE") == 100.0 * n
  }

  lemma LotAdded(b: Book, n: real)
    requires HoldsLots(b, n) && n >= 0.0
    ensures HoldsLots(ApplyFill(b, LowerFill()), n + 1.0)
  {
    hide Key, Signed, Net, Coherent, Upper, Base, VenueOrDefault, NewAverage, RealizedOn, Sum, Cleanup, Upl, MarkedAt;
    var f := LowerFill();
    LowerFillIs();
    assert Before(b.positions, f).quantity == Held(b, "X.BINANCE");
    DustIsAbsolute(100.0 * n + 100.0);
    assert Residue(b, f) == 0.0;
    SymbolFill(b, f, "X.BINANCE");
    CoherentStep(b, Filled(f));
    CleanupOne(b, f);
    assert Cost(100.0, 1.0) == 100.0;
    FillMovesNet(b, f, RiskLaws.AtPar(), ByBase("X"));
    FillMovesNet(b, f, RiskLaws.AtPar(), ByVenue("BINANCE"));
    FillMovesNet(b, f, RiskLaws.AtPar(), Everything());
    FillIsMarked(b, f, RiskLaws.AtPar());
  }

  lemma FlatHoldsNothing()
    ensures HoldsLots(Opening(map[]), 0.0)
  {
    var b := Opening(map[]);
    OpeningCoherent(map[]);
    hide Coherent;
    forall pick ensures Net(b, RiskLaws.AtPar(), pick) == 0.0 {
      assert GroupValues(b, RiskLaws.AtPar(), pick) == map[];
    }
  }

  /**
   * From a flat book two lower-case orders, each of the size of the symbol's cap and each
   * checked against a true snapshot, are both accepted and filled: the symbol ends at
   * twice its cap.
   */
  lemma LowerCaseBreaksCap(c: Clock)
    ensures
      var r0, b0, o := NewRails(RiskLaws.ParConfig(), 10, 0.0), Opening(map[]), LowerOrder();
      var w0 := RiskLaws.ParWorld([]);
      var s1 := Next(State(r0, b0), Attempt(o, w0, c, 1.0, 0.0, []), RiskLaws.AtPar());
      && "X.BINANCE" in s1.book.positions
      && var w1 := RiskLaws.ParWorld([ViewOf(s1.book.positions["X.BINANCE"])]);
         var s2 := Next(s1, Attempt(o, w1, c, 1.0, 0.0, ["X.BINANCE"]), RiskLaws.AtPar());
         && Shows(w0, b0, RiskLaws.AtPar(), PAR_CAPS, []) && CheckOrder(r0, o, w0, c).1.Accepted?
         && Shows(w1, s1.book, RiskLaws.AtPar(), PAR_CAPS, ["X.BINANCE"]) && CheckOrder(s1.rails, o, w1, c).1.Accepted?
         && Net(s2.book, RiskLaws.AtPar(), ByBase("X")) == 200.0 > PAR_CAPS.symbol
  {
    hide CheckOrder, ApplyFill, HoldsLots, Net, Key, Upper, Base, VenueOrDefault, AfterAllow;
    var r0, b0, o, w0 := NewRails(RiskLaws.ParConfig(), 10, 0.0), Opening(map[]), LowerOrder(), RiskLaws.ParWorld([]);
    FlatHoldsNothing();
    LowerFillIs();
    assert Shows(w0, b0, RiskLaws.AtPar(), PAR_CAPS, []);
    LotsShown(b0, 0.0);
    LowerOrderAccepted(r0, b0, [], [], c);
    var b1, r1 := ApplyFill(b0, LowerFill()), r0.(limiter := AfterAllow(r0.limiter, c.rate));
    LotAdded(b0, 0.0);
    LotsShown(b1, 1.0);
    var w1 := RiskLaws.ParWorld([ViewOf(b1.positions["X.BINANCE"])]);
    assert Shows(w1, b1, RiskLaws.AtPar(), PAR_CAPS, ["X.BINANCE"]);
    LowerOrderAccepted(r1, b1, ["X.BINANCE"], w1.positions, c);
    LotAdded(b1, 1.0);
    LotsShown(ApplyFill(b1, LowerFill()), 2.0);
  }

  lemma LotsShown(b: Book, n: real)
    requires HoldsLots(b, n)
    ensures MarkedAt(b, RiskLaws.AtPar()) && forall k :: k in b.positions <==> k == "X.BINANCE" && n > 0.0
    ensures Net(b, RiskLaws.AtPar(), ByBase("X")) == 100.0 * n
    ensures Net(b, RiskLaws.AtPar(), ByVenue("BINANCE")) == 100.0 * n
    ensures Net(b, RiskLaws.AtPar(), Everything()) == 100.0 * n
  {
    hide Net, MarkedAt, Coherent;
  }
}
