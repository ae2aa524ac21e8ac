/**
 * What each answer of the pre-trade gate says about the order and the world, in terms of
 * the request, the prices, the snapshot and the limits themselves.
 */
module RiskMeaning {
  import opened Basics
  import opened RealFacts
  import opened Symbols
  import opened Sums
  import opened Sequences
  import opened SlidingWindow
  import opened RiskRails

  /** The order in which a check gives its reasons. */
  function Rank(code: Code): nat {
    match code
    case CircuitBreaker => 0
    case StrategyBankrupt => 1
    case VenueBreakerOpen => 2
    case EquityBreakerOpen => 3
    case PendingOrder => 4
    case TradingDisabled => 5
    case SymbolNotAllowed => 6
    case SymbolQuarantined => 7
    case OrderShapeInvalid => 8
    case NotionalTooSmall => 9
    case NotionalTooLarge => 10
    case NotionalDust => 11
    case MarginDisabled => 12
    case OptionsDisabled => 13
    case PriceUnavailable => 14
    case ExposureSymbolCap => 15
    case ExposureTotalCap => 16
    case ExposureVenueCap => 17
    case MarginLevelLow => 18
    case MarginLiabilityLimit => 19
    case MarginLeverageLimit => 20
    case EquityFloor => 21
    case EquityDrawdown => 22
    case OrderRateExceeded => 23
    case SymbolLocked => 24
  }

  // ---- the order's value ----

  function OnBinance(s: string): string { if '.' in s then s else s + ".BINANCE" }

  function UsdPair(base: string): string {
    if |base| >= 3 && base[|base| - 3..] == "USD" then base else base + "USD"
  }

  /** The qualified symbol's price or, where that is zero, the price of its base against USD. */
  function PriceSeen(o: Order, w: World): real {
    if w.prices(OnBinance(o.symbol)) != 0.0 then w.prices(OnBinance(o.symbol)) else w.prices(UsdPair(Base(o.symbol)))
  }

  function QuoteOf(o: Order): real { match o.quote case Some(x) => x case None => 0.0 }

  function UnitsOf(o: Order): real { match o.quantity case Some(x) => x case None => 0.0 }

  function Units(o: Order, w: World): real { UnitsOf(o) * PriceSeen(o, w) }

  /** What the order adds to an exposure: its quote, else its units at the price seen; sales count negative. */
  function Size(o: Order, w: World): real {
    var size := if QuoteOf(o) != 0.0 then QuoteOf(o) else Units(o, w);
    if Upper(o.side) == "BUY" then size else -size
  }

  /** A named position at its own mark or, when it has none, at the price looked up for it. */
  function Worth(p: PositionView, w: World): real {
    if p.symbol == "" then 0.0
    else if p.lastPrice != 0.0 then p.quantity * p.lastPrice
    else p.quantity * w.prices(OnBinance(Upper(p.symbol)))
  }

  function VenueNamed(s: string): string { if '.' in s then Upper(Venue(s)) else "BINANCE" }

  function All(w: World): PositionView -> real { (p: PositionView) => Worth(p, w) }

  function SameBase(o: Order, w: World): PositionView -> real {
    (p: PositionView) => if Upper(Base(p.symbol)) == Base(o.symbol) then Worth(p, w) else 0.0
  }

  function SameVenue(o: Order, w: World): PositionView -> real {
    (p: PositionView) => if VenueNamed(p.symbol) == VenueNamed(o.symbol) then Worth(p, w) else 0.0
  }

  ghost function InSymbol(o: Order, w: World): real { SumSeq(w.positions, SameBase(o, w)) }

  ghost function InBook(w: World): real { SumSeq(w.positions, All(w)) }

  ghost function InVenue(o: Order, w: World): real { SumSeq(w.positions, SameVenue(o, w)) }

  predicate Outside(x: real, cap: real) { x > cap || x < -cap }

  // ---- margin and drawdown ----

  function MarketOf(o: Order, w: World): string { if o.market == "" then w.resolvedMarket else Lower(o.market) }

  predicate OnMargin(o: Order, w: World) { MarketOf(o, w) == "margin" && w.cfg.marginEnabled }

  function LiabilityOf(w: World): real { match w.marginLiability case Some(x) => Max(x, 0.0) case None => 0.0 }

  /** What the order would add to the symbol's exposure, either way; an order that reduces it adds nothing. */
  function Growth(held: real, size: real): real { Max(Abs(held + size) - Abs(held), 0.0) }

  /** The liability with the order is more than the leverage limit allows on the equity. */
  predicate OverLeveraged(w: World, held: real, size: real) {
    && w.portfolioEquity.Some? && w.portfolioEquity.value > 0.0 && w.cfg.marginMaxLeverage > 0.0
    && LiabilityOf(w) + Growth(held, size) > w.cfg.marginMaxLeverage * Max(w.portfolioEquity.value, 0.000000001)
  }

  /** The equity is short of the highest one by the limit, in percent; a limit of zero or less always is reached. */
  predicate DrawnDown(peak: real, equity: real, limit: real) {
    limit <= 0.0 || (peak > 0.0 && 100.0 * (peak - equity) >= limit * peak)
  }

  function Highest(r: Rails, equity: real): real {
    if r.equityPeak > 0.0 then Max(r.equityPeak, equity) else equity
  }

  predicate HeldByOther(r: Rails, o: Order, now: real) {
    var key := Upper(Base(o.symbol));
    && r.lockTtl > 0.0 && key in r.locks && now < r.locks[key].expiresAt
    && (o.strategyId == "" || r.locks[key].strategyId != o.strategyId)
  }

  /** What stands against the order, reason by reason. */
  ghost predicate Cause(code: Code, r: Rails, o: Order, w: World, c: Clock) {
    match code
    case CircuitBreaker => r.external
    case StrategyBankrupt => w.bankrupt
    case VenueBreakerOpen => r.tripped
    case EquityBreakerOpen => r.equityActive && c.breaker < r.equityUntil
    case PendingOrder => o.symbol in r.pending
    case TradingDisabled => r.manualDisabled || w.flagDisabled || (!w.cfg.tradingEnabled && !o.dryRun)
    case SymbolNotAllowed =>
      w.cfg.tradeSymbols != [] && forall s :: s in w.cfg.tradeSymbols ==> Upper(Base(s)) != Upper(Base(o.symbol))
    case SymbolQuarantined => w.quarantined
    case OrderShapeInvalid => (o.quote.Some? && o.quantity.Some?) || (o.quote.None? && o.quantity.None?)
    case NotionalTooSmall => o.quote.Some? && o.quote.value < w.cfg.minNotional
    case NotionalTooLarge => o.quote.Some? && o.quote.value > w.cfg.maxNotional
    case NotionalDust => o.quote.Some? && o.quote.value < w.cfg.dustThreshold
    case MarginDisabled => MarketOf(o, w) == "margin" && !r.cfg.marginEnabled
    case OptionsDisabled => MarketOf(o, w) == "options" && !r.cfg.optionsEnabled
    case PriceUnavailable => QuoteOf(o) <= 0.0 && UnitsOf(o) > 0.0 && PriceSeen(o, w) <= 0.0
    case ExposureSymbolCap => Outside(InSymbol(o, w) + Size(o, w), w.cfg.capSymbol)
    case ExposureTotalCap => Outside(InBook(w) + Size(o, w), w.cfg.capTotal)
    case ExposureVenueCap => Outside(InVenue(o, w) + Size(o, w), w.cfg.capVenue)
    case MarginLevelLow =>
      OnMargin(o, w) && w.marginLevel.Some? && 0.0 < w.marginLevel.value < w.cfg.marginMinLevel
    case MarginLiabilityLimit =>
      OnMargin(o, w) && w.marginLiability.Some? && 0.0 < w.cfg.marginMaxLiability < w.marginLiability.value
    case MarginLeverageLimit => OnMargin(o, w) && OverLeveraged(w, InSymbol(o, w), Size(o, w))
    case EquityFloor => w.equity.Some? && w.equity.value < r.cfg.equityFloor
    case EquityDrawdown =>
      w.equity.Some? && DrawnDown(Highest(r, w.equity.value), w.equity.value, r.cfg.drawdownLimitPct)
    case OrderRateExceeded => !o.dryRun && !Allows(r.limiter, c.rate)
    case SymbolLocked => HeldByOther(r, o, c.lock)
  }

  /** No cause ranked from lo up to, and without, hi. */
  ghost predicate Clear(lo: nat, hi: nat, r: Rails, o: Order, w: World, c: Clock) {
    forall code :: lo <= Rank(code) < hi ==> !Cause(code, r, o, w, c)
  }

  /** The reason found among the causes ranked from lo to hi is the first of them; none is found when there is none. */
  ghost predicate FirstOf(found: Option<Code>, lo: nat, hi: nat, r: Rails, o: Order, w: World, c: Clock) {
    match found
    case None => Clear(lo, hi, r, o, w, c)
    case Some(code) => lo <= Rank(code) < hi && Cause(code, r, o, w, c) && Clear(lo, Rank(code), r, o, w, c)
  }

  // ---- the two readings agree ----

  lemma SamePrice(o: Order, w: World)
    ensures LastPrice(o, w) == PriceSeen(o, w)
    ensures Delta(o, w) == Size(o, w)
  {
    hide Base, Upper;
    SamePair(Base(o.symbol));
    SameLookup(o.symbol);
  }

  lemma SameLookup(s: string)
    ensures Qualify(s, DEFAULT_VENUE) == OnBinance(s)
  {
    assert "." + DEFAULT_VENUE == ".BINANCE";
    assert s + "." + DEFAULT_VENUE == s + ("." + DEFAULT_VENUE);
  }

  lemma SamePair(base: string)
    ensures UsdPair(base) == if EndsWith(base, "USD") then base else base + "USD"
  {
  }

  lemma SameWorth(p: PositionView, w: World)
    ensures PositionValue(p, w) == Worth(p, w)
  {
    SameLookup(Upper(p.symbol));
    assert Upper(p.symbol) == "" <==> p.symbol == "";
  }

  lemma SameExposures(o: Order, w: World)
    ensures SymbolExposure(o, w) == InSymbol(o, w)
    ensures TotalExposure(w) == InBook(w)
    ensures VenueExposure(o, w) == InVenue(o, w)
  {
    hide SumSeq, PositionValue, Worth;
    forall p: PositionView
      ensures Valued(w)(p) == All(w)(p)
      ensures OnBase(Base(o.symbol), w)(p) == SameBase(o, w)(p)
      ensures OnVenue(VenueOrDefault(o.symbol), w)(p) == SameVenue(o, w)(p)
    {
      SameWorth(p, w);
      UpperBase(p.symbol);
      UpperVenue(p.symbol);
      hide Upper, Base, AfterDot;
    }
    hide Upper, Base, AfterDot, Valued, All, OnBase, SameBase, OnVenue, SameVenue, VenueOrDefault;
    SumSeqSame(w.positions, Valued(w), All(w));
    SumSeqSame(w.positions, OnBase(Base(o.symbol), w), SameBase(o, w));
    SumSeqSame(w.positions, OnVenue(VenueOrDefault(o.symbol), w), SameVenue(o, w));
  }

  lemma SameLeverage(n: real, floor: real, leverage: real)
    requires floor > 0.0
    ensures n / floor > leverage <==> n > leverage * floor
  {
    assert n / floor * floor == n;
    if n / floor > leverage {
      StrictlyBelow(leverage, n / floor, floor);
    } else if n / floor < leverage {
      StrictlyBelow(n / floor, leverage, floor);
    }
  }

  lemma SameDrawdown(peak: real, equity: real, limit: real)
    ensures DrawdownPct(peak, equity) >= limit <==> DrawnDown(peak, equity, limit)
  {
    if peak > 0.0 {
      var q := (peak - equity) / peak;
      assert q * peak == peak - equity;
      if q * 100.0 < limit {
        StrictlyBelow(q * 100.0, limit, peak);
      } else if q * 100.0 > limit {
        StrictlyBelow(limit, q * 100.0, peak);
      }
      assert q * 100.0 * peak == 100.0 * (peak - equity);
    }
  }

  // ---- stage by stage ----

  lemma Chain(first: Option<Code>, next: Option<Code>, lo: nat, mid: nat, hi: nat,
              r: Rails, o: Order, w: World, c: Clock)
    requires lo <= mid <= hi && FirstOf(first, lo, mid, r, o, w, c)
    requires first.None? ==> FirstOf(next, mid, hi, r, o, w, c)
    ensures FirstOf(if first.Some? then first else next, lo, hi, r, o, w, c)
  {
    hide Cause, Rank;
  }

  lemma GateMeans(r: Rails, o: Order, w: World, c: Clock)
    ensures var gate := Gate(r, o, w, c.breaker);
      if gate.Some? then FirstOf(gate, 0, 6, r, o, w, c)
      else Clear(0, 5, r, o, w, c) && !r.manualDisabled && !w.flagDisabled
  {
    hide HeldByOther, OnMargin, OverLeveraged, PriceSeen, Size, InSymbol, InBook, InVenue, MarketOf, Outside, Base,
      Upper;
  }

  function Permission(o: Order, w: World): Option<Code> {
    if !w.cfg.tradingEnabled && !o.dryRun then Some(TradingDisabled)
    else if !Allowed(w.cfg, o.symbol) then Some(SymbolNotAllowed)
    else if w.quarantined then Some(SymbolQuarantined) else None
  }

  lemma PermissionMeans(r: Rails, o: Order, w: World, c: Clock)
    requires !r.manualDisabled && !w.flagDisabled
    ensures FirstOf(Permission(o, w), 5, 8, r, o, w, c)
  {
    hide HeldByOther, OnMargin, OverLeveraged, PriceSeen, Size, InSymbol, InBook, InVenue, Outside, Base, Upper,
      MarketOf, DrawnDown;
  }

  lemma ShapeCauses(r: Rails, o: Order, w: World, c: Clock)
    ensures Cause(OrderShapeInvalid, r, o, w, c) <==> o.quote.Some? == o.quantity.Some?
    ensures Cause(NotionalTooSmall, r, o, w, c) <==> o.quote.Some? && o.quote.value < w.cfg.minNotional
    ensures Cause(NotionalTooLarge, r, o, w, c) <==> o.quote.Some? && o.quote.value > w.cfg.maxNotional
    ensures Cause(NotionalDust, r, o, w, c) <==> o.quote.Some? && o.quote.value < w.cfg.dustThreshold
  {
  }

  lemma ShapeMeans(r: Rails, o: Order, w: World, c: Clock)
    ensures FirstOf(ShapeRule(o, w.cfg), 8, 12, r, o, w, c)
  {
    hide Cause;
    ShapeCauses(r, o, w, c);
  }

  function Supported(o: Order, w: World, base: Config): Option<Code> {
    if Market(o, w) == "margin" && !base.marginEnabled then Some(MarginDisabled)
    else if Market(o, w) == "options" && !base.optionsEnabled then Some(OptionsDisabled)
    else if Amount(o.quote) <= 0.0 && Amount(o.quantity) > 0.0 && LastPrice(o, w) <= 0.0 then Some(PriceUnavailable)
    else None
  }

  lemma SupportedCauses(r: Rails, o: Order, w: World, c: Clock)
    ensures Cause(MarginDisabled, r, o, w, c) <==> Market(o, w) == "margin" && !r.cfg.marginEnabled
    ensures Cause(OptionsDisabled, r, o, w, c) <==> Market(o, w) == "options" && !r.cfg.optionsEnabled
    ensures Cause(PriceUnavailable, r, o, w, c)
      <==> Amount(o.quote) <= 0.0 && Amount(o.quantity) > 0.0 && LastPrice(o, w) <= 0.0
  {
    hide LastPrice, PriceSeen, Lower;
    SamePrice(o, w);
  }

  lemma SupportedMeans(r: Rails, o: Order, w: World, c: Clock)
    ensures FirstOf(Supported(o, w, r.cfg), 12, 15, r, o, w, c)
  {
    hide Cause, LastPrice, Market, Amount;
    SupportedCauses(r, o, w, c);
  }

  lemma TradeMeans(r: Rails, o: Order, w: World, c: Clock)
    requires !r.manualDisabled && !w.flagDisabled
    ensures FirstOf(TradeRule(o, w, r.cfg), 5, 15, r, o, w, c)
  {
    hide Cause, Rank, ShapeRule, Allowed, Market, Amount, LastPrice, FirstOf;
    PermissionMeans(r, o, w, c);
    ShapeMeans(r, o, w, c);
    SupportedMeans(r, o, w, c);
    var permission, shape := Permission(o, w), ShapeRule(o, w.cfg);
    Chain(permission, shape, 5, 8, 12, r, o, w, c);
    Chain(if permission.Some? then permission else shape, Supported(o, w, r.cfg), 5, 12, 15, r, o, w, c);
  }

  lemma CapCauses(r: Rails, o: Order, w: World, c: Clock)
    ensures Cause(ExposureSymbolCap, r, o, w, c) <==> Abs(InSymbol(o, w) + Size(o, w)) > w.cfg.capSymbol
    ensures Cause(ExposureTotalCap, r, o, w, c) <==> Abs(InBook(w) + Size(o, w)) > w.cfg.capTotal
    ensures Cause(ExposureVenueCap, r, o, w, c) <==> Abs(InVenue(o, w) + Size(o, w)) > w.cfg.capVenue
  {
    hide InSymbol, InBook, InVenue, Size;
  }

  lemma CapMeans(r: Rails, o: Order, w: World, c: Clock)
    ensures FirstOf(CapRule(SymbolExposure(o, w), TotalExposure(w), VenueExposure(o, w), Delta(o, w), w.cfg),
                    15, 18, r, o, w, c)
  {
    hide Cause, Size, Delta, InSymbol, InBook, InVenue, SymbolExposure, TotalExposure, VenueExposure;
    SamePrice(o, w);
    SameExposures(o, w);
    CapCauses(r, o, w, c);
  }

  lemma MarginReasons(o: Order, w: World, held: real)
    ensures MarginRule(o, w, held) ==
      if !OnMargin(o, w) then None
      else if w.marginLevel.Some? && 0.0 < w.marginLevel.value < w.cfg.marginMinLevel then Some(MarginLevelLow)
      else if w.marginLiability.Some? && 0.0 < w.cfg.marginMaxLiability < w.marginLiability.value
      then Some(MarginLiabilityLimit)
      else if OverLeveraged(w, held, Size(o, w)) then Some(MarginLeverageLimit) else None
  {
    hide LastPrice, PriceSeen, Size, Delta, Lower;
    SamePrice(o, w);
    if w.portfolioEquity.Some? {
      SameLeverage(LiabilityOf(w) + Growth(held, Size(o, w)),
                   Max(w.portfolioEquity.value, 0.000000001), w.cfg.marginMaxLeverage);
    }
  }

  lemma MarginCauses(r: Rails, o: Order, w: World, c: Clock)
    ensures Cause(MarginLevelLow, r, o, w, c)
      <==> OnMargin(o, w) && w.marginLevel.Some? && 0.0 < w.marginLevel.value < w.cfg.marginMinLevel
    ensures Cause(MarginLiabilityLimit, r, o, w, c)
      <==> OnMargin(o, w) && w.marginLiability.Some? && 0.0 < w.cfg.marginMaxLiability < w.marginLiability.value
    ensures Cause(MarginLeverageLimit, r, o, w, c) <==> OnMargin(o, w) && OverLeveraged(w, InSymbol(o, w), Size(o, w))
  {
  }

  lemma MarginMeans(r: Rails, o: Order, w: World, c: Clock)
    ensures FirstOf(MarginRule(o, w, SymbolExposure(o, w)), 18, 21, r, o, w, c)
  {
    hide Cause, Size, InSymbol, SymbolExposure, TotalExposure, VenueExposure, InBook, InVenue, MarginRule, OnMargin,
      OverLeveraged;
    SameExposures(o, w);
    MarginReasons(o, w, InSymbol(o, w));
    MarginCauses(r, o, w, c);
  }

  lemma BreachMeans(r: Rails, gated: Rails, o: Order, w: World, c: Clock)
    requires gated.cfg == r.cfg && gated.equityPeak == r.equityPeak
    ensures FirstOf(Breach(gated, w.equity), 21, 23, r, o, w, c)
  {
    hide HeldByOther, OnMargin, OverLeveraged, PriceSeen, Size, InSymbol, InBook, InVenue, Base, Upper, MarketOf,
      Outside, DrawdownPct, DrawnDown;
    if w.equity.Some? {
      SameDrawdown(Highest(r, w.equity.value), w.equity.value, r.cfg.drawdownLimitPct);
    }
  }

  lemma LastMeans(r: Rails, o: Order, w: World, c: Clock)
    ensures FirstOf(if !o.dryRun && !Allows(r.limiter, c.rate) then Some(OrderRateExceeded) else None,
                    23, 24, r, o, w, c)
    ensures FirstOf(if GrantsLock(r, LockKey(o.symbol), o.strategyId, c.lock) then None else Some(SymbolLocked),
                    24, 25, r, o, w, c)
  {
    hide OnMargin, OverLeveraged, PriceSeen, Size, InSymbol, InBook, InVenue, Base, Upper, MarketOf, Outside,
      DrawnDown, Allows;
  }

  /** The reason a decision names; none when it accepts. */
  function Reason(d: Decision): Option<Code> {
    match d case Accepted => None case Rejected(code) => Some(code)
  }

  /** The rules, the breach, the limiter and the lock, when the gate let the order through. */
  lemma RulesMean(r: Rails, o: Order, w: World, c: Clock)
    requires Gate(r, o, w, c.breaker).None?
    ensures FirstOf(Rules(o, w, r.cfg), 0, 21, r, o, w, c)
  {
    hide Cause, Rank, FirstOf, Gate, TradeRule, CapRule, MarginRule, SymbolExposure, TotalExposure,
      VenueExposure, Delta;
    GateMeans(r, o, w, c);
    NoneFound(0, 5, r, o, w, c);
    TradeMeans(r, o, w, c);
    CapMeans(r, o, w, c);
    MarginMeans(r, o, w, c);
    var trade := TradeRule(o, w, r.cfg);
    var cap := CapRule(SymbolExposure(o, w), TotalExposure(w), VenueExposure(o, w), Delta(o, w), w.cfg);
    Chain(None, trade, 0, 5, 15, r, o, w, c);
    Chain(trade, cap, 0, 15, 18, r, o, w, c);
    Chain(if trade.Some? then trade else cap, MarginRule(o, w, SymbolExposure(o, w)), 0, 18, 21, r, o, w, c);
  }

  lemma NoneFound(lo: nat, hi: nat, r: Rails, o: Order, w: World, c: Clock)
    ensures FirstOf(None, lo, hi, r, o, w, c) <==> Clear(lo, hi, r, o, w, c)
  {
  }

  /** What the last three stages look at is as it was before the check. */
  lemma StagesSeeTheStart(r: Rails, o: Order, w: World, c: Clock)
    ensures var gated := AfterGate(r, o, w, c.breaker);
      var seen := Refresh(gated, w.equity, c.refresh);
      && gated.cfg == r.cfg && gated.equityPeak == r.equityPeak
      && seen.limiter == r.limiter && seen.locks == r.locks && seen.lockTtl == r.lockTtl
  {
    hide Refresh;
    RefreshKeeps(AfterGate(r, o, w, c.breaker), w.equity, c.refresh);
  }

  lemma RefreshKeeps(r: Rails, equity: Option<real>, now: real)
    ensures var seen := Refresh(r, equity, now);
      seen == r.(equityPeak := seen.equityPeak, equityActive := seen.equityActive,
                 equityUntil := seen.equityUntil, lastEquity := seen.lastEquity)
  {
    hide Breach, Peak;
  }

  /** The decision is the first reason found by the stages, one after the other. */
  lemma DecisionStages(r: Rails, o: Order, w: World, c: Clock)
    ensures var gate, rule := Gate(r, o, w, c.breaker), Rules(o, w, r.cfg);
      var breach := Breach(AfterGate(r, o, w, c.breaker), w.equity);
      Reason(CheckOrder(r, o, w, c).1) ==
        if gate.Some? then gate
        else if rule.Some? then rule
        else if breach.Some? then breach
        else if !o.dryRun && !Allows(r.limiter, c.rate) then Some(OrderRateExceeded)
        else if GrantsLock(r, LockKey(o.symbol), o.strategyId, c.lock) then None else Some(SymbolLocked)
  {
    hide Gate, Rules, AfterGate, Breach, Refresh, Allows, AfterAllow, LockKey;
    StagesSeeTheStart(r, o, w, c);
  }

  /**
   * A check accepts exactly when nothing stands against the order, and otherwise names the
   * first thing that does, in the order of the ranks, all judged on the state before it.
   */
  lemma DecisionMeans(r: Rails, o: Order, w: World, c: Clock)
    ensures FirstOf(Reason(CheckOrder(r, o, w, c).1), 0, 25, r, o, w, c)
  {
    hide Cause, Rank, FirstOf, CheckOrder, Gate, Rules, AfterGate, Breach, Refresh, Allows, GrantsLock, LockKey;
    DecisionStages(r, o, w, c);
    var gate, rule := Gate(r, o, w, c.breaker), Rules(o, w, r.cfg);
    GateMeans(r, o, w, c);
    if gate.Some? {
      Chain(gate, None, 0, 6, 25, r, o, w, c);
    } else {
      StagesSeeTheStart(r, o, w, c);
      RulesMean(r, o, w, c);
      BreachMeans(r, AfterGate(r, o, w, c.breaker), o, w, c);
      LastMeans(r, o, w, c);
      var breach := Breach(AfterGate(r, o, w, c.breaker), w.equity);
      var rate := if !o.dryRun && !Allows(r.limiter, c.rate) then Some(OrderRateExceeded) else None;
      var lock := if GrantsLock(r, LockKey(o.symbol), o.strategyId, c.lock) then None else Some(SymbolLocked);
      Chain(rule, breach, 0, 21, 23, r, o, w, c);
      var upToBreach := if rule.Some? then rule else breach;
      Chain(upToBreach, rate, 0, 23, 24, r, o, w, c);
      Chain(if upToBreach.Some? then upToBreach else rate, lock, 0, 24, 25, r, o, w, c);
    }
  }

  /** Every code has a rank below 25, so an accepted order has nothing at all against it. */
  lemma AcceptedMeans(r: Rails, o: Order, w: World, c: Clock)
    ensures CheckOrder(r, o, w, c).1.Accepted? <==> forall code :: !Cause(code, r, o, w, c)
  {
    hide Cause, CheckOrder;
    DecisionMeans(r, o, w, c);
  }

  /** A live order by quantity is accepted only with a price: its own or, where that is zero, its base's in USD. */
  lemma AcceptedIsPriced(r: Rails, o: Order, w: World, c: Clock)
    requires CheckOrder(r, o, w, c).1.Accepted? && o.quote.None? && o.quantity.Some? && o.quantity.value > 0.0
    ensures var qualified := if '.' in o.symbol then o.symbol else o.symbol + ".BINANCE";
      w.prices(qualified) > 0.0 || (w.prices(qualified) == 0.0 && w.prices(UsdPair(Base(o.symbol))) > 0.0)
  {
    hide CheckOrder, Base;
    AcceptedMeans(r, o, w, c);
    assert !Cause(PriceUnavailable, r, o, w, c);
  }

  /**
   * An order accepted on margin or options: the market is enabled, and on margin the level,
   * the liability and the leverage with the order are within their limits.
   */
  lemma AcceptedMarket(r: Rails, o: Order, w: World, c: Clock)
    requires CheckOrder(r, o, w, c).1.Accepted?
    ensures MarketOf(o, w) == "margin" ==> r.cfg.marginEnabled
    ensures MarketOf(o, w) == "options" ==> r.cfg.optionsEnabled
    ensures OnMargin(o, w) && w.marginLevel.Some? ==>
      w.marginLevel.value <= 0.0 || w.marginLevel.value >= w.cfg.marginMinLevel
    ensures OnMargin(o, w) && w.marginLiability.Some? && w.cfg.marginMaxLiability > 0.0 ==>
      w.marginLiability.value <= w.cfg.marginMaxLiability
    ensures (OnMargin(o, w) && w.cfg.marginMaxLeverage > 0.0
             && w.portfolioEquity.Some? && w.portfolioEquity.value > 0.0) ==>
      LiabilityOf(w) + Growth(InSymbol(o, w), Size(o, w))
      <= w.cfg.marginMaxLeverage * Max(w.portfolioEquity.value, 0.000000001)
  {
    hide CheckOrder, InSymbol, Size, Lower;
    AcceptedMeans(r, o, w, c);
    assert !Cause(MarginDisabled, r, o, w, c) && !Cause(OptionsDisabled, r, o, w, c);
    assert !Cause(MarginLevelLow, r, o, w, c) && !Cause(MarginLiabilityLimit, r, o, w, c);
    assert !Cause(MarginLeverageLimit, r, o, w, c);
  }

  // ---- what a check and a snapshot leave behind ----

  predicate Breaches(r: Rails, equity: Option<real>) {
    equity.Some? &&
    (equity.value < r.cfg.equityFloor || DrawnDown(Highest(r, equity.value), equity.value, r.cfg.drawdownLimitPct))
  }

  /** A snapshot latches the breaker when it breaches, and otherwise lets it lapse at its deadline. */
  lemma RefreshMeans(r: Rails, equity: Option<real>, now: real)
    ensures var seen := Refresh(r, equity, now);
      && (seen.equityActive <==> Breaches(r, equity) || (r.equityActive && now < r.equityUntil))
      && seen.equityUntil == (if Breaches(r, equity) then Max(r.equityUntil, now + r.cfg.equityCooldown)
                              else r.equityUntil)
      && (equity.None? ==> seen.equityPeak == r.equityPeak && seen.lastEquity == r.lastEquity)
      && (equity.Some? ==> seen.equityPeak == Highest(r, equity.value) && seen.lastEquity == equity.value)
  {
    hide DrawnDown, DrawdownPct;
    if equity.Some? {
      SameDrawdown(Highest(r, equity.value), equity.value, r.cfg.drawdownLimitPct);
    }
  }

  /** A check ends as its gate or its snapshot left the rails, but for limiter and locks. */
  lemma CheckEnds(r: Rails, o: Order, w: World, c: Clock)
    ensures var r', gated := CheckOrder(r, o, w, c).0, AfterGate(r, o, w, c.breaker);
      var end := if Gate(r, o, w, c.breaker).None? && Rules(o, w, r.cfg).None?
                 then Refresh(gated, w.equity, c.refresh) else gated;
      r' == end.(limiter := r'.limiter, locks := r'.locks)
  {
    hide Rules, Refresh, Breach, AfterGate, Gate, Allows, AfterAllow, LiveLock, LockKey;
  }

  /** The fields a check never touches, and the ones its gate sets. */
  lemma CheckKeeps(r: Rails, o: Order, w: World, c: Clock)
    ensures var r' := CheckOrder(r, o, w, c).0;
      && r'.cfg == r.cfg && r'.errors == r.errors && r'.tripped == r.tripped && r'.pending == r.pending
      && r'.external == r.external && r'.lockTtl == r.lockTtl
    ensures CheckOrder(r, o, w, c).0.manualDisabled
      <==> r.manualDisabled || (w.flagDisabled && Clear(0, 5, r, o, w, c))
  {
    hide Rules, Refresh, Breach, CheckOrder, AfterGate, Clear, Gate;
    CheckEnds(r, o, w, c);
    GatedBreaker(r, o, w, c);
    FlagSticks(r, o, w, c);
    RefreshKeeps(AfterGate(r, o, w, c.breaker), w.equity, c.refresh);
  }

  lemma FlagSticks(r: Rails, o: Order, w: World, c: Clock)
    ensures AfterGate(r, o, w, c.breaker).manualDisabled
      <==> r.manualDisabled || (w.flagDisabled && Clear(0, 5, r, o, w, c))
    ensures AfterGate(r, o, w, c.breaker).equityActive <==> r.equityActive && !Clear(0, 4, r, o, w, c)
  {
    FirstCauses(r, o, w, c);
    hide Cause;
  }

  lemma FirstCauses(r: Rails, o: Order, w: World, c: Clock)
    ensures Cause(CircuitBreaker, r, o, w, c) <==> r.external
    ensures Cause(StrategyBankrupt, r, o, w, c) <==> w.bankrupt
    ensures Cause(VenueBreakerOpen, r, o, w, c) <==> r.tripped
    ensures Cause(EquityBreakerOpen, r, o, w, c) <==> r.equityActive && c.breaker < r.equityUntil
    ensures Cause(PendingOrder, r, o, w, c) <==> o.symbol in r.pending
  {
  }

  /** The equity breaker after a check: the snapshot counts iff gate and rules let the order through. */
  lemma CheckBreaker(r: Rails, o: Order, w: World, c: Clock)
    ensures var r' := CheckOrder(r, o, w, c).0;
      if Clear(0, 21, r, o, w, c) then
        && (r'.equityActive <==> Breaches(r, w.equity))
        && r'.equityUntil == (if Breaches(r, w.equity) then Max(r.equityUntil, c.refresh + r.cfg.equityCooldown)
                              else r.equityUntil)
        && (w.equity.None? ==> r'.equityPeak == r.equityPeak && r'.lastEquity == r.lastEquity)
        && (w.equity.Some? ==> r'.equityPeak == Highest(r, w.equity.value) && r'.lastEquity == w.equity.value)
      else
        && (r'.equityActive <==> r.equityActive && !Clear(0, 4, r, o, w, c))
        && r'.equityUntil == r.equityUntil && r'.equityPeak == r.equityPeak && r'.lastEquity == r.lastEquity
  {
    hide Rules, Refresh, Breach, CheckOrder, AfterGate, Clear, Cause, Breaches, Highest, Gate;
    CheckEnds(r, o, w, c);
    FlagSticks(r, o, w, c);
    GatedBreaker(r, o, w, c);
    RefreshMeans(AfterGate(r, o, w, c.breaker), w.equity, c.refresh);
    ReachedIff(r, o, w, c);
  }

  lemma GatedBreaker(r: Rails, o: Order, w: World, c: Clock)
    ensures var gated := AfterGate(r, o, w, c.breaker);
      && gated == r.(equityActive := gated.equityActive, manualDisabled := gated.manualDisabled)
      && (Gate(r, o, w, c.breaker).None? ==> !gated.equityActive)
    ensures Breaches(AfterGate(r, o, w, c.breaker), w.equity) == Breaches(r, w.equity)
    ensures w.equity.Some? ==>
      Highest(AfterGate(r, o, w, c.breaker), w.equity.value) == Highest(r, w.equity.value)
  {
    hide DrawnDown;
  }

  /** The snapshot is looked at exactly when nothing of rank below 21 stands against the order. */
  lemma ReachedIff(r: Rails, o: Order, w: World, c: Clock)
    ensures Gate(r, o, w, c.breaker).None? && Rules(o, w, r.cfg).None? <==> Clear(0, 21, r, o, w, c)
  {
    hide Cause, Rules, Gate;
    GateMeans(r, o, w, c);
    if Gate(r, o, w, c.breaker).None? {
      RulesMean(r, o, w, c);
    }
  }

  /** An accepted order takes or renews the lock of its upper-cased base; a refused one touches no lock. */
  lemma CheckLocks(r: Rails, o: Order, w: World, c: Clock)
    ensures var (r', d) := CheckOrder(r, o, w, c);
      r'.locks == if d.Accepted? && r.lockTtl > 0.0
                  then r.locks[Upper(Base(o.symbol)) :=
                    Lock(Upper(o.side), c.lock + r.lockTtl, if o.strategyId == "" then "unknown" else o.strategyId)]
                  else r.locks
  {
    hide Rules, Refresh, Breach, Allows, AfterAllow, Gate, AfterGate, Upper, Base, LiveLock;
    StagesSeeTheStart(r, o, w, c);
    GatedBreaker(r, o, w, c);
  }

  // ---- the other operations ----

  /** How many of the results failed. */
  function Failures(q: seq<Result>): nat {
    if q == [] then 0 else Failures(q[..|q| - 1]) + if q[|q| - 1].ok then 0 else 1
  }

  lemma {:induction false} FailedAreFailures(q: seq<Result>)
    ensures |Filter(q, Failed())| == Failures(q)
  {
    if q != [] {
      FailedAreFailures(q[..|q| - 1]);
      assert q == q[..|q| - 1] + [q[|q| - 1]];
      FilterSnoc(q[..|q| - 1], q[|q| - 1], Failed());
    }
  }

  /** After a result the venue breaker is on iff the failures reach the limit, in percent of the results kept. */
  lemma TrippedMeans(r: Rails, ok: bool, now: real)
    ensures var r' := RecordResult(r, ok, now);
      && (r'.errors == [] ==> r'.tripped == r.tripped)
      && (r'.errors != [] ==>
            (r'.tripped <==> 100.0 * Failures(r'.errors) as real >= r.cfg.venueErrorPct * |r'.errors| as real))
  {
    hide Prune, Filter;
    var q := RecordResult(r, ok, now).errors;
    FailedAreFailures(q);
    if q != [] {
      RateReaches(100.0 * Failures(q) as real, |q| as real, r.cfg.venueErrorPct);
    }
  }

  lemma RateReaches(n: real, d: real, limit: real)
    requires d > 0.0
    ensures n / d >= limit <==> n >= limit * d
  {
    var q := n / d;
    assert q * d == n;
    if q < limit {
      StrictlyBelow(q, limit, d);
    } else if q > limit {
      StrictlyBelow(limit, q, d);
    }
  }

  /** A lock is granted unless another holder's, or an unnamed caller's, has not expired. */
  lemma GrantedIff(r: Rails, key: string, strategyId: string, now: real)
    ensures GrantsLock(r, key, strategyId, now)
      <==> r.lockTtl <= 0.0 || key !in r.locks || r.locks[key].expiresAt <= now
           || (strategyId != "" && r.locks[key].strategyId == strategyId)
  {
  }

  /** A release frees its upper-cased base for everyone and leaves every other key as it was. */
  lemma ReleaseFrees(r: Rails, symbol: string, key: string, strategyId: string, now: real)
    requires symbol != ""
    ensures GrantsLock(ReleaseLock(r, symbol), key, strategyId, now)
      <==> key == Upper(Base(symbol)) || GrantsLock(r, key, strategyId, now)
  {
    hide Upper, Base;
  }

  /** Clearing what was registered restores the pending amount, or removes it when next to nothing is left. */
  lemma RegisterThenClear(r: Rails, symbol: string, notional: real)
    ensures var back := ClearPending(RegisterPending(r, symbol, notional), symbol, notional);
      if symbol in r.pending && r.pending[symbol] > 0.000000001 then back == r
      else back == r.(pending := r.pending - {symbol})
  {
  }
}
