/**
 * The pre-trade gate of engine/risk.py. `Rails` is the abstract state of one
 * RiskRails object; every method of the class is proved to follow a function on it.
 * The clock is an argument: a check reads it four times, in order.
 */
module RiskRails {
  import opened Basics
  import opened Symbols
  import opened Sums
  import opened Sequences
  import opened SlidingWindow

  datatype Config = Config(
    tradingEnabled: bool, minNotional: real, maxNotional: real, dustThreshold: real,
    tradeSymbols: seq<string>,
    capSymbol: real, capTotal: real, capVenue: real,
    venueErrorPct: real, venueErrorWindow: real,
    equityFloor: real, drawdownLimitPct: real, equityCooldown: real,
    marginEnabled: bool, marginMinLevel: real, marginMaxLiability: real, marginMaxLeverage: real,
    optionsEnabled: bool)

  /** An empty strategy id stands for None; so does an empty market. */
  datatype Order = Order(
    symbol: string, side: string, quote: Option<real>, quantity: Option<real>,
    market: string, strategyId: string, dryRun: bool)

  datatype PositionView = PositionView(symbol: string, quantity: real, lastPrice: real)

  /**
   * What a check reads from its surroundings: the effective configuration of this
   * order, the refusals decided elsewhere, the portfolio snapshot and the prices.
   */
  datatype World = World(
    cfg: Config, bankrupt: bool, flagDisabled: bool, quarantined: bool,
    resolvedMarket: string, positions: seq<PositionView>, prices: string -> real,
    equity: Option<real>, marginLevel: Option<real>, marginLiability: Option<real>,
    portfolioEquity: Option<real>)

  datatype Clock = Clock(breaker: real, refresh: real, rate: real, lock: real)

  datatype Code =
    | CircuitBreaker | StrategyBankrupt | VenueBreakerOpen | EquityBreakerOpen
    | PendingOrder | TradingDisabled | SymbolNotAllowed | SymbolQuarantined | OrderShapeInvalid
    | NotionalTooSmall | NotionalTooLarge | NotionalDust | MarginDisabled | OptionsDisabled
    | PriceUnavailable | ExposureSymbolCap | ExposureTotalCap | ExposureVenueCap
    | MarginLevelLow | MarginLiabilityLimit | MarginLeverageLimit
    | EquityFloor | EquityDrawdown | OrderRateExceeded | SymbolLocked

  datatype Decision = Accepted | Rejected(code: Code)

  datatype Lock = Lock(side: string, expiresAt: real, strategyId: string)

  datatype Result = Result(at: real, ok: bool)

  datatype Rails = Rails(
    cfg: Config, limiter: Limiter,
    errors: seq<Result>, tripped: bool,
    equityPeak: real, equityActive: bool, equityUntil: real, lastEquity: real,
    manualDisabled: bool, lockTtl: real, locks: map<string, Lock>,
    pending: map<string, real>, external: bool)

  const UNKNOWN := "unknown"

  // ---- stateless rules ----

  predicate Allowed(cfg: Config, symbol: string) {
    cfg.tradeSymbols == [] ||
    exists s :: s in cfg.tradeSymbols && Upper(Base(s)) == Upper(Base(symbol))
  }

  predicate EndsWith(s: string, t: string) { |t| <= |s| && s[|s| - |t|..] == t }

  function LastPrice(o: Order, w: World): real {
    var base := Base(o.symbol);
    var px := w.prices(Qualify(o.symbol, DEFAULT_VENUE));
    if px == 0.0 then w.prices(if EndsWith(base, "USD") then base else base + "USD") else px
  }

  function Amount(x: Option<real>): real { if x.Some? then x.value else 0.0 }

  function Delta(o: Order, w: World): real {
    var size := if Amount(o.quote) != 0.0 then Amount(o.quote) else Amount(o.quantity) * LastPrice(o, w);
    if Upper(o.side) == "BUY" then size else -size
  }

  /** A position's value at its mark, or at the looked-up price when it has none. */
  function Valued(w: World): PositionView -> real {
    (p: PositionView) => PositionValue(p, w)
  }

  function PositionValue(p: PositionView, w: World): real {
    var s := Upper(p.symbol);
    if s == "" then 0.0
    else p.quantity * (if p.lastPrice != 0.0 then p.lastPrice else w.prices(Qualify(s, DEFAULT_VENUE)))
  }

  function OnBase(base: string, w: World): PositionView -> real {
    (p: PositionView) => if Base(Upper(p.symbol)) == base then PositionValue(p, w) else 0.0
  }

  function OnVenue(venue: string, w: World): PositionView -> real {
    (p: PositionView) => if VenueOrDefault(Upper(p.symbol)) == venue then PositionValue(p, w) else 0.0
  }

  ghost function SymbolExposure(o: Order, w: World): real { SumSeq(w.positions, OnBase(Base(o.symbol), w)) }

  ghost function TotalExposure(w: World): real { SumSeq(w.positions, Valued(w)) }

  ghost function VenueExposure(o: Order, w: World): real {
    SumSeq(w.positions, OnVenue(VenueOrDefault(o.symbol), w))
  }

  /** Exactly one of quote and quantity, and the notional limits on a quote. */
  function ShapeRule(o: Order, cfg: Config): Option<Code> {
    if o.quote.Some? == o.quantity.Some? then Some(OrderShapeInvalid)
    else if o.quote.Some? && o.quote.value < cfg.minNotional then Some(NotionalTooSmall)
    else if o.quote.Some? && o.quote.value > cfg.maxNotional then Some(NotionalTooLarge)
    else if o.quote.Some? && o.quote.value < cfg.dustThreshold then Some(NotionalDust)
    else None
  }

  function Market(o: Order, w: World): string { if o.market != "" then Lower(o.market) else w.resolvedMarket }

  function TradeRule(o: Order, w: World, base: Config): Option<Code> {
    if !w.cfg.tradingEnabled && !o.dryRun then Some(TradingDisabled)
    else if !Allowed(w.cfg, o.symbol) then Some(SymbolNotAllowed)
    else if w.quarantined then Some(SymbolQuarantined)
    else if ShapeRule(o, w.cfg).Some? then ShapeRule(o, w.cfg)
    else if Market(o, w) == "margin" && !base.marginEnabled then Some(MarginDisabled)
    else if Market(o, w) == "options" && !base.optionsEnabled then Some(OptionsDisabled)
    else if Amount(o.quote) <= 0.0 && Amount(o.quantity) > 0.0 && LastPrice(o, w) <= 0.0 then Some(PriceUnavailable)
    else None
  }

  function CapRule(symbolExposure: real, totalExposure: real, venueExposure: real,
                   delta: real, cfg: Config): Option<Code> {
    if Abs(symbolExposure + delta) > cfg.capSymbol then Some(ExposureSymbolCap)
    else if Abs(totalExposure + delta) > cfg.capTotal then Some(ExposureTotalCap)
    else if Abs(venueExposure + delta) > cfg.capVenue then Some(ExposureVenueCap)
    else None
  }

  function MarginRule(o: Order, w: World, symbolExposure: real): Option<Code> {
    if Market(o, w) != "margin" || !w.cfg.marginEnabled then None
    else if w.marginLevel.Some? && 0.0 < w.marginLevel.value < w.cfg.marginMinLevel then Some(MarginLevelLow)
    else if w.cfg.marginMaxLiability > 0.0 && w.marginLiability.Some?
            && w.marginLiability.value > w.cfg.marginMaxLiability then Some(MarginLiabilityLimit)
    else
      var equity, leverage := Amount(w.portfolioEquity), Max(w.cfg.marginMaxLeverage, 0.0);
      if leverage > 0.0 && equity > 0.0 then
        var grown := Max(Abs(symbolExposure + Delta(o, w)) - Abs(symbolExposure), 0.0);
        var floor := Max(equity, 0.000000001);
        if (Max(Amount(w.marginLiability), 0.0) + grown) / floor > leverage then Some(MarginLeverageLimit)
        else None
      else None
  }

  ghost function Rules(o: Order, w: World, base: Config): Option<Code> {
    var trade := TradeRule(o, w, base);
    var cap := CapRule(SymbolExposure(o, w), TotalExposure(w), VenueExposure(o, w), Delta(o, w), w.cfg);
    if trade.Some? then trade
    else if cap.Some? then cap
    else MarginRule(o, w, SymbolExposure(o, w))
  }

  // ---- equity breaker ----

  function Peak(r: Rails, equity: real): real {
    if r.equityPeak <= 0.0 || equity > r.equityPeak then equity else r.equityPeak
  }

  function DrawdownPct(peak: real, equity: real): real {
    if peak <= 0.0 then 0.0 else Max((peak - equity) / peak * 100.0, 0.0)
  }

  /** The breach a snapshot shows, if any. */
  function Breach(r: Rails, equity: Option<real>): Option<Code> {
    if equity.None? then None
    else if equity.value < r.cfg.equityFloor then Some(EquityFloor)
    else if DrawdownPct(Peak(r, equity.value), equity.value) >= r.cfg.drawdownLimitPct then Some(EquityDrawdown)
    else None
  }

  function Refresh(r: Rails, equity: Option<real>, now: real): Rails {
    var seen := if equity.Some? then r.(lastEquity := equity.value, equityPeak := Peak(r, equity.value)) else r;
    if Breach(r, equity).Some? then
      seen.(equityActive := true, equityUntil := Max(r.equityUntil, now + r.cfg.equityCooldown))
    else if r.equityActive && now >= r.equityUntil then seen.(equityActive := false)
    else seen
  }

  // ---- symbol locks ----

  function LockKey(symbol: string): string { Upper(Base(symbol)) }

  /** The lock on a key that has not expired. */
  function LiveLock(locks: map<string, Lock>, key: string, now: real): Option<Lock> {
    if key in locks && locks[key].expiresAt > now then Some(locks[key]) else None
  }

  predicate GrantsLock(r: Rails, key: string, strategyId: string, now: real) {
    r.lockTtl <= 0.0 ||
    var held := LiveLock(r.locks, key, now);
    held.None? || (strategyId != "" && held.value.strategyId == strategyId)
  }

  function AfterLock(r: Rails, key: string, side: string, strategyId: string, now: real): Rails {
    if r.lockTtl <= 0.0 || !GrantsLock(r, key, strategyId, now) then r
    else
      var owner := if strategyId != "" then strategyId else UNKNOWN;
      r.(locks := r.locks[key := Lock(Upper(side), now + r.lockTtl, owner)])
  }

  function ReleaseLock(r: Rails, symbol: string): Rails {
    if r.lockTtl <= 0.0 || symbol == "" then r else r.(locks := r.locks - {LockKey(symbol)})
  }

  // ---- the check itself ----

  /** The refusals decided before any rule is looked at. */
  function Gate(r: Rails, o: Order, w: World, now: real): Option<Code> {
    if r.external then Some(CircuitBreaker)
    else if w.bankrupt then Some(StrategyBankrupt)
    else if r.tripped then Some(VenueBreakerOpen)
    else if r.equityActive && now < r.equityUntil then Some(EquityBreakerOpen)
    else if o.symbol in r.pending then Some(PendingOrder)
    else if r.manualDisabled || w.flagDisabled then Some(TradingDisabled)
    else None
  }

  /** An expired equity breaker is cleared by the check that finds it; a disabling flag file sticks. */
  function AfterGate(r: Rails, o: Order, w: World, now: real): Rails {
    if r.external || w.bankrupt || r.tripped || (r.equityActive && now < r.equityUntil) then r
    else
      var cleared := r.(equityActive := false);
      if o.symbol !in r.pending && !r.manualDisabled && w.flagDisabled then cleared.(manualDisabled := true)
      else cleared
  }

  ghost function CheckOrder(r: Rails, o: Order, w: World, c: Clock): (Rails, Decision) {
    var gated := AfterGate(r, o, w, c.breaker);
    var gate := Gate(r, o, w, c.breaker);
    if gate.Some? then (gated, Rejected(gate.value))
    else
      var rule := Rules(o, w, r.cfg);
      if rule.Some? then (gated, Rejected(rule.value))
      else
        var seen := Refresh(gated, w.equity, c.refresh);
        var breach := Breach(gated, w.equity);
        if breach.Some? then (seen, Rejected(breach.value))
        else
          var limited := if o.dryRun then seen else seen.(limiter := AfterAllow(seen.limiter, c.rate));
          if !o.dryRun && !Allows(seen.limiter, c.rate) then (limited, Rejected(OrderRateExceeded))
          else
            var key := LockKey(o.symbol);
            if GrantsLock(limited, key, o.strategyId, c.lock)
            then (AfterLock(limited, key, o.side, o.strategyId, c.lock), Accepted)
            else (limited, Rejected(SymbolLocked))
  }

  // ---- the other operations ----

  function PendingOf(r: Rails, symbol: string): real { At(r.pending, symbol) }

  function RegisterPending(r: Rails, symbol: string, notional: real): Rails {
    r.(pending := r.pending[symbol := PendingOf(r, symbol) + notional])
  }

  function ClearPending(r: Rails, symbol: string, notional: real): Rails {
    var left := PendingOf(r, symbol) - notional;
    if left <= 0.000000001 then r.(pending := r.pending - {symbol})
    else r.(pending := r.pending[symbol := left])
  }

  function Stamp(): Result -> real { (x: Result) => x.at }

  function Failed(): Result -> bool { (x: Result) => !x.ok }

  /** Percentage of failures; the sequence must not be empty. */
  function ErrorRate(q: seq<Result>): real
    requires q != []
  {
    100.0 * |Filter(q, Failed())| as real / |q| as real
  }

  function RecordResult(r: Rails, ok: bool, now: real): Rails {
    var window := Prune(r.errors + [Result(now, ok)], Stamp(), now - r.cfg.venueErrorWindow);
    r.(errors := window,
       tripped := if window == [] then r.tripped else ErrorRate(window) >= r.cfg.venueErrorPct)
  }

  function NewRails(cfg: Config, maxPerMin: int, lockTtlSec: real): Rails {
    Rails(cfg, Limiter(maxPerMin, []), [], false, 0.0, false, 0.0, 0.0,
          false, Max(lockTtlSec, 0.0), map[], map[], false)
  }

  class RiskRails {
    var cfg: Config
    const ratelimiter: OrderRateLimiter
    var errors: seq<Result>
    var tripped: bool
    var equityPeak: real
    var equityActive: bool
    var equityUntil: real
    var lastEquity: real
    var manualDisabled: bool
    const lockTtl: real
    var locks: map<string, Lock>
    var pending: map<string, real>
    var external: bool

    function State(): Rails
      reads this, ratelimiter
    {
      Rails(cfg, ratelimiter.State(), errors, tripped, equityPeak, equityActive, equityUntil, lastEquity,
            manualDisabled, lockTtl, locks, pending, external)
    }

    constructor (cfg: Config, maxPerMin: int, lockTtlSec: real)
      ensures State() == NewRails(cfg, maxPerMin, lockTtlSec)
      ensures fresh(ratelimiter)
    {
      this.cfg := cfg;
      ratelimiter := new OrderRateLimiter(maxPerMin);
      errors, tripped, equityPeak, equityActive := [], false, 0.0, false;
      equityUntil, lastEquity, manualDisabled := 0.0, 0.0, false;
      lockTtl := Max(lockTtlSec, 0.0);
      locks, pending, external := map[], map[], false;
    }

    method SetCircuitBreaker(active: bool)
      modifies this`external
      ensures State() == old(State()).(external := active)
    {
      external := active;
    }

    method SetManualTradingEnabled(enabled: bool)
      modifies this`manualDisabled
      ensures State() == old(State()).(manualDisabled := !enabled)
    {
      manualDisabled := !enabled;
    }

    method Register(symbol: string, notional: real)
      modifies this`pending
      ensures State() == RegisterPending(old(State()), symbol, notional)
    {
      pending := pending[symbol := At(pending, symbol) + notional];
    }

    method Clear(symbol: string, notional: real)
      modifies this`pending
      ensures State() == ClearPending(old(State()), symbol, notional)
    {
      pending := pending[symbol := At(pending, symbol) - notional];
      if pending[symbol] <= 0.000000001 {
        pending := pending - {symbol};
        assert pending == old(pending) - {symbol};
      }
    }

    method Release(symbol: string)
      modifies this`locks
      ensures State() == ReleaseLock(old(State()), symbol)
    {
      if lockTtl <= 0.0 || symbol == "" {
        return;
      }
      var key := LockKey(symbol);
      if key in locks {
        locks := locks - {key};
      }
      assert locks == old(locks) - {key};
    }

    method Acquire(key: string, side: string, strategyId: string, now: real) returns (ok: bool)
      modifies this`locks
      ensures ok == GrantsLock(old(State()), key, strategyId, now)
      ensures ok ==> State() == AfterLock(old(State()), key, side, strategyId, now)
      ensures !ok ==> State() == old(State())
    {
      if lockTtl <= 0.0 {
        return true;
      }
      if key in locks && locks[key].expiresAt <= now {
        locks := locks - {key};
      }
      if key in locks {
        var held := locks[key];
        if strategyId != "" && held.strategyId == strategyId {
          locks := locks[key := held.(expiresAt := now + lockTtl, side := Upper(side))];
          return true;
        }
        return false;
      }
      locks := locks[key := Lock(Upper(side), now + lockTtl, if strategyId != "" then strategyId else UNKNOWN)];
      assert locks == old(locks)[key := locks[key]];
      return true;
    }

    method RefreshSnapshot(equity: Option<real>, now: real) returns (breach: Option<Code>)
      modifies this`equityPeak, this`equityActive, this`equityUntil, this`lastEquity
      ensures State() == Refresh(old(State()), equity, now)
      ensures breach == Breach(old(State()), equity)
    {
      breach := None;
      if equity.Some? {
        var e := equity.value;
        lastEquity := e;
        if equityPeak <= 0.0 || e > equityPeak {
          equityPeak := e;
        }
        var drawdown := DrawdownPct(equityPeak, e);
        var floorBreach, drawdownBreach := e < cfg.equityFloor, drawdown >= cfg.drawdownLimitPct;
        if floorBreach || drawdownBreach {
          equityActive := true;
          equityUntil := Max(equityUntil, now + cfg.equityCooldown);
          breach := Some(if floorBreach then EquityFloor else EquityDrawdown);
        } else if equityActive && now >= equityUntil {
          equityActive := false;
        }
      } else if equityActive && now >= equityUntil {
        equityActive := false;
      }
    }

    method Record(ok: bool, now: real)
      modifies this`errors, this`tripped
      ensures State() == RecordResult(old(State()), ok, now)
    {
      errors := errors + [Result(now, ok)];
      var cutoff := now - cfg.venueErrorWindow;
      ghost var appended := errors;
      while errors != [] && errors[0].at < cutoff
        invariant Prune(errors, Stamp(), cutoff) == Prune(appended, Stamp(), cutoff)
        invariant tripped == old(tripped)
        decreases |errors|
      {
        errors := errors[1..];
      }
      if errors != [] {
        var errs := CountFailures(errors);
        tripped := 100.0 * errs as real / |errors| as real >= cfg.venueErrorPct;
      }
    }

    /** The three exposure sums, accumulated in one pass over the snapshot. */
    method Exposures(o: Order, w: World) returns (symbolExposure: real, total: real, venueExposure: real)
      ensures symbolExposure == SymbolExposure(o, w)
      ensures total == TotalExposure(w)
      ensures venueExposure == VenueExposure(o, w)
    {
      hide SumSeq, PositionValue, Base, VenueOrDefault, Upper;
      var base, venue := Base(o.symbol), VenueOrDefault(o.symbol);
      symbolExposure, total, venueExposure := 0.0, 0.0, 0.0;
      SumSeqNone(OnBase(base, w));
      SumSeqNone(Valued(w));
      SumSeqNone(OnVenue(venue, w));
      for i := 0 to |w.positions|
        invariant symbolExposure == SumSeq(w.positions[..i], OnBase(base, w))
        invariant total == SumSeq(w.positions[..i], Valued(w))
        invariant venueExposure == SumSeq(w.positions[..i], OnVenue(venue, w))
      {
        assert w.positions[..i + 1] == w.positions[..i] + [w.positions[i]];
        SumSeqSnoc(w.positions[..i], w.positions[i], OnBase(base, w));
        SumSeqSnoc(w.positions[..i], w.positions[i], Valued(w));
        SumSeqSnoc(w.positions[..i], w.positions[i], OnVenue(venue, w));
        var p := w.positions[i];
        var value := PositionValue(p, w);
        total := total + value;
        if VenueOrDefault(Upper(p.symbol)) == venue {
          venueExposure := venueExposure + value;
        }
        if Base(Upper(p.symbol)) == base {
          symbolExposure := symbolExposure + value;
        }
      }
      assert w.positions[..|w.positions|] == w.positions;
    }

    method Check(o: Order, w: World, c: Clock) returns (d: Decision)
      modifies this, ratelimiter
      ensures State() == CheckOrder(old(State()), o, w, c).0
      ensures d == CheckOrder(old(State()), o, w, c).1
    {
      hide TradeRule, CapRule, MarginRule, SymbolExposure, TotalExposure, VenueExposure, Delta,
        Refresh, Breach, Allows, AfterAllow, GrantsLock, AfterLock, LockKey;
      if external {
        return Rejected(CircuitBreaker);
      }
      if w.bankrupt {
        return Rejected(StrategyBankrupt);
      }
      if tripped {
        return Rejected(VenueBreakerOpen);
      }
      if equityActive {
        if c.breaker < equityUntil {
          return Rejected(EquityBreakerOpen);
        }
        equityActive := false;
      }
      if o.symbol in pending {
        return Rejected(PendingOrder);
      }
      if manualDisabled {
        return Rejected(TradingDisabled);
      }
      if w.flagDisabled {
        manualDisabled := true;
        return Rejected(TradingDisabled);
      }
      assert State() == AfterGate(old(State()), o, w, c.breaker);
      var refusal := TradeRule(o, w, cfg);
      if refusal.Some? {
        return Rejected(refusal.value);
      }
      var symbolExposure, total, venueExposure := Exposures(o, w);
      refusal := CapRule(symbolExposure, total, venueExposure, Delta(o, w), w.cfg);
      if refusal.Some? {
        return Rejected(refusal.value);
      }
      refusal := MarginRule(o, w, symbolExposure);
      if refusal.Some? {
        return Rejected(refusal.value);
      }
      var breach := RefreshSnapshot(w.equity, c.refresh);
      if breach.Some? {
        return Rejected(breach.value);
      }
      if !o.dryRun {
        var ok := ratelimiter.Allow(c.rate);
        if !ok {
          return Rejected(OrderRateExceeded);
        }
      }
      var granted := Acquire(LockKey(o.symbol), o.side, o.strategyId, c.lock);
      return if granted then Accepted else Rejected(SymbolLocked);
    }
  }

  method CountFailures(q: seq<Result>) returns (errs: nat)
    ensures errs == |Filter(q, Failed())|
  {
    errs := 0;
    for i := 0 to |q|
      invariant errs == |Filter(q[..i], Failed())|
    {
      assert q[..i + 1] == q[..i] + [q[i]];
      FilterSnoc(q[..i], q[i], Failed());
      if !q[i].ok {
        errs := errs + 1;
      }
    }
    assert q[..|q|] == q;
  }
}
