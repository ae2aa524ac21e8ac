/**
 * Safety of the risk rails over whole runs: any interleaving of checks, snapshot
 * refreshes, result records, pending-order updates, lock releases, switches and
 * configuration reloads, under a clock that never goes back.
 */
module RiskLaws {
  import opened Basics
  import opened RealFacts
  import opened Sequences
  import opened SlidingWindow
  import opened RiskRails

  datatype Op =
    | Check(order: Order, world: World, clock: Clock)
    | RefreshOp(equity: Option<real>, now: real)
    | Record(ok: bool, now: real)
    | Register(symbol: string, notional: real)
    | Clear(symbol: string, notional: real)
    | Release(symbol: string)
    | SetExternal(active: bool)
    | SetManual(enabled: bool)
    | Reload(cfg: Config)

  ghost function Next(r: Rails, op: Op): Rails {
    match op
    case Check(o, w, c) => CheckOrder(r, o, w, c).0
    case RefreshOp(equity, now) => Refresh(r, equity, now)
    case Record(ok, now) => RecordResult(r, ok, now)
    case Register(symbol, notional) => RegisterPending(r, symbol, notional)
    case Clear(symbol, notional) => ClearPending(r, symbol, notional)
    case Release(symbol) => ReleaseLock(r, symbol)
    case SetExternal(active) => r.(external := active)
    case SetManual(enabled) => r.(manualDisabled := !enabled)
    case Reload(cfg) => r.(cfg := cfg)
  }

  ghost function Run(r: Rails, ops: seq<Op>): Rails {
    if ops == [] then r else Next(Run(r, ops[..|ops| - 1]), ops[|ops| - 1])
  }

  ghost predicate Accepts(r: Rails, op: Op) {
    op.Check? && CheckOrder(r, op.order, op.world, op.clock).1.Accepted?
  }

  /** The last clock reading of a run that started at t0. */
  function EndTime(t0: real, ops: seq<Op>): real {
    if ops == [] then t0
    else
      var op := ops[|ops| - 1];
      if op.Check? then op.clock.lock
      else if op.RefreshOp? || op.Record? then op.now
      else EndTime(t0, ops[..|ops| - 1])
  }

  predicate Forward(c: Clock) { c.breaker <= c.refresh <= c.rate <= c.lock }

  /** The clock never goes back, within a check or between operations. */
  predicate Chronological(t0: real, ops: seq<Op>) {
    ops == [] ||
    var init, op := ops[..|ops| - 1], ops[|ops| - 1];
    && Chronological(t0, init)
    && (op.Check? ==> EndTime(t0, init) <= op.clock.breaker && Forward(op.clock))
    && (op.RefreshOp? || op.Record? ==> EndTime(t0, init) <= op.now)
  }

  // ---- what acceptance means ----

  predicate WithinNotional(o: Order, cfg: Config) {
    o.quote.Some? ==>
      cfg.minNotional <= o.quote.value <= cfg.maxNotional && cfg.dustThreshold <= o.quote.value
  }

  /** Nothing that could stop an order stood when it was accepted. */
  lemma AcceptanceGuarantees(r: Rails, o: Order, w: World, c: Clock)
    requires CheckOrder(r, o, w, c).1.Accepted?
    ensures !r.external && !r.tripped && !r.manualDisabled && !w.flagDisabled && o.symbol !in r.pending
    ensures r.equityActive ==> r.equityUntil <= c.breaker
    ensures (w.cfg.tradingEnabled || o.dryRun) && Allowed(w.cfg, o.symbol) && !w.quarantined && !w.bankrupt
    ensures o.quote.Some? != o.quantity.Some? && WithinNotional(o, w.cfg)
    ensures w.equity.Some? ==> r.cfg.equityFloor <= w.equity.value
    ensures w.equity.Some? ==> DrawdownPct(Peak(r, w.equity.value), w.equity.value) < r.cfg.drawdownLimitPct
    ensures !o.dryRun ==> Allows(r.limiter, c.rate)
    ensures GrantsLock(r, LockKey(o.symbol), o.strategyId, c.lock)
  {
    hide CapRule, MarginRule, Allows, GrantsLock, AfterAllow, AfterLock, LockKey, DrawdownPct, Allowed, Market,
      LastPrice, Delta, SymbolExposure, TotalExposure, VenueExposure;
    AcceptedIff(r, o, w, c);
    hide CheckOrder;
  }

  /**
   * An order is accepted exactly when gate, rules, snapshot, limiter and lock each let it
   * through, judged on the state before the check: no refusal depends on another.
   */
  lemma AcceptedIff(r: Rails, o: Order, w: World, c: Clock)
    ensures CheckOrder(r, o, w, c).1.Accepted? <==>
      && Gate(r, o, w, c.breaker).None? && Rules(o, w, r.cfg).None? && Breach(r, w.equity).None?
      && (!o.dryRun ==> Allows(r.limiter, c.rate))
      && GrantsLock(r, LockKey(o.symbol), o.strategyId, c.lock)
  {
    hide Rules, Allows, AfterAllow, LockKey, DrawdownPct, LiveLock;
  }

  /** No switch or breaker is on, locks are off and the limiter has room. */
  predicate Idle(r: Rails) {
    && !r.external && !r.tripped && !r.manualDisabled && !r.equityActive
    && r.lockTtl <= 0.0 && |r.limiter.events| < r.limiter.maxPerMin
  }

  /** Nothing is decided against the order elsewhere, and the snapshot shows no equity. */
  predicate Calm(w: World) { !w.bankrupt && !w.flagDisabled && w.equity.None? }

  lemma {:induction false} PruneShortens(q: seq<real>, cutoff: real)
    ensures |Prune(q, Itself(), cutoff)| <= |q|
    decreases |q|
  {
    if q != [] {
      PruneShortens(q[1..], cutoff);
    }
  }

  /** Idle rails accept a live order that passes the rules and whose symbol is not pending. */
  lemma IdleAccepts(r: Rails, o: Order, w: World, c: Clock)
    requires Idle(r) && Calm(w) && !o.dryRun && o.symbol !in r.pending && Rules(o, w, r.cfg).None?
    ensures CheckOrder(r, o, w, c) == (r.(limiter := AfterAllow(r.limiter, c.rate)), Accepted)
    ensures |AfterAllow(r.limiter, c.rate).events| <= |r.limiter.events| + 1
    ensures AfterAllow(r.limiter, c.rate).maxPerMin == r.limiter.maxPerMin
  {
    hide Rules, LockKey;
    PruneShortens(r.limiter.events, c.rate - WINDOW);
  }

  /** A plain spot order for a quote that the limits and the three caps allow passes the rules. */
  lemma PlainQuotePasses(o: Order, w: World, base: Config)
    requires w.cfg.tradingEnabled && w.cfg.tradeSymbols == [] && !w.quarantined
    requires o.quote.Some? && o.quantity.None? && WithinNotional(o, w.cfg)
    requires o.market == "" && w.resolvedMarket == "spot"
    requires Abs(SymbolExposure(o, w) + Delta(o, w)) <= w.cfg.capSymbol
    requires Abs(TotalExposure(w) + Delta(o, w)) <= w.cfg.capTotal
    requires Abs(VenueExposure(o, w) + Delta(o, w)) <= w.cfg.capVenue
    ensures Rules(o, w, base).None?
  {
    hide SymbolExposure, TotalExposure, VenueExposure, Delta, LastPrice;
  }

  // ---- the setting of the concrete runs ----

  function AtPar(): string -> real { (k: string) => 1.0 }

  /** A symbol may carry 100, everything else 1000, and orders 1 to 100. */
  function ParConfig(): Config {
    Config(true, 1.0, 100.0, 0.0, [], 100.0, 1000.0, 1000.0, 50.0, 60.0, 0.0, 100.0, 60.0,
           false, 0.0, 0.0, 0.0, false)
  }

  function ParWorld(positions: seq<PositionView>): World {
    World(ParConfig(), false, false, false, "spot", positions, AtPar(), None, None, None, None)
  }

  // ---- the equity breaker ----

  /** The breaker is latched until at least `deadline`. */
  predicate Latched(r: Rails, deadline: real) { r.equityActive && r.equityUntil >= deadline }

  /** A breaching snapshot latches the breaker for the configured cooldown. */
  lemma BreachLatches(r: Rails, equity: Option<real>, now: real)
    requires Breach(r, equity).Some?
    ensures Latched(Refresh(r, equity, now), now + r.cfg.equityCooldown)
  {
  }

  lemma CheckWhenLatched(r: Rails, o: Order, w: World, c: Clock, deadline: real)
    requires Latched(r, deadline) && c.breaker < deadline
    ensures CheckOrder(r, o, w, c).1.Rejected? && CheckOrder(r, o, w, c).0 == r
  {
  }

  lemma CheckDeadline(r: Rails, o: Order, w: World, c: Clock)
    ensures CheckOrder(r, o, w, c).0.equityUntil >= r.equityUntil
  {
    hide Rules, Gate, Breach, Refresh, Allows, GrantsLock, AfterAllow, LockKey;
    RefreshDeadline(AfterGate(r, o, w, c.breaker), w.equity, c.refresh);
  }

  lemma RefreshDeadline(r: Rails, equity: Option<real>, now: real)
    ensures Refresh(r, equity, now).equityUntil >= r.equityUntil
  {
    hide Breach, Peak;
  }

  lemma OthersKeepBreaker(r: Rails, op: Op)
    requires op.Record? || op.Release? || op.Clear? || op.Register?
    ensures Next(r, op).equityActive == r.equityActive && Next(r, op).equityUntil == r.equityUntil
  {
    hide Prune, ErrorRate;
  }

  /** The deadline never moves back, whatever happens. */
  lemma DeadlineMonotone(r: Rails, op: Op)
    ensures Next(r, op).equityUntil >= r.equityUntil
  {
    hide CheckOrder, RecordResult, ReleaseLock, ClearPending, RegisterPending, Breach;
    if op.Check? {
      CheckDeadline(r, op.order, op.world, op.clock);
    } else if op.Record? || op.Release? || op.Clear? || op.Register? {
      OthersKeepBreaker(r, op);
      hide Next;
    }
  }

  lemma LatchedStep(r: Rails, op: Op, now: real, deadline: real)
    requires Latched(r, deadline) && now < deadline
    requires op.Check? ==> op.clock.breaker <= now
    requires op.RefreshOp? ==> op.now <= now
    ensures Latched(Next(r, op), deadline)
  {
    hide CheckOrder, RecordResult, ReleaseLock, ClearPending, RegisterPending, DrawdownPct;
    if op.Check? {
      CheckWhenLatched(r, op.order, op.world, op.clock, deadline);
    } else if op.Record? || op.Release? || op.Clear? || op.Register? {
      OthersKeepBreaker(r, op);
      hide Next;
    }
  }

  /** A latched breaker stays latched through every run that ends before the deadline. */
  lemma {:induction false} StaysLatched(r: Rails, t0: real, ops: seq<Op>, deadline: real)
    requires Latched(r, deadline) && Chronological(t0, ops) && EndTime(t0, ops) < deadline
    ensures Latched(Run(r, ops), deadline)
  {
    if ops != [] {
      var init, op := ops[..|ops| - 1], ops[|ops| - 1];
      hide Next, Latched, Run;
      RunSnoc(r, ops);
      LatchedStep(Run(r, init), op, EndTime(t0, ops), deadline) by {
        StaysLatched(r, t0, init, deadline);
      }
    } else {
      assert Run(r, []) == r;
    }
  }

  /**
   * Lock-out: after a breach seen at time t, every check that reads the clock before
   * t + cooldown is refused, under any interleaving of the other operations.
   */
  lemma LockOut(r: Rails, equity: Option<real>, t: real, ops: seq<Op>, o: Order, w: World, c: Clock)
    requires Breach(r, equity).Some?
    requires Chronological(t, ops) && EndTime(t, ops) <= c.breaker < t + r.cfg.equityCooldown
    ensures CheckOrder(Run(Refresh(r, equity, t), ops), o, w, c).1.Rejected?
  {
    var deadline := t + r.cfg.equityCooldown;
    BreachLatches(r, equity, t);
    StaysLatched(Refresh(r, equity, t), t, ops, deadline);
    CheckWhenLatched(Run(Refresh(r, equity, t), ops), o, w, c, deadline);
  }

  /** The equity a step shows the rails: a refresh's, or that of a check which gets that far. */
  ghost function SeenBy(r: Rails, op: Op): Option<real> {
    match op
    case RefreshOp(equity, _) => equity
    case Check(o, w, c) =>
      if Gate(r, o, w, c.breaker).None? && Rules(o, w, r.cfg).None? then w.equity else None
    case _ => None
  }

  ghost function Seen(r: Rails, ops: seq<Op>): seq<real> {
    if ops == [] then []
    else
      var init, e := ops[..|ops| - 1], SeenBy(Run(r, ops[..|ops| - 1]), ops[|ops| - 1]);
      if e.Some? then Seen(r, init) + [e.value] else Seen(r, init)
  }

  /** The running maximum of what was seen, once a positive equity has been seen; else the last one. */
  function PeakOf(es: seq<real>): real {
    if es == [] then 0.0
    else
      var rest, e := PeakOf(es[..|es| - 1]), es[|es| - 1];
      if rest <= 0.0 || e > rest then e else rest
  }

  lemma {:induction false} PeakIsMaximum(es: seq<real>)
    requires exists e :: e in es && e > 0.0
    ensures PeakOf(es) in es && forall e :: e in es ==> e <= PeakOf(es)
  {
    var init, last := es[..|es| - 1], es[|es| - 1];
    assert es == init + [last];
    if exists e :: e in init && e > 0.0 {
      PeakIsMaximum(init);
    } else {
      assert forall i :: 0 <= i < |init| ==> init[i] in init;
      NoPositivePeak(init);
    }
  }

  lemma {:induction false} NoPositivePeak(es: seq<real>)
    requires forall i :: 0 <= i < |es| ==> es[i] <= 0.0
    ensures PeakOf(es) <= 0.0
  {
    if es != [] {
      NoPositivePeak(es[..|es| - 1]);
    }
  }

  lemma StepPeak(r: Rails, op: Op)
    ensures Next(r, op).equityPeak == if SeenBy(r, op).Some? then Peak(r, SeenBy(r, op).value) else r.equityPeak
  {
    hide Rules, Prune, ErrorRate, Allows, GrantsLock, AfterAllow, LockKey, DrawdownPct;
  }

  /** The stored peak is the peak of the equities seen, on every run of a new object. */
  lemma {:induction false} PeakTracksHistory(r: Rails, ops: seq<Op>)
    requires r.equityPeak == 0.0
    ensures Run(r, ops).equityPeak == PeakOf(Seen(r, ops))
  {
    if ops != [] {
      var init, op := ops[..|ops| - 1], ops[|ops| - 1];
      PeakTracksHistory(r, init);
      StepPeak(Run(r, init), op);
      var es, e := Seen(r, init), SeenBy(Run(r, init), op);
      hide Next, SeenBy;
      if e.Some? {
        assert (es + [e.value])[..|es|] == es;
      }
    }
  }

  /** Against a positive peak at least as high as it, an equity draws down by its shortfall, in percent. */
  lemma DrawdownOfShortfall(peak: real, equity: real)
    requires equity <= peak && peak > 0.0
    ensures DrawdownPct(peak, equity) == (peak - equity) / peak * 100.0
    ensures DrawdownPct(peak, equity) == 0.0 <==> equity == peak
    ensures DrawdownPct(peak, equity) <= 100.0 <==> equity >= 0.0
  {
    var q := (peak - equity) / peak;
    assert q * peak == peak - equity;
    if q < 0.0 {
      StrictlyBelow(q, 0.0, peak);
    }
    if q < 1.0 {
      StrictlyBelow(q, 1.0, peak);
    } else if q > 1.0 {
      StrictlyBelow(1.0, q, peak);
    }
  }

  /**
   * After any run of a new object that has seen a positive equity, the next snapshot is
   * judged against the maximum of all equities seen: its drawdown is the shortfall from
   * that maximum, zero exactly at the maximum and at most 100 exactly when not negative.
   */
  lemma DrawdownOverRun(r: Rails, ops: seq<Op>, equity: real)
    requires r.equityPeak == 0.0 && exists e :: e in Seen(r, ops) + [equity] && e > 0.0
    ensures var all, peak := Seen(r, ops) + [equity], Peak(Run(r, ops), equity);
            && peak in all && (forall e :: e in all ==> e <= peak)
            && DrawdownPct(peak, equity) == (peak - equity) / peak * 100.0 >= 0.0
            && (DrawdownPct(peak, equity) == 0.0 <==> equity == peak)
            && (DrawdownPct(peak, equity) <= 100.0 <==> equity >= 0.0)
  {
    hide Run, Seen;
    var seen := Seen(r, ops);
    PeakTracksHistory(r, ops);
    assert (seen + [equity])[..|seen|] == seen;
    PeakIsMaximum(seen + [equity]);
    DrawdownOfShortfall(Peak(Run(r, ops), equity), equity);
  }

  // ---- symbol locks ----

  /** Strategy s holds the lock on key until `until`. */
  predicate HeldBy(r: Rails, key: string, s: string, until: real) {
    r.lockTtl > 0.0 && key in r.locks && r.locks[key].strategyId == s && r.locks[key].expiresAt == until
  }

  predicate ChecksKey(op: Op, key: string) { op.Check? && LockKey(op.order.symbol) == key }

  /** When the lease on key runs out: each grant renews it. */
  ghost function LeaseEnd(r: Rails, ops: seq<Op>, key: string, until: real): real {
    if ops == [] then until
    else
      var init, op := ops[..|ops| - 1], ops[|ops| - 1];
      if ChecksKey(op, key) && Accepts(Run(r, init), op) then op.clock.lock + r.lockTtl
      else LeaseEnd(r, init, key, until)
  }

  /** No release of the key, and every check on it falls within the lease as last renewed. */
  ghost predicate WithinLease(r: Rails, ops: seq<Op>, key: string, until: real) {
    ops == [] ||
    var init, op := ops[..|ops| - 1], ops[|ops| - 1];
    && WithinLease(r, init, key, until)
    && (op.Release? ==> op.symbol == "" || LockKey(op.symbol) != key)
    && (ChecksKey(op, key) ==> op.clock.lock < LeaseEnd(r, init, key, until))
  }

  /** An accepted check leaves its strategy holding the lock for one TTL. */
  lemma GrantHolds(r: Rails, o: Order, w: World, c: Clock)
    requires r.lockTtl > 0.0 && CheckOrder(r, o, w, c).1.Accepted?
    ensures HeldBy(CheckOrder(r, o, w, c).0, LockKey(o.symbol),
                   if o.strategyId != "" then o.strategyId else UNKNOWN, c.lock + r.lockTtl)
  {
    hide Rules, Allows, AfterAllow, LockKey, Breach, Peak;
  }

  lemma LocksAfterCheck(r: Rails, o: Order, w: World, c: Clock)
    ensures var r' := CheckOrder(r, o, w, c).0;
            && r'.lockTtl == r.lockTtl
            && (CheckOrder(r, o, w, c).1.Rejected? ==> r'.locks == r.locks)
            && (CheckOrder(r, o, w, c).1.Accepted? ==>
                  && GrantsLock(r, LockKey(o.symbol), o.strategyId, c.lock)
                  && forall k :: k in r.locks && k != LockKey(o.symbol) ==>
                       k in r'.locks && r'.locks[k] == r.locks[k])
  {
    hide Rules, Allows, AfterAllow, LockKey, Breach, Peak;
  }

  /** Within its lease a holder keeps the lock, and every check accepted on the key is its own. */
  lemma {:induction false} LeaseIsExclusive(r: Rails, ops: seq<Op>, key: string, s: string, until: real)
    requires HeldBy(r, key, s, until) && WithinLease(r, ops, key, until)
    ensures HeldBy(Run(r, ops), key, s, LeaseEnd(r, ops, key, until))
    ensures Run(r, ops).lockTtl == r.lockTtl
  {
    if ops != [] {
      var init, op := ops[..|ops| - 1], ops[|ops| - 1];
      hide Next, Accepts, ChecksKey;
      LeaseIsExclusive(r, init, key, s, until);
      LeaseStep(Run(r, init), op, key, s, LeaseEnd(r, init, key, until));
    }
  }

  lemma LeaseStep(r: Rails, op: Op, key: string, s: string, until: real)
    requires HeldBy(r, key, s, until)
    requires op.Release? ==> op.symbol == "" || LockKey(op.symbol) != key
    requires ChecksKey(op, key) ==> op.clock.lock < until
    ensures HeldBy(Next(r, op), key, s,
                   if ChecksKey(op, key) && Accepts(r, op) then op.clock.lock + r.lockTtl else until)
    ensures Next(r, op).lockTtl == r.lockTtl
  {
    hide Prune, ErrorRate, CheckOrder, LockKey, Breach, Peak;
    if op.Check? {
      LocksAfterCheck(r, op.order, op.world, op.clock);
      if Accepts(r, op) {
        GrantHolds(r, op.order, op.world, op.clock);
      }
    }
  }

  /**
   * Exclusivity: from a grant to a named strategy until release or expiry after its
   * last renewal, every check accepted on that symbol belongs to that strategy.
   */
  lemma LockExclusivity(r: Rails, o: Order, w: World, c: Clock, ops: seq<Op>, later: Op)
    requires r.lockTtl > 0.0 && o.strategyId != "" && CheckOrder(r, o, w, c).1.Accepted?
    requires var granted := CheckOrder(r, o, w, c).0;
             && WithinLease(granted, ops + [later], LockKey(o.symbol), c.lock + r.lockTtl)
             && ChecksKey(later, LockKey(o.symbol)) && Accepts(Run(granted, ops), later)
    ensures later.order.strategyId == o.strategyId
  {
    hide CheckOrder, LockKey;
    var granted, key := CheckOrder(r, o, w, c).0, LockKey(o.symbol);
    GrantHolds(r, o, w, c);
    LocksAfterCheck(r, o, w, c);
    assert (ops + [later])[..|ops|] == ops;
    LeaseIsExclusive(granted, ops, key, o.strategyId, c.lock + r.lockTtl);
    LocksAfterCheck(Run(granted, ops), later.order, later.world, later.clock);
  }

  /** An anonymous holder blocks everyone on the symbol, itself included, but a strategy named "unknown". */
  lemma AnonymousBlocks(r: Rails, o: Order, w: World, c: Clock, ops: seq<Op>, later: Op)
    requires r.lockTtl > 0.0 && o.strategyId == "" && CheckOrder(r, o, w, c).1.Accepted?
    requires var granted := CheckOrder(r, o, w, c).0;
             && WithinLease(granted, ops + [later], LockKey(o.symbol), c.lock + r.lockTtl)
             && ChecksKey(later, LockKey(o.symbol))
    ensures later.order.strategyId != UNKNOWN ==> !Accepts(Run(CheckOrder(r, o, w, c).0, ops), later)
  {
    hide CheckOrder, LockKey;
    var granted, key := CheckOrder(r, o, w, c).0, LockKey(o.symbol);
    GrantHolds(r, o, w, c);
    LocksAfterCheck(r, o, w, c);
    assert (ops + [later])[..|ops|] == ops;
    LeaseIsExclusive(granted, ops, key, UNKNOWN, c.lock + r.lockTtl);
    LocksAfterCheck(Run(granted, ops), later.order, later.world, later.clock);
  }

  /** The lock takes an anonymous holder's lease for that of a strategy which calls itself "unknown". */
  lemma UnknownTakesOver(r: Rails, key: string, until: real, now: real)
    requires HeldBy(r, key, UNKNOWN, until) && now < until
    ensures GrantsLock(r, key, UNKNOWN, now)
    ensures forall s :: GrantsLock(r, key, s, now) <==> s == UNKNOWN
  {
  }

  // ---- the rate limit ----

  /** The operation is a live check that gets as far as the limiter. */
  ghost predicate CallsLimiter(r: Rails, op: Op) {
    && op.Check? && !op.order.dryRun
    && Gate(r, op.order, op.world, op.clock.breaker).None? && Rules(op.order, op.world, r.cfg).None?
    && Breach(AfterGate(r, op.order, op.world, op.clock.breaker), op.world.equity).None?
  }

  /** The clock readings of the limiter calls of a run. */
  ghost function LimiterCalls(r: Rails, ops: seq<Op>): seq<real> {
    if ops == [] then []
    else
      var init, op := ops[..|ops| - 1], ops[|ops| - 1];
      if CallsLimiter(Run(r, init), op) then LimiterCalls(r, init) + [op.clock.rate] else LimiterCalls(r, init)
  }

  /** The rate readings of the accepted orders, dry runs left out. */
  ghost function AcceptedTimes(r: Rails, ops: seq<Op>): seq<real> {
    if ops == [] then []
    else
      var init, op := ops[..|ops| - 1], ops[|ops| - 1];
      if Accepts(Run(r, init), op) && !op.order.dryRun then AcceptedTimes(r, init) + [op.clock.rate]
      else AcceptedTimes(r, init)
  }

  lemma CheckLimiter(r: Rails, o: Order, w: World, c: Clock)
    ensures CheckOrder(r, o, w, c).0.limiter
      == if CallsLimiter(r, Check(o, w, c)) then AfterAllow(r.limiter, c.rate) else r.limiter
  {
    hide Rules, Gate, Breach, Refresh, Allows, GrantsLock, AfterAllow, LockKey;
    RefreshKeepsLimiter(AfterGate(r, o, w, c.breaker), w.equity, c.refresh);
  }

  lemma RefreshKeepsLimiter(r: Rails, equity: Option<real>, now: real)
    ensures Refresh(r, equity, now).limiter == r.limiter
  {
    hide Breach, Peak;
  }

  lemma AcceptedCalls(r: Rails, op: Op)
    requires Accepts(r, op) && !op.order.dryRun
    ensures CallsLimiter(r, op) && Allows(r.limiter, op.clock.rate)
  {
    hide CheckOrder, Rules, Allows, GrantsLock, LockKey, DrawdownPct;
    AcceptedIff(r, op.order, op.world, op.clock);
  }

  lemma StepLimiter(r: Rails, op: Op)
    ensures Next(r, op).limiter == if CallsLimiter(r, op) then AfterAllow(r.limiter, op.clock.rate) else r.limiter
    ensures Accepts(r, op) && !op.order.dryRun ==> CallsLimiter(r, op) && Allows(r.limiter, op.clock.rate)
  {
    hide CheckOrder, Refresh, RecordResult, AfterAllow, Allows;
    match op
    case Check(o, w, c) =>
      CheckLimiter(r, o, w, c);
      if Accepts(r, op) && !o.dryRun {
        AcceptedCalls(r, op);
      }
    case RefreshOp(equity, now) => RefreshKeepsLimiter(r, equity, now);
    case Record(ok, now) => RecordKeepsLimiter(r, ok, now);
    case _ =>
  }

  lemma RecordKeepsLimiter(r: Rails, ok: bool, now: real)
    ensures RecordResult(r, ok, now).limiter == r.limiter
  {
    hide Prune, ErrorRate;
  }

  lemma {:induction false} LimiterOverRun(r: Rails, t0: real, ops: seq<Op>)
    requires r.limiter.events == [] && Chronological(t0, ops)
    ensures Run(r, ops).limiter == RunLimiter(r.limiter.maxPerMin, LimiterCalls(r, ops))
    ensures Ascending(LimiterCalls(r, ops), Itself())
    ensures UpTo(LimiterCalls(r, ops), EndTime(t0, ops))
  {
    if ops != [] {
      var init, op := ops[..|ops| - 1], ops[|ops| - 1];
      hide Next, CallsLimiter, Prune, AfterAllow, Ascending, UpTo, Run;
      LimiterOverRun(r, t0, init);
      var mid, calls := Run(r, init), LimiterCalls(r, init);
      assert Run(r, ops) == Next(mid, op) by { RunSnoc(r, ops); }
      StepLimiter(mid, op);
      UpToLater(calls, EndTime(t0, init), EndTime(t0, ops)) by { TimeForward(t0, ops); }
      if CallsLimiter(mid, op) {
        CallsAreChecks(mid, op);
        TimeForward(t0, ops);
        var now := op.clock.rate;
        assert (calls + [now])[..|calls|] == calls;
        AscendingSnoc(calls, EndTime(t0, init), now);
        UpToLater(calls + [now], now, EndTime(t0, ops));
      }
    } else {
      NoCalls(r, t0);
    }
  }

  lemma NoCalls(r: Rails, t0: real)
    requires r.limiter.events == []
    ensures RunLimiter(r.limiter.maxPerMin, []) == r.limiter && Run(r, []) == r
    ensures Ascending<real>([], Itself()) && UpTo([], t0)
  {
  }

  lemma RunSnoc(r: Rails, ops: seq<Op>)
    requires ops != []
    ensures Run(r, ops) == Next(Run(r, ops[..|ops| - 1]), ops[|ops| - 1])
  {
    hide Next;
  }

  lemma TimeForward(t0: real, ops: seq<Op>)
    requires ops != [] && Chronological(t0, ops)
    ensures EndTime(t0, ops[..|ops| - 1]) <= EndTime(t0, ops)
    ensures ops[|ops| - 1].Check? ==>
              EndTime(t0, ops[..|ops| - 1]) <= ops[|ops| - 1].clock.rate <= EndTime(t0, ops)
  {
  }

  lemma UpToLater(q: seq<real>, hi: real, hi': real)
    requires UpTo(q, hi) && hi <= hi'
    ensures UpTo(q, hi')
  {
  }

  lemma AscendingSnoc(q: seq<real>, hi: real, x: real)
    requires Ascending(q, Itself()) && UpTo(q, hi) && hi <= x
    ensures Ascending(q + [x], Itself()) && UpTo(q + [x], x)
  {
  }

  lemma CallsAreChecks(r: Rails, op: Op)
    ensures CallsLimiter(r, op) ==> op.Check?
  {
  }

  /** Accepted orders are limiter acceptances, so at most as many fall in any interval. */
  lemma {:induction false} OrdersWithinAllowances(r: Rails, t0: real, ops: seq<Op>, p: real -> bool)
    requires r.limiter.events == [] && Chronological(t0, ops)
    ensures |Filter(AcceptedTimes(r, ops), p)|
         <= |Filter(SlidingWindow.Accepted(r.limiter.maxPerMin, LimiterCalls(r, ops)), p)|
  {
    if ops != [] {
      var init, op := ops[..|ops| - 1], ops[|ops| - 1];
      hide Next, CallsLimiter, Prune, AfterAllow, Allows, Accepts, Filter, SlidingWindow.Accepted, RunLimiter;
      OrdersWithinAllowances(r, t0, init, p);
      var mid, calls, max := Run(r, init), LimiterCalls(r, init), r.limiter.maxPerMin;
      StepLimiter(mid, op);
      LimiterOverRun(r, t0, init);
      LimiterOverRun(r, t0, ops);
      if CallsLimiter(mid, op) {
        var past, now := SlidingWindow.Accepted(max, calls), op.clock.rate;
        LimiterRefinesHistory(max, calls, now);
        AcceptedGrows(max, calls, now);
        FilterSnoc(past, now, p);
        FilterSnoc(AcceptedTimes(r, init), now, p);
      }
    }
  }

  lemma AcceptedGrows(max: int, calls: seq<real>, now: real)
    ensures SlidingWindow.Accepted(max, calls + [now]) == SlidingWindow.Accepted(max, calls)
         || SlidingWindow.Accepted(max, calls + [now]) == SlidingWindow.Accepted(max, calls) + [now]
  {
    assert (calls + [now])[..|calls|] == calls;
  }

  /** No closed minute of any run of a new object holds more than the limit of accepted orders. */
  lemma RateOverRun(r: Rails, t0: real, ops: seq<Op>, a: real)
    requires r.limiter.events == [] && Chronological(t0, ops)
    ensures |Filter(AcceptedTimes(r, ops), Within(a, a + WINDOW))|
         <= if r.limiter.maxPerMin < 0 then 0 else r.limiter.maxPerMin
  {
    LimiterOverRun(r, t0, ops);
    OrdersWithinAllowances(r, t0, ops, Within(a, a + WINDOW));
    WindowBound(r.limiter.maxPerMin, LimiterCalls(r, ops), a);
  }

  /** The limiter lets a live check through iff it let fewer than its limit through in the last minute. */
  lemma RateMeans(r: Rails, t0: real, ops: seq<Op>, o: Order, w: World, c: Clock)
    requires r.limiter.events == [] && Chronological(t0, ops + [Check(o, w, c)])
    ensures Allows(Run(r, ops).limiter, c.rate) <==>
      |Filter(SlidingWindow.Accepted(r.limiter.maxPerMin, LimiterCalls(r, ops)), Within(c.rate - 60.0, c.rate))|
      < r.limiter.maxPerMin
  {
    hide Allows, Filter, SlidingWindow.Accepted, RunLimiter, Run, LimiterCalls, Ascending;
    var all := ops + [Check(o, w, c)];
    assert all[..|ops|] == ops && all[|ops|] == Check(o, w, c);
    LimiterOverRun(r, t0, ops);
    AscendingSnoc(LimiterCalls(r, ops), EndTime(t0, ops), c.rate);
    LimiterRefinesHistory(r.limiter.maxPerMin, LimiterCalls(r, ops), c.rate);
  }
}
