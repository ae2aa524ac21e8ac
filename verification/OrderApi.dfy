/**
 * The order endpoints of engine/app.py over the idempotency cache and the pending
 * lock: each request is two atomic steps, split at the await on the router. Steps of
 * different requests interleave freely.
 */
module OrderApi {
  import opened Basics
  import opened Symbols
  import opened SlidingWindow
  import opened RiskRails
  import RiskLaws

  /** An empty idempotency key stands for a request without the header. */
  datatype Request = Request(order: Order, venue: string, idemKey: string)

  /** An order handed to the router and not answered yet. */
  datatype Flight = Flight(symbol: string, venue: string, notional: real, idemKey: string, began: real)

  /** A row of the idempotency table; the response body is the flight it answers. */
  datatype Row = Row(response: Flight, createdAt: real)

  /** What came of the await: the router failed, or executed and the bookkeeping after it did or did not raise. */
  datatype Outcome = RouterFailed | BookkeepingFailed | Succeeded

  /** A successful execution by the router. */
  datatype Execution = Execution(idemKey: string, symbol: string, began: real, finished: real)

  datatype Api = Api(
    rails: Rails, ttl: real, cache: map<string, Row>, flights: map<nat, Flight>, log: seq<Execution>)

  datatype Reply = Cached(response: Flight) | Refused(code: Code) | Submitted

  function EstimatedNotional(o: Order): real {
    if Amount(o.quote) != 0.0 then Amount(o.quote)
    else if Amount(o.quantity) != 0.0 then Amount(o.quantity) else 1.0
  }

  /** `CACHE.get`: a row younger than the time to live. */
  function Lookup(cache: map<string, Row>, ttl: real, key: string, now: real): Option<Row> {
    if key in cache && cache[key].createdAt > now - ttl then Some(cache[key]) else None
  }

  function Answered(s: Api, q: Request, now: real): Option<Row> {
    if q.idemKey == "" then None else Lookup(s.cache, s.ttl, q.idemKey, now)
  }

  ghost function Begin(s: Api, id: nat, q: Request, w: World, c: Clock, now: real): (Api, Reply) {
    var hit := Answered(s, q, now);
    if hit.Some? then (s, Cached(hit.value.response))
    else
      var (rails, d) := CheckOrder(s.rails, q.order, w, c);
      if d.Rejected? then (s.(rails := rails), Refused(d.code))
      else
        var n := EstimatedNotional(q.order);
        (s.(rails := RegisterPending(rails, q.order.symbol, n),
            flights := s.flights[id := Flight(q.order.symbol, q.venue, n, q.idemKey, now)]), Submitted)
  }

  /** After the await: store the response, and in any case clear the pending order. */
  function Finish(s: Api, id: nat, outcome: Outcome, now: real): Api
    requires id in s.flights
  {
    var g := s.flights[id];
    s.(rails := ClearPending(s.rails, Qualify(g.symbol, g.venue), g.notional),
       flights := s.flights - {id},
       cache := if outcome.Succeeded? && g.idemKey != "" then s.cache[g.idemKey := Row(g, now)] else s.cache,
       log := if outcome.RouterFailed? then s.log else s.log + [Execution(g.idemKey, g.symbol, g.began, now)])
  }

  function Expire(s: Api, now: real): Api {
    s.(cache := map k | k in s.cache && !(s.cache[k].createdAt <= now - s.ttl) :: s.cache[k])
  }

  datatype Step =
    | BeginStep(id: nat, request: Request, world: World, clock: Clock, now: real)
    | FinishStep(id: nat, outcome: Outcome, now: real)
    | ExpireStep(now: real)
    | RailsStep(op: RiskLaws.Op)

  /** A step that can happen: fresh request ids, answers to open flights, and pending orders left to the endpoints. */
  predicate Enabled(s: Api, x: Step) {
    match x
    case BeginStep(id, _, _, _, _) => id !in s.flights
    case FinishStep(id, _, _) => id in s.flights
    case ExpireStep(_) => true
    case RailsStep(op) => !op.Register? && !op.Clear?
  }

  ghost function Next(s: Api, x: Step): Api
    requires Enabled(s, x)
  {
    match x
    case BeginStep(id, q, w, c, now) => Begin(s, id, q, w, c, now).0
    case FinishStep(id, outcome, now) => Finish(s, id, outcome, now)
    case ExpireStep(now) => Expire(s, now)
    case RailsStep(op) => s.(rails := RiskLaws.Next(s.rails, op))
  }

  function Opening(rails: Rails, ttl: real): Api { Api(rails, ttl, map[], map[], []) }

  class OrderService {
    const rails: RiskRails
    const ttl: real
    var cache: map<string, Row>
    var flights: map<nat, Flight>
    ghost var log: seq<Execution>

    ghost function State(): Api
      reads this, rails, rails.ratelimiter
    {
      Api(rails.State(), ttl, cache, flights, log)
    }

    constructor (rails: RiskRails, ttl: real)
      ensures this.rails == rails && State() == Opening(rails.State(), ttl)
    {
      this.rails, this.ttl := rails, ttl;
      cache, flights, log := map[], map[], [];
    }

    method Get(key: string, now: real) returns (row: Option<Row>)
      ensures row == Lookup(cache, ttl, key, now)
    {
      var cutoff := now - ttl;
      row := if key in cache && cache[key].createdAt > cutoff then Some(cache[key]) else None;
    }

    method Cleanup(now: real)
      modifies this`cache
      ensures State() == Expire(old(State()), now)
    {
      var cutoff := now - ttl;
      cache := map k | k in cache && !(cache[k].createdAt <= cutoff) :: cache[k];
    }

    method Submit(id: nat, q: Request, w: World, c: Clock, now: real) returns (reply: Reply)
      requires id !in flights
      modifies this, rails, rails.ratelimiter
      ensures State() == Begin(old(State()), id, q, w, c, now).0
      ensures reply == Begin(old(State()), id, q, w, c, now).1
    {
      hide CheckOrder;
      if q.idemKey != "" {
        var hit := Get(q.idemKey, now);
        if hit.Some? {
          return Cached(hit.value.response);
        }
      }
      var d := rails.Check(q.order, w, c);
      if d.Rejected? {
        return Refused(d.code);
      }
      var n := EstimatedNotional(q.order);
      rails.Register(q.order.symbol, n);
      flights := flights[id := Flight(q.order.symbol, q.venue, n, q.idemKey, now)];
      return Submitted;
    }

    method Resume(id: nat, outcome: Outcome, now: real)
      requires id in flights
      modifies this, rails`pending
      ensures State() == Finish(old(State()), id, outcome, now)
    {
      var g := flights[id];
      if !outcome.RouterFailed? {
        log := log + [Execution(g.idemKey, g.symbol, g.began, now)];
      }
      if outcome.Succeeded? && g.idemKey != "" {
        cache := cache[g.idemKey := Row(g, now)];
      }
      flights := flights - {id};
      rails.Clear(Qualify(g.symbol, g.venue), g.notional);
    }
  }

  // ---- mutual exclusion ----

  /** The pending map is exactly the orders in flight, one per symbol, all venue-qualified. */
  ghost predicate PendingIsFlights(s: Api) {
    && (forall i :: i in s.flights ==> HasDot(s.flights[i].symbol))
    && (forall i, j :: i in s.flights && j in s.flights && s.flights[i].symbol == s.flights[j].symbol ==> i == j)
    && (forall i :: i in s.flights ==>
          s.flights[i].symbol in s.rails.pending && s.rails.pending[s.flights[i].symbol] == s.flights[i].notional)
    && (forall k :: k in s.rails.pending ==> exists i :: i in s.flights && s.flights[i].symbol == k)
  }

  /** An accepted check found nothing pending on the symbol, and no check touches the pending map. */
  lemma CheckAndPending(r: Rails, o: Order, w: World, c: Clock)
    ensures CheckOrder(r, o, w, c).0.pending == r.pending
    ensures CheckOrder(r, o, w, c).1.Accepted? ==> o.symbol !in r.pending
  {
    hide Rules, Allows, GrantsLock, AfterAllow, LockKey, Breach, Peak;
  }

  lemma OpKeepsPending(r: Rails, op: RiskLaws.Op)
    requires !op.Register? && !op.Clear?
    ensures RiskLaws.Next(r, op).pending == r.pending
  {
    hide CheckOrder, Prune, ErrorRate, Breach, Peak;
    if op.Check? {
      CheckAndPending(r, op.order, op.world, op.clock);
    }
  }

  lemma BeginKeepsPending(s: Api, id: nat, q: Request, w: World, c: Clock, now: real)
    requires PendingIsFlights(s) && id !in s.flights && HasDot(q.order.symbol)
    ensures PendingIsFlights(Begin(s, id, q, w, c, now).0)
  {
    hide CheckOrder, HasDot, EstimatedNotional;
    CheckAndPending(s.rails, q.order, w, c);
    var s' := Begin(s, id, q, w, c, now).0;
    if s'.flights != s.flights {
      assert s'.flights[id].symbol == q.order.symbol;
      forall k | k in s'.rails.pending
        ensures exists i :: i in s'.flights && s'.flights[i].symbol == k
      {
        if k != q.order.symbol {
          var i :| i in s.flights && s.flights[i].symbol == k;
          assert i in s'.flights;
        }
      }
    }
  }

  lemma FinishKeepsPending(s: Api, id: nat, outcome: Outcome, now: real)
    requires PendingIsFlights(s) && id in s.flights
    ensures PendingIsFlights(Finish(s, id, outcome, now))
  {
    hide HasDot;
    var s' := Finish(s, id, outcome, now);
    assert Qualify(s.flights[id].symbol, s.flights[id].venue) == s.flights[id].symbol;
    forall k | k in s'.rails.pending
      ensures exists i :: i in s'.flights && s'.flights[i].symbol == k
    {
      var i :| i in s.flights && s.flights[i].symbol == k;
      assert i in s'.flights;
    }
  }

  predicate Qualified(x: Step) { x.BeginStep? ==> HasDot(x.request.order.symbol) }

  ghost predicate Possible(s: Api, xs: seq<Step>)
    decreases |xs|, 0
  {
    xs == [] || (Possible(s, xs[..|xs| - 1]) && Enabled(Run(s, xs[..|xs| - 1]), xs[|xs| - 1]))
  }

  ghost function Run(s: Api, xs: seq<Step>): Api
    requires Possible(s, xs)
    decreases |xs|, 1
  {
    if xs == [] then s else Next(Run(s, xs[..|xs| - 1]), xs[|xs| - 1])
  }

  lemma StepKeepsPending(s: Api, x: Step)
    requires PendingIsFlights(s) && Enabled(s, x) && Qualified(x)
    ensures PendingIsFlights(Next(s, x))
  {
    hide Begin, Finish, HasDot, RiskLaws.Next;
    match x
    case BeginStep(id, q, w, c, now) => BeginKeepsPending(s, id, q, w, c, now);
    case FinishStep(id, outcome, now) => FinishKeepsPending(s, id, outcome, now);
    case ExpireStep(_) =>
    case RailsStep(op) => OpKeepsPending(s.rails, op);
  }

  /** At most one order in flight per symbol, and the pending map tracks them, under every interleaving. */
  lemma {:induction false} MutualExclusion(rails: Rails, ttl: real, xs: seq<Step>)
    requires rails.pending == map[] && Possible(Opening(rails, ttl), xs)
    requires forall i :: 0 <= i < |xs| ==> Qualified(xs[i])
    ensures PendingIsFlights(Run(Opening(rails, ttl), xs))
  {
    if xs != [] {
      hide Next, PendingIsFlights, Qualified;
      MutualExclusion(rails, ttl, xs[..|xs| - 1]);
      StepKeepsPending(Run(Opening(rails, ttl), xs[..|xs| - 1]), xs[|xs| - 1]);
    } else {
      assert PendingIsFlights(Opening(rails, ttl));
    }
  }

  /** A request that comes and goes on its own restores the pending map exactly when its symbol is qualified. */
  lemma RestoresPendingIff(s: Api, id: nat, q: Request, w: World, c: Clock, now: real, outcome: Outcome, later: real)
    requires s.rails.pending == map[] && id !in s.flights && EstimatedNotional(q.order) > 0.0
    requires Begin(s, id, q, w, c, now).1.Submitted?
    ensures Finish(Begin(s, id, q, w, c, now).0, id, outcome, later).rails.pending == map[] <==> HasDot(q.order.symbol)
  {
    hide CheckOrder, EstimatedNotional;
    CheckAndPending(s.rails, q.order, w, c);
    var o := q.order;
    var s1 := Begin(s, id, q, w, c, now).0;
    var cleared := Finish(s1, id, outcome, later).rails.pending;
    assert s1.rails.pending == map[o.symbol := EstimatedNotional(o)];
    if !HasDot(o.symbol) {
      assert |Qualify(o.symbol, q.venue)| > |o.symbol|;
      assert o.symbol in cleared;
    } else {
      assert cleared == map[];
    }
  }

  /** Where everything else allows an order, the pending map decides, by exact spelling. */
  lemma PendingDecides(r: Rails, o: Order, w: World, c: Clock)
    requires CheckOrder(r.(pending := map[]), o, w, c).1.Accepted?
    ensures CheckOrder(r, o, w, c).1.Accepted? <==> o.symbol !in r.pending
  {
    hide CheckOrder, Rules, Allows, LockKey, DrawdownPct;
    RiskLaws.AcceptedIff(r.(pending := map[]), o, w, c);
    RiskLaws.AcceptedIff(r, o, w, c);
  }

  /**
   * An unanswered request that nothing else stops is submitted exactly when no order in
   * flight has its symbol, spelled as it is.
   */
  lemma SubmittedIff(s: Api, id: nat, q: Request, w: World, c: Clock, now: real)
    requires PendingIsFlights(s) && Answered(s, q, now).None?
    requires CheckOrder(s.rails.(pending := map[]), q.order, w, c).1.Accepted?
    ensures Begin(s, id, q, w, c, now).1.Submitted?
      <==> forall i :: i in s.flights ==> s.flights[i].symbol != q.order.symbol
  {
    hide CheckOrder, HasDot, EstimatedNotional;
    PendingDecides(s.rails, q.order, w, c);
  }

  /**
   * So a bare symbol joins an order in flight on the same symbol, qualified: two orders
   * are then in flight on it.
   */
  lemma BareSymbolPassesLock(s: Api, id: nat, q: Request, w: World, c: Clock, now: real, other: nat)
    requires PendingIsFlights(s) && Answered(s, q, now).None? && id !in s.flights
    requires CheckOrder(s.rails.(pending := map[]), q.order, w, c).1.Accepted?
    requires !HasDot(q.order.symbol)
    requires other in s.flights && s.flights[other].symbol == Qualify(q.order.symbol, q.venue)
    ensures var (s', reply) := Begin(s, id, q, w, c, now);
            && reply.Submitted? && id in s'.flights && other in s'.flights && id != other
            && Qualify(s'.flights[id].symbol, q.venue) == Qualify(s'.flights[other].symbol, q.venue)
  {
    hide CheckOrder, EstimatedNotional;
    assert forall i :: i in s.flights ==> HasDot(s.flights[i].symbol);
    assert HasDot(Qualify(q.order.symbol, q.venue));
    SubmittedIff(s, id, q, w, c, now);
  }

  /** The gate itself: the bare spelling passes where the qualified one is refused. */
  lemma BareSymbolPassesGate(r: Rails, o: Order, w: World, venue: string, n: real, now: real)
    requires !HasDot(o.symbol) && r.pending == map[Qualify(o.symbol, venue) := n]
    requires Gate(r.(pending := map[]), o, w, now).None?
    ensures Gate(r, o, w, now).None?
    ensures Gate(r, o.(symbol := Qualify(o.symbol, venue)), w, now) == Some(PendingOrder)
  {
    assert |Qualify(o.symbol, venue)| > |o.symbol|;
  }

  // ---- at most once ----

  /** Executions of one key are at least a time to live apart, and the cache remembers each that long. */
  ghost predicate OncePerTtl(s: Api, clock: real) {
    && (forall i :: 0 <= i < |s.log| ==> s.log[i].finished <= clock)
    && (forall i :: 0 <= i < |s.log| && s.log[i].idemKey != "" ==>
          Remembered(s, s.log[i]) || s.log[i].finished + s.ttl <= clock)
    && (forall i, g :: 0 <= i < |s.log| && g in s.flights && s.log[i].idemKey == s.flights[g].idemKey != "" ==>
          s.log[i].finished + s.ttl <= s.flights[g].began)
    && (forall i, j :: 0 <= i < j < |s.log| && s.log[i].idemKey == s.log[j].idemKey != "" ==>
          s.log[i].finished + s.ttl <= s.log[j].began)
  }

  predicate Remembered(s: Api, e: Execution) {
    e.idemKey in s.cache && s.cache[e.idemKey].createdAt >= e.finished
  }

  /** Requests sharing a key name one symbol. */
  ghost predicate KeysNameSymbols(s: Api, symbolOf: string -> string) {
    forall i :: i in s.flights && s.flights[i].idemKey != "" ==>
      s.flights[i].symbol == symbolOf(s.flights[i].idemKey)
  }

  predicate Disciplined(x: Step, symbolOf: string -> string) {
    && Qualified(x)
    && (x.BeginStep? && x.request.idemKey != "" ==> x.request.order.symbol == symbolOf(x.request.idemKey))
    && (x.FinishStep? ==> !x.outcome.BookkeepingFailed?)
  }

  function TimeOf(x: Step, clock: real): real {
    match x
    case BeginStep(_, _, _, _, now) => now
    case FinishStep(_, _, now) => now
    case ExpireStep(now) => now
    case RailsStep(_) => clock
  }

  lemma BeginOnce(s: Api, id: nat, q: Request, w: World, c: Clock, now: real, clock: real)
    requires OncePerTtl(s, clock) && id !in s.flights && clock <= now
    ensures OncePerTtl(Begin(s, id, q, w, c, now).0, now)
  {
    hide CheckOrder, EstimatedNotional;
    var s' := Begin(s, id, q, w, c, now).0;
    assert forall e :: Remembered(s', e) <==> Remembered(s, e);
    if s'.flights != s.flights {
      forall i | 0 <= i < |s.log| && s.log[i].idemKey == q.idemKey != ""
        ensures s.log[i].finished + s.ttl <= now
      {
        assert Remembered(s, s.log[i]) || s.log[i].finished + s.ttl <= clock;
      }
    }
  }

  lemma FinishOnce(s: Api, id: nat, outcome: Outcome, now: real, clock: real, symbolOf: string -> string)
    requires OncePerTtl(s, clock) && PendingIsFlights(s) && KeysNameSymbols(s, symbolOf)
    requires id in s.flights && clock <= now && !outcome.BookkeepingFailed?
    ensures OncePerTtl(Finish(s, id, outcome, now), now)
  {
    hide HasDot, Qualify, ClearPending, PendingIsFlights, KeysNameSymbols;
    var s', g := Finish(s, id, outcome, now), s.flights[id];
    OnlyFlightOfKey(s, id, symbolOf);
    forall i | 0 <= i < |s.log| && s.log[i].idemKey != ""
      ensures Remembered(s', s.log[i]) || s.log[i].finished + s.ttl <= now
    {
      assert Remembered(s, s.log[i]) || s.log[i].finished + s.ttl <= clock;
    }
    assert s'.log == s.log || s'.log == s.log + [Execution(g.idemKey, g.symbol, g.began, now)];
    if s'.log != s.log {
      assert g.idemKey != "" ==> Remembered(s', s'.log[|s.log|]);
    }
  }

  /** No other order in flight carries the same key. */
  lemma OnlyFlightOfKey(s: Api, id: nat, symbolOf: string -> string)
    requires PendingIsFlights(s) && KeysNameSymbols(s, symbolOf) && id in s.flights
    ensures forall h :: h in s.flights && s.flights[h].idemKey == s.flights[id].idemKey != "" ==> h == id
  {
    hide HasDot;
    forall h | h in s.flights && s.flights[h].idemKey == s.flights[id].idemKey != ""
      ensures h == id
    {
      assert s.flights[h].symbol == s.flights[id].symbol;
    }
  }

  lemma ExpireOnce(s: Api, now: real, clock: real)
    requires OncePerTtl(s, clock) && clock <= now
    ensures OncePerTtl(Expire(s, now), now)
  {
    var s' := Expire(s, now);
    forall i | 0 <= i < |s.log| && s.log[i].idemKey != ""
      ensures Remembered(s', s.log[i]) || s.log[i].finished + s.ttl <= now
    {
      assert Remembered(s, s.log[i]) || s.log[i].finished + s.ttl <= clock;
    }
  }

  /** The clock of a run, which never goes back. */
  function ClockAfter(t0: real, xs: seq<Step>): real {
    if xs == [] then t0 else TimeOf(xs[|xs| - 1], ClockAfter(t0, xs[..|xs| - 1]))
  }

  predicate Timely(t0: real, xs: seq<Step>) {
    xs == [] ||
    var before := ClockAfter(t0, xs[..|xs| - 1]);
    Timely(t0, xs[..|xs| - 1]) && before <= TimeOf(xs[|xs| - 1], before)
  }

  ghost predicate Sound(s: Api, clock: real, symbolOf: string -> string) {
    PendingIsFlights(s) && OncePerTtl(s, clock) && KeysNameSymbols(s, symbolOf)
  }

  lemma SoundStep(s: Api, x: Step, clock: real, symbolOf: string -> string)
    requires Sound(s, clock, symbolOf) && Enabled(s, x) && Disciplined(x, symbolOf)
    requires clock <= TimeOf(x, clock)
    ensures Sound(Next(s, x), TimeOf(x, clock), symbolOf)
  {
    hide PendingIsFlights, OncePerTtl, CheckOrder, HasDot, EstimatedNotional, ClearPending, RiskLaws.Next;
    StepKeepsPending(s, x);
    match x
    case BeginStep(id, q, w, c, now) => BeginOnce(s, id, q, w, c, now, clock);
    case FinishStep(id, outcome, now) => FinishOnce(s, id, outcome, now, clock, symbolOf);
    case ExpireStep(now) => ExpireOnce(s, now, clock);
    case RailsStep(op) => SameBooks(s, Next(s, x), clock);
  }

  lemma SameBooks(s: Api, s': Api, clock: real)
    requires OncePerTtl(s, clock) && s' == s.(rails := s'.rails)
    ensures OncePerTtl(s', clock)
  {
    assert forall e :: Remembered(s', e) <==> Remembered(s, e);
  }

  lemma {:induction false} SoundRun(rails: Rails, ttl: real, t0: real, xs: seq<Step>, symbolOf: string -> string)
    requires rails.pending == map[] && Possible(Opening(rails, ttl), xs) && Timely(t0, xs)
    requires forall i :: 0 <= i < |xs| ==> Disciplined(xs[i], symbolOf)
    ensures Sound(Run(Opening(rails, ttl), xs), ClockAfter(t0, xs), symbolOf)
    ensures Run(Opening(rails, ttl), xs).ttl == ttl
  {
    if xs != [] {
      var init, x := xs[..|xs| - 1], xs[|xs| - 1];
      hide Sound, Disciplined, Next;
      SoundRun(rails, ttl, t0, init, symbolOf);
      SoundStep(Run(Opening(rails, ttl), init), x, ClockAfter(t0, init), symbolOf);
      NextKeepsTtl(Run(Opening(rails, ttl), init), x);
    } else {
      assert Sound(Opening(rails, ttl), t0, symbolOf);
    }
  }

  lemma NextKeepsTtl(s: Api, x: Step)
    requires Enabled(s, x)
    ensures Next(s, x).ttl == s.ttl
  {
    hide CheckOrder, RiskLaws.Next, ClearPending;
  }

  /**
   * At most once: under every interleaving of qualified requests whose keys name one
   * symbol each, and whose bookkeeping does not raise, two executions of one key are
   * a full time to live apart: the later began only after the earlier had expired.
   */
  lemma AtMostOncePerTtl(rails: Rails, ttl: real, t0: real, xs: seq<Step>, symbolOf: string -> string, i: nat, j: nat)
    requires rails.pending == map[] && Possible(Opening(rails, ttl), xs) && Timely(t0, xs)
    requires forall k :: 0 <= k < |xs| ==> Disciplined(xs[k], symbolOf)
    requires var log := Run(Opening(rails, ttl), xs).log;
             i < j < |log| && log[i].idemKey == log[j].idemKey != ""
    ensures var log := Run(Opening(rails, ttl), xs).log;
            log[i].finished + ttl <= log[j].began
  {
    hide Disciplined;
    SoundRun(rails, ttl, t0, xs, symbolOf);
  }

  /**
   * When a keyed request is answered after a flight under its key ends: for one TTL if router
   * and bookkeeping succeeded, and otherwise exactly when it was answered before.
   */
  lemma DeduplicatedIff(s: Api, id: nat, outcome: Outcome, now: real, q: Request, t: real)
    requires id in s.flights && s.flights[id].idemKey == q.idemKey != ""
    ensures Answered(Finish(s, id, outcome, now), q, t).Some?
      <==> if outcome.Succeeded? then t < now + s.ttl else Answered(s, q, t).Some?
  {
  }

  /**
   * A second symbol under the key of an order in flight: nothing is cached yet and the
   * pending lock is by symbol, so the second order joins the first.
   */
  lemma SharedKeyPasses(s: Api, id: nat, q: Request, w: World, c: Clock, now: real, other: nat)
    requires PendingIsFlights(s) && Answered(s, q, now).None? && id !in s.flights
    requires other in s.flights && s.flights[other].idemKey == q.idemKey != ""
    requires CheckOrder(s.rails.(pending := map[]), q.order, w, c).1.Accepted?
    requires forall i :: i in s.flights ==> s.flights[i].symbol != q.order.symbol
    ensures var (s', reply) := Begin(s, id, q, w, c, now);
            && reply.Submitted? && id in s'.flights && other in s'.flights && id != other
            && s'.flights[id].idemKey == s'.flights[other].idemKey
  {
    hide CheckOrder, HasDot, EstimatedNotional;
    SubmittedIff(s, id, q, w, c, now);
  }

  // ---- concrete runs in which exclusion and at-most-once fail ----

  lemma Extend(s: Api, xs: seq<Step>, x: Step)
    requires Possible(s, xs) && Enabled(Run(s, xs), x)
    ensures Possible(s, xs + [x]) && Run(s, xs + [x]) == Next(Run(s, xs), x)
  {
    assert (xs + [x])[..|xs|] == xs;
  }

  function ParRequest(symbol: string, venue: string, key: string): Request {
    Request(Order(symbol, "BUY", Some(10.0), None, "", "", false), venue, key)
  }

  function At(now: real): Clock { Clock(now, now, now, now) }

  function ParBegin(id: nat, symbol: string, venue: string, key: string, now: real): Step {
    BeginStep(id, ParRequest(symbol, venue, key), RiskLaws.ParWorld([]), At(now), now)
  }

  /** Idle rails of the concrete runs, with at most n calls of the limiter behind them. */
  predicate Quiet(s: Api, n: nat) {
    RiskLaws.Idle(s.rails.(limiter := Limiter(10, []))) && s.rails.cfg == RiskLaws.ParConfig()
    && s.rails.limiter.maxPerMin == 10 && |s.rails.limiter.events| <= n
  }

  lemma ParOrderPasses(symbol: string)
    ensures var o := ParRequest(symbol, "V", "").order;
      Rules(o, RiskLaws.ParWorld([]), RiskLaws.ParConfig()).None? && EstimatedNotional(o) == 10.0
  {
    var o, w := ParRequest(symbol, "V", "").order, RiskLaws.ParWorld([]);
    assert SymbolExposure(o, w) == TotalExposure(w) == VenueExposure(o, w) == 0.0;
    assert Abs(Delta(o, w)) == 10.0;
    RiskLaws.PlainQuotePasses(o, w, RiskLaws.ParConfig());
  }

  /** A begin step on quiet rails with nothing pending on the symbol puts the order in flight. */
  lemma ParBegins(s: Api, n: nat, id: nat, symbol: string, venue: string, key: string, now: real)
    requires Quiet(s, n) && n < 10 && symbol !in s.rails.pending && id !in s.flights
    requires Answered(s, ParRequest(symbol, venue, key), now).None?
    ensures var x := ParBegin(id, symbol, venue, key, now);
      && Enabled(s, x) && Quiet(Next(s, x), n + 1)
      && Next(s, x) == s.(rails := Next(s, x).rails,
                          flights := s.flights[id := Flight(symbol, venue, 10.0, key, now)])
      && Next(s, x).rails.pending == s.rails.pending[symbol := 10.0]
  {
    hide Rules, CheckOrder, AfterAllow;
    var q := ParRequest(symbol, venue, key);
    ParOrderPasses(symbol);
    RiskLaws.IdleAccepts(s.rails, q.order, RiskLaws.ParWorld([]), At(now));
  }

  /** A finish step clears the qualified symbol of the order, and leaves quiet rails quiet. */
  lemma ParFinishes(s: Api, n: nat, id: nat, outcome: Outcome, now: real)
    requires Quiet(s, n) && id in s.flights && s.flights[id].notional == 10.0
    requires var k := Qualify(s.flights[id].symbol, s.flights[id].venue);
      k !in s.rails.pending || s.rails.pending[k] == 10.0
    ensures var x, k := FinishStep(id, outcome, now), Qualify(s.flights[id].symbol, s.flights[id].venue);
      && Enabled(s, x) && Quiet(Next(s, x), n)
      && Next(s, x) == Finish(s, id, outcome, now) && Next(s, x).rails.pending == s.rails.pending - {k}
  {
    hide Qualify;
  }

  /** A new service over idle rails, with answers kept for 600. */
  function ParService(): Api { Opening(NewRails(RiskLaws.ParConfig(), 10, 0.0), 600.0) }

  /** Executions i < j of one key, the later begun before the answer of the earlier expired. */
  ghost predicate ExecutedTwice(s: Api, key: string) {
    exists i, j :: 0 <= i < j < |s.log| && s.log[i].idemKey == s.log[j].idemKey == key
      && s.log[j].began < s.log[i].finished + s.ttl
  }

  /** One key for two symbols: both are executed. */
  lemma SharedKeyRun()
    ensures var xs := [ParBegin(0, "A.V", "V", "k", 0.0), ParBegin(1, "B.V", "V", "k", 1.0),
                       FinishStep(0, Succeeded, 2.0), FinishStep(1, Succeeded, 3.0)];
      Possible(ParService(), xs) && ExecutedTwice(Run(ParService(), xs), "k")
  {
    hide Next, Quiet, Enabled, Run, Possible, ParBegin;
    var s0 := ParService();
    var x1, x2, x3, x4 := ParBegin(0, "A.V", "V", "k", 0.0), ParBegin(1, "B.V", "V", "k", 1.0),
      FinishStep(0, Succeeded, 2.0), FinishStep(1, Succeeded, 3.0);
    ServiceIsQuiet();
    ParBegins(s0, 0, 0, "A.V", "V", "k", 0.0);
    var s1 := Next(s0, x1);
    ParBegins(s1, 1, 1, "B.V", "V", "k", 1.0);
    var s2 := Next(s1, x2);
    Dotted();
    ParFinishes(s2, 2, 0, Succeeded, 2.0);
    var s3 := Next(s2, x3);
    ParFinishes(s3, 2, 1, Succeeded, 3.0);
    FourSteps(s0, x1, x2, x3, x4);
    var log := Next(s3, x4).log;
    assert log[0] == Execution("k", "A.V", 0.0, 2.0) && log[1] == Execution("k", "B.V", 1.0, 3.0);
  }

  /** Bookkeeping that raises after the router has executed: a retry is executed again. */
  lemma FailedBookkeepingRun()
    ensures var xs := [ParBegin(0, "A.V", "V", "k", 0.0), FinishStep(0, BookkeepingFailed, 1.0),
                       ParBegin(1, "A.V", "V", "k", 2.0), FinishStep(1, Succeeded, 3.0)];
      Possible(ParService(), xs) && ExecutedTwice(Run(ParService(), xs), "k")
  {
    hide Next, Quiet, Enabled, Run, Possible, ParBegin;
    var s0 := ParService();
    var x1, x2, x3, x4 := ParBegin(0, "A.V", "V", "k", 0.0), FinishStep(0, BookkeepingFailed, 1.0),
      ParBegin(1, "A.V", "V", "k", 2.0), FinishStep(1, Succeeded, 3.0);
    ServiceIsQuiet();
    Dotted();
    ParBegins(s0, 0, 0, "A.V", "V", "k", 0.0);
    var s1 := Next(s0, x1);
    ParFinishes(s1, 1, 0, BookkeepingFailed, 1.0);
    var s2 := Next(s1, x2);
    ParBegins(s2, 1, 1, "A.V", "V", "k", 2.0);
    var s3 := Next(s2, x3);
    ParFinishes(s3, 2, 1, Succeeded, 3.0);
    FourSteps(s0, x1, x2, x3, x4);
    var log := Next(s3, x4).log;
    assert log[0] == Execution("k", "A.V", 0.0, 1.0) && log[1] == Execution("k", "A.V", 2.0, 3.0);
  }

  /**
   * A bare order joins a qualified one and, when it finishes, clears the other's pending
   * entry: two orders on one qualified symbol, under one key, are then in flight, and
   * both are executed.
   */
  lemma BareSymbolRun()
    ensures var xs := [ParBegin(0, "A.V", "V", "k", 0.0), ParBegin(1, "A", "V", "", 1.0),
                       FinishStep(1, Succeeded, 2.0), ParBegin(2, "A.V", "V", "k", 3.0)];
      var ys := [FinishStep(0, Succeeded, 4.0), FinishStep(2, Succeeded, 5.0)];
      && Possible(ParService(), xs)
      && var mid := Run(ParService(), xs);
         && 0 in mid.flights && 2 in mid.flights && mid.flights[0].symbol == mid.flights[2].symbol == "A.V"
         && Possible(mid, ys) && ExecutedTwice(Run(mid, ys), "k")
  {
    hide Next, Quiet, Enabled, Run, Possible, ParBegin;
    var s0 := ParService();
    var x1, x2, x3, x4 := ParBegin(0, "A.V", "V", "k", 0.0), ParBegin(1, "A", "V", "", 1.0),
      FinishStep(1, Succeeded, 2.0), ParBegin(2, "A.V", "V", "k", 3.0);
    ServiceIsQuiet();
    Dotted();
    ParBegins(s0, 0, 0, "A.V", "V", "k", 0.0);
    var s1 := Next(s0, x1);
    ParBegins(s1, 1, 1, "A", "V", "", 1.0);
    var s2 := Next(s1, x2);
    ParFinishes(s2, 2, 1, Succeeded, 2.0);
    var s3 := Next(s2, x3);
    ParBegins(s3, 2, 2, "A.V", "V", "k", 3.0);
    FourSteps(s0, x1, x2, x3, x4);
    var s4 := Next(s3, x4);
    ParFinishes(s4, 3, 0, Succeeded, 4.0);
    var s5 := Next(s4, FinishStep(0, Succeeded, 4.0));
    ParFinishes(s5, 3, 2, Succeeded, 5.0);
    TwoSteps(s4, FinishStep(0, Succeeded, 4.0), FinishStep(2, Succeeded, 5.0));
    var log := Next(s5, FinishStep(2, Succeeded, 5.0)).log;
    assert log[1] == Execution("k", "A.V", 0.0, 4.0) && log[2] == Execution("k", "A.V", 3.0, 5.0);
  }

  lemma ServiceIsQuiet()
    ensures Quiet(ParService(), 0)
  {
  }

  lemma Dotted()
    ensures Qualify("A.V", "V") == "A.V" && Qualify("B.V", "V") == "B.V" && Qualify("A", "V") == "A.V"
  {
    assert "A.V"[1] == '.' && "B.V"[1] == '.';
    assert "A" + "." + "V" == "A.V";
  }

  lemma TwoSteps(s: Api, x: Step, y: Step)
    requires Enabled(s, x) && Enabled(Next(s, x), y)
    ensures Possible(s, [x, y]) && Run(s, [x, y]) == Next(Next(s, x), y)
  {
    hide Enabled, Next;
    assert Possible(s, []) && Run(s, []) == s;
    Extend(s, [], x);
    Extend(s, [] + [x], y);
    assert [] + [x] + [y] == [x, y];
  }

  lemma FourSteps(s: Api, x1: Step, x2: Step, x3: Step, x4: Step)
    requires Enabled(s, x1) && Enabled(Next(s, x1), x2)
    requires Enabled(Next(Next(s, x1), x2), x3) && Enabled(Next(Next(Next(s, x1), x2), x3), x4)
    ensures Possible(s, [x1, x2, x3, x4])
    ensures Run(s, [x1, x2, x3, x4]) == Next(Next(Next(Next(s, x1), x2), x3), x4)
  {
    hide Enabled, Next;
    TwoSteps(s, x1, x2);
    Extend(s, [x1, x2], x3);
    Extend(s, [x1, x2] + [x3], x4);
    assert [x1, x2] + [x3] + [x4] == [x1, x2, x3, x4];
  }

  // ---- one order per upper-cased base, through the symbol lock ----

  /** A step that neither releases the key nor checks it outside the lease or as "unknown". */
  predicate LeavesLease(x: Step, key: string, until: real) {
    match x
    case BeginStep(_, q, _, c, _) => LockKey(q.order.symbol) == key ==> q.order.strategyId == "" && c.lock < until
    case RailsStep(op) =>
      && (op.Release? ==> op.symbol == "" || LockKey(op.symbol) != key)
      && (RiskLaws.ChecksKey(op, key) ==> op.order.strategyId != UNKNOWN && op.clock.lock < until)
    case _ => true
  }

  /** An anonymous holder keeps its lease through any check of the key that is not named "unknown". */
  lemma CheckRefused(r: Rails, o: Order, w: World, c: Clock, key: string, until: real)
    requires RiskLaws.HeldBy(r, key, UNKNOWN, until)
    requires LockKey(o.symbol) == key ==> o.strategyId != UNKNOWN && c.lock < until
    ensures RiskLaws.HeldBy(CheckOrder(r, o, w, c).0, key, UNKNOWN, until)
    ensures LockKey(o.symbol) == key ==> CheckOrder(r, o, w, c).1.Rejected?
  {
    hide CheckOrder, LockKey, GrantsLock;
    RiskLaws.LocksAfterCheck(r, o, w, c);
    if LockKey(o.symbol) == key {
      RiskLaws.UnknownTakesOver(r, key, until, c.lock);
    }
  }

  lemma LeaseKept(s: Api, x: Step, key: string, until: real)
    requires RiskLaws.HeldBy(s.rails, key, UNKNOWN, until) && Enabled(s, x) && LeavesLease(x, key, until)
    ensures RiskLaws.HeldBy(Next(s, x).rails, key, UNKNOWN, until)
  {
    hide CheckOrder, LockKey, EstimatedNotional, Qualify, RecordResult, Refresh;
    match x
    case BeginStep(_, q, w, c, _) => CheckRefused(s.rails, q.order, w, c, key, until);
    case RailsStep(op) =>
      if op.Check? {
        CheckRefused(s.rails, op.order, op.world, op.clock, key, until);
      } else {
        hide RiskLaws.Next;
        RiskLaws.LeaseStep(s.rails, op, key, UNKNOWN, until);
      }
    case _ =>
  }

  lemma {:induction false} LeaseKeptOverRun(s: Api, xs: seq<Step>, key: string, until: real)
    requires RiskLaws.HeldBy(s.rails, key, UNKNOWN, until) && Possible(s, xs)
    requires forall i :: 0 <= i < |xs| ==> LeavesLease(xs[i], key, until)
    ensures RiskLaws.HeldBy(Run(s, xs).rails, key, UNKNOWN, until)
  {
    if xs != [] {
      hide Next, LeavesLease, RiskLaws.HeldBy;
      LeaseKeptOverRun(s, xs[..|xs| - 1], key, until);
      LeaseKept(Run(s, xs[..|xs| - 1]), xs[|xs| - 1], key, until);
    }
  }

  /**
   * The endpoints send no strategy id, so with a positive lock TTL a submitted order holds
   * its upper-cased base anonymously: no later request on that base, however spelled, is
   * submitted until the lock is released or its TTL is over.
   */
  lemma OneOrderPerBase(s: Api, id: nat, q: Request, w: World, c: Clock, now: real, xs: seq<Step>,
                        id': nat, q': Request, w': World, c': Clock, now': real)
    requires s.rails.lockTtl > 0.0 && q.order.strategyId == "" && Begin(s, id, q, w, c, now).1.Submitted?
    requires Possible(Begin(s, id, q, w, c, now).0, xs)
    requires forall i :: 0 <= i < |xs| ==> LeavesLease(xs[i], LockKey(q.order.symbol), c.lock + s.rails.lockTtl)
    requires q'.order.strategyId == "" && LockKey(q'.order.symbol) == LockKey(q.order.symbol)
    requires c'.lock < c.lock + s.rails.lockTtl
    ensures !Begin(Run(Begin(s, id, q, w, c, now).0, xs), id', q', w', c', now').1.Submitted?
  {
    hide CheckOrder, LockKey, EstimatedNotional, Run, Possible, LeavesLease;
    var s1, key, until := Begin(s, id, q, w, c, now).0, LockKey(q.order.symbol), c.lock + s.rails.lockTtl;
    RiskLaws.GrantHolds(s.rails, q.order, w, c);
    LeaseKeptOverRun(s1, xs, key, until);
    CheckRefused(Run(s1, xs).rails, q'.order, w', c', key, until);
  }
}
