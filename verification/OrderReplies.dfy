/**
 * What a client of the order endpoints is told: the stored answer while it lives, and
 * otherwise the verdict of the pre-trade gate.
 */
module OrderReplies {
  import opened Basics
  import opened Symbols
  import opened RiskRails
  import opened OrderApi
  import RiskMeaning

  /** No flight under the key succeeds in the run. */
  ghost predicate NoSuccessUnder(s: Api, xs: seq<Step>, key: string)
    requires Possible(s, xs)
  {
    xs == [] ||
    var init, x := xs[..|xs| - 1], xs[|xs| - 1];
    && NoSuccessUnder(s, init, key)
    && (x.FinishStep? && x.outcome.Succeeded? ==> Run(s, init).flights[x.id].idemKey != key)
  }

  /** The answer to the key is the flight's, and it is there until it expires. */
  predicate Stored(s: Api, key: string, g: Flight, t: real, clock: real) {
    && (key in s.cache ==> s.cache[key].response == g && s.cache[key].createdAt == t)
    && (clock < t + s.ttl ==> key in s.cache)
  }

  lemma StoredStep(s: Api, x: Step, key: string, g: Flight, t: real, clock: real)
    requires Stored(s, key, g, t, clock) && Enabled(s, x) && clock <= TimeOf(x, clock)
    requires x.FinishStep? && x.outcome.Succeeded? ==> s.flights[x.id].idemKey != key
    ensures Stored(Next(s, x), key, g, t, TimeOf(x, clock)) && Next(s, x).ttl == s.ttl
  {
    hide CheckOrder, EstimatedNotional, RiskLaws.Next, ClearPending;
  }

  lemma {:induction false} StoredRun(s: Api, xs: seq<Step>, key: string, g: Flight, t: real)
    requires Stored(s, key, g, t, t) && Possible(s, xs) && Timely(t, xs) && NoSuccessUnder(s, xs, key)
    ensures Stored(Run(s, xs), key, g, t, ClockAfter(t, xs)) && Run(s, xs).ttl == s.ttl
  {
    if xs != [] {
      hide Next, Stored, Enabled, TimeOf;
      var init, x := xs[..|xs| - 1], xs[|xs| - 1];
      StoredRun(s, init, key, g, t);
      StoredStep(Run(s, init), x, key, g, t, ClockAfter(t, init));
    }
  }

  /**
   * A flight under a key succeeds at t. Through any run in which no other flight under the
   * key succeeds, a request with the key gets the answer of that flight, and changes
   * nothing, exactly when it comes before t + ttl; from then on it is not answered from
   * the cache.
   */
  lemma CachedIff(s: Api, id: nat, t: real, xs: seq<Step>, id': nat, q: Request, w: World, c: Clock, now: real)
    requires id in s.flights && s.flights[id].idemKey == q.idemKey != ""
    requires Possible(Next(s, FinishStep(id, Succeeded, t)), xs) && Timely(t, xs) && ClockAfter(t, xs) <= now
    requires NoSuccessUnder(Next(s, FinishStep(id, Succeeded, t)), xs, q.idemKey)
    ensures var end := Run(Next(s, FinishStep(id, Succeeded, t)), xs);
      var (after, reply) := Begin(end, id', q, w, c, now);
      if now < t + s.ttl then after == end && reply == Cached(s.flights[id]) else !reply.Cached?
  {
    hide CheckOrder, EstimatedNotional, ClearPending, Run, Possible;
    var s1 := Next(s, FinishStep(id, Succeeded, t));
    StoredRun(s1, xs, q.idemKey, s.flights[id], t);
  }

  lemma FlightStep(s: Api, x: Step, id: nat)
    requires id in s.flights && Enabled(s, x) && (x.FinishStep? ==> x.id != id)
    ensures id in Next(s, x).flights && Next(s, x).flights[id] == s.flights[id] && Next(s, x).ttl == s.ttl
  {
    hide CheckOrder, EstimatedNotional, RiskLaws.Next, ClearPending;
  }

  lemma {:induction false} FlightKept(s: Api, xs: seq<Step>, id: nat)
    requires id in s.flights && Possible(s, xs)
    requires forall i :: 0 <= i < |xs| && xs[i].FinishStep? ==> xs[i].id != id
    ensures id in Run(s, xs).flights && Run(s, xs).flights[id] == s.flights[id] && Run(s, xs).ttl == s.ttl
  {
    if xs != [] {
      hide Next, Enabled;
      FlightKept(s, xs[..|xs| - 1], id);
      FlightStep(Run(s, xs[..|xs| - 1]), xs[|xs| - 1], id);
    }
  }

  /** A retry of a request that was submitted and succeeded is answered with the first one's order. */
  lemma RetryGetsFirst(s: Api, id: nat, q: Request, w: World, c: Clock, began: real, ys: seq<Step>, t: real,
                       xs: seq<Step>, id': nat, q': Request, w': World, c': Clock, now: real)
    requires id !in s.flights && q'.idemKey == q.idemKey != ""
    requires Begin(s, id, q, w, c, began).1.Submitted?
    requires Possible(Begin(s, id, q, w, c, began).0, ys)
    requires forall i :: 0 <= i < |ys| && ys[i].FinishStep? ==> ys[i].id != id
    requires var mid := Run(Begin(s, id, q, w, c, began).0, ys);
      && id in mid.flights
      && Possible(Next(mid, FinishStep(id, Succeeded, t)), xs) && Timely(t, xs) && ClockAfter(t, xs) <= now
      && NoSuccessUnder(Next(mid, FinishStep(id, Succeeded, t)), xs, q.idemKey)
    requires now < t + s.ttl
    ensures var mid := Run(Begin(s, id, q, w, c, began).0, ys);
      var end := Run(Next(mid, FinishStep(id, Succeeded, t)), xs);
      var (after, reply) := Begin(end, id', q', w', c', now);
      && after == end && reply.Cached?
      && reply.response.symbol == q.order.symbol && reply.response.venue == q.venue
      && reply.response.idemKey == q.idemKey && reply.response.began == began
  {
    var s1 := Begin(s, id, q, w, c, began).0;
    Launched(s, id, q, w, c, began);
    hide Begin, Run, Possible, Next, NoSuccessUnder, CheckOrder;
    FlightKept(s1, ys, id);
    CachedIff(Run(s1, ys), id, t, xs, id', q', w', c', now);
  }

  lemma Launched(s: Api, id: nat, q: Request, w: World, c: Clock, now: real)
    requires Begin(s, id, q, w, c, now).1.Submitted?
    ensures var s' := Begin(s, id, q, w, c, now).0;
      && id in s'.flights && s'.ttl == s.ttl
      && s'.flights[id] == Flight(q.order.symbol, q.venue, s'.flights[id].notional, q.idemKey, now)
  {
    hide CheckOrder, EstimatedNotional;
  }

  /** What an order counts as while it is pending: its quote, else its units, else 1. */
  lemma NotionalMeans(o: Order)
    ensures o.quote.Some? && o.quote.value != 0.0 ==> EstimatedNotional(o) == o.quote.value
    ensures (o.quote.None? || o.quote.value == 0.0) && o.quantity.Some? && o.quantity.value != 0.0 ==>
      EstimatedNotional(o) == o.quantity.value
    ensures (o.quote.None? || o.quote.value == 0.0) && (o.quantity.None? || o.quantity.value == 0.0) ==>
      EstimatedNotional(o) == 1.0
  {
  }

  /**
   * A request with no live answer is refused with the first reason that stands against it,
   * and is submitted when there is none: it is then in flight, and pending for its notional.
   */
  lemma ReplyMeans(s: Api, id: nat, q: Request, w: World, c: Clock, now: real)
    requires q.idemKey == "" || q.idemKey !in s.cache || s.cache[q.idemKey].createdAt + s.ttl <= now
    ensures var (s', reply) := Begin(s, id, q, w, c, now);
      && s'.cache == s.cache && s'.log == s.log && s'.ttl == s.ttl
      && match reply {
        case Cached(_) => false
        case Refused(code) =>
          RiskMeaning.FirstOf(Some(code), 0, 25, s.rails, q.order, w, c)
          && s'.flights == s.flights && s'.rails.pending == s.rails.pending
        case Submitted =>
          (forall code :: !RiskMeaning.Cause(code, s.rails, q.order, w, c))
          && s'.flights == s.flights[id := Flight(q.order.symbol, q.venue, EstimatedNotional(q.order), q.idemKey, now)]
          && s'.rails.pending == s.rails.pending[q.order.symbol := EstimatedNotional(q.order)]
      }
  {
    hide CheckOrder, EstimatedNotional, RiskMeaning.FirstOf, RiskMeaning.Cause;
    CheckAndPending(s.rails, q.order, w, c);
    RiskMeaning.DecisionMeans(s.rails, q.order, w, c);
    RiskMeaning.AcceptedMeans(s.rails, q.order, w, c);
  }

  /** A cleanup deletes exactly the rows whose time is over, so no later request can tell. */
  lemma CleanupMeans(s: Api, now: real, q: Request, t: real)
    ensures forall key :: key in Expire(s, now).cache <==> key in s.cache && now < s.cache[key].createdAt + s.ttl
    ensures forall key :: key in Expire(s, now).cache ==> Expire(s, now).cache[key] == s.cache[key]
    ensures Expire(s, now) == s.(cache := Expire(s, now).cache)
    ensures now <= t ==> Answered(Expire(s, now), q, t) == Answered(s, q, t)
  {
  }

  /**
   * The end of a flight: its answer is kept iff it succeeded under a key, an execution is
   * logged iff the router executed, and its notional is taken off its qualified symbol's
   * pending amount, which goes away when next to nothing is left.
   */
  lemma FinishMeans(s: Api, id: nat, outcome: Outcome, now: real)
    requires id in s.flights
    ensures var s', g := Finish(s, id, outcome, now), s.flights[id];
      && s'.flights == s.flights - {id}
      && s'.cache == (if outcome == Succeeded && g.idemKey != "" then s.cache[g.idemKey := Row(g, now)] else s.cache)
      && s'.log == s.log + (if outcome == RouterFailed then []
                            else [Execution(g.idemKey, g.symbol, g.began, now)])
      && s'.rails == s.rails.(pending := s'.rails.pending)
    ensures var before, after := s.rails.pending, Finish(s, id, outcome, now).rails.pending;
      var g := s.flights[id];
      var key := if '.' in g.symbol then g.symbol else g.symbol + "." + g.venue;
      && (forall k :: k != key ==> (k in after <==> k in before) && (k in before ==> after[k] == before[k]))
      && (if key in before && before[key] - g.notional > 0.000000001
          then key in after && after[key] == before[key] - g.notional
          else key in after ==> key !in before && after[key] == -g.notional > 0.000000001)
  {
    var g := s.flights[id];
    assert Qualify(g.symbol, g.venue) == if '.' in g.symbol then g.symbol else g.symbol + "." + g.venue;
    hide Qualify;
  }
}
