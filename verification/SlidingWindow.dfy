/**
 * The pruned-deque windows of engine/risk.py and ops/auto_probe.py, and what they
 * stand for: counting over the full history, restricted to the window.
 */
module SlidingWindow {
  import opened Sequences

  const WINDOW := 60.0

  /** Pop from the front while the oldest entry is before the cutoff. */
  function Prune<T>(q: seq<T>, at: T -> real, cutoff: real): seq<T> {
    if q != [] && at(q[0]) < cutoff then Prune(q[1..], at, cutoff) else q
  }

  function Since<T>(at: T -> real, cutoff: real): T -> bool { (x: T) => cutoff <= at(x) }

  function Within(lo: real, hi: real): real -> bool { (t: real) => lo <= t <= hi }

  predicate Ascending<T>(q: seq<T>, at: T -> real) {
    forall i, j :: 0 <= i < j < |q| ==> at(q[i]) <= at(q[j])
  }

  predicate UpTo(q: seq<real>, hi: real) { forall i :: 0 <= i < |q| ==> q[i] <= hi }

  function Itself(): real -> real { (t: real) => t }

  lemma {:induction false} FilterAll<T>(q: seq<T>, p: T -> bool)
    requires forall x :: x in q ==> p(x)
    ensures Filter(q, p) == q
  {
    if q != [] {
      FilterAll(q[..|q| - 1], p);
    }
  }

  lemma {:induction false} FilterNone<T>(q: seq<T>, p: T -> bool)
    requires forall x :: x in q ==> !p(x)
    ensures Filter(q, p) == []
  {
    if q != [] {
      FilterNone(q[..|q| - 1], p);
    }
  }

  /** On a chronological deque, popping from the front keeps exactly the entries in the window. */
  lemma {:induction false} PruneIsFilter<T>(q: seq<T>, at: T -> real, cutoff: real)
    requires Ascending(q, at)
    ensures Prune(q, at, cutoff) == Filter(q, Since(at, cutoff))
    decreases |q|
  {
    if q != [] && at(q[0]) < cutoff {
      PruneIsFilter(q[1..], at, cutoff);
      FilterConcat([q[0]], q[1..], Since(at, cutoff));
      FilterNone([q[0]], Since(at, cutoff));
      assert q == [q[0]] + q[1..];
    } else {
      forall x | x in q
        ensures cutoff <= at(x)
      {
        assert at(q[0]) <= at(x);
      }
      FilterAll(q, Since(at, cutoff));
    }
  }

  lemma {:induction false} FilterAscending<T>(q: seq<T>, at: T -> real, p: T -> bool)
    requires Ascending(q, at)
    ensures Ascending(Filter(q, p), at)
  {
    if q != [] {
      var init, x := q[..|q| - 1], q[|q| - 1];
      FilterAscending(init, at, p);
      var kept := Filter(init, p);
      forall i | 0 <= i < |kept|
        ensures at(kept[i]) <= at(x)
      {
        assert kept[i] in kept;
        FilterMember(init, p, kept[i]);
        assert exists j :: 0 <= j < |init| && q[j] == kept[i];
      }
    }
  }

  /** Keeping what is recent, and then what is more recent still, forgets nothing that matters. */
  lemma {:induction false} FilterTwice<T>(q: seq<T>, at: T -> real, c: real, c': real)
    requires c <= c'
    ensures Filter(Filter(q, Since(at, c)), Since(at, c')) == Filter(q, Since(at, c'))
  {
    if q != [] {
      var init, x := q[..|q| - 1], q[|q| - 1];
      FilterTwice(init, at, c, c');
      var kept := Filter(init, Since(at, c));
      assert (kept + [x])[..|kept|] == kept;
    }
  }

  // ---- the per-minute limiter ----

  datatype Limiter = Limiter(maxPerMin: int, events: seq<real>)

  function Allows(l: Limiter, now: real): bool {
    |Prune(l.events, Itself(), now - WINDOW)| < l.maxPerMin
  }

  function AfterAllow(l: Limiter, now: real): Limiter {
    var kept := Prune(l.events, Itself(), now - WINDOW);
    l.(events := if |kept| < l.maxPerMin then kept + [now] else kept)
  }

  function RunLimiter(maxPerMin: int, calls: seq<real>): Limiter {
    if calls == [] then Limiter(maxPerMin, [])
    else AfterAllow(RunLimiter(maxPerMin, calls[..|calls| - 1]), calls[|calls| - 1])
  }

  /** The naive limiter: it remembers every acceptance and counts those of the last minute. */
  function Accepted(maxPerMin: int, calls: seq<real>): seq<real> {
    if calls == [] then []
    else
      var past, now := Accepted(maxPerMin, calls[..|calls| - 1]), calls[|calls| - 1];
      if |Filter(past, Within(now - WINDOW, now))| < maxPerMin then past + [now] else past
  }

  lemma {:induction false} AcceptedAreCalls(maxPerMin: int, calls: seq<real>)
    requires Ascending(calls, Itself())
    ensures Ascending(Accepted(maxPerMin, calls), Itself())
    ensures if calls == [] then Accepted(maxPerMin, calls) == []
            else UpTo(Accepted(maxPerMin, calls), calls[|calls| - 1])
  {
    if calls != [] {
      var init, now := calls[..|calls| - 1], calls[|calls| - 1];
      AcceptedAreCalls(maxPerMin, init);
      if init != [] {
        assert Itself()(calls[|calls| - 2]) <= Itself()(now);
      }
    }
  }

  /** When nothing lies beyond hi, being in the window is being recent. */
  lemma {:induction false} WithinIsSince(q: seq<real>, lo: real, hi: real)
    requires UpTo(q, hi)
    ensures Filter(q, Within(lo, hi)) == Filter(q, Since(Itself(), lo))
  {
    if q != [] {
      WithinIsSince(q[..|q| - 1], lo, hi);
    }
  }

  /** The deque is the full history restricted to the window at the last call. */
  lemma {:induction false} DequeIsWindow(maxPerMin: int, calls: seq<real>)
    requires Ascending(calls, Itself())
    ensures calls != [] ==>
              RunLimiter(maxPerMin, calls).events
              == Filter(Accepted(maxPerMin, calls), Since(Itself(), calls[|calls| - 1] - WINDOW))
    ensures RunLimiter(maxPerMin, calls).maxPerMin == maxPerMin
  {
    hide Filter, Prune, Ascending, UpTo;
    if calls != [] {
      var init, now := calls[..|calls| - 1], calls[|calls| - 1];
      var past := Accepted(maxPerMin, init);
      assert calls == init + [now];
      AscendingPrefix(init, now);
      DequeIsWindow(maxPerMin, init);
      KeptAtCall(maxPerMin, init, now);
      FilterSnoc(past, now, Since(Itself(), now - WINDOW));
    }
  }

  lemma AscendingPrefix(init: seq<real>, now: real)
    requires Ascending(init + [now], Itself())
    ensures Ascending(init, Itself())
    ensures UpTo(init, now)
  {
    var q := init + [now];
    forall i | 0 <= i < |init|
      ensures init[i] <= now
    {
      assert Itself()(q[i]) <= Itself()(q[|init|]);
    }
    forall i, j | 0 <= i < j < |init|
      ensures Itself()(init[i]) <= Itself()(init[j])
    {
      assert Itself()(q[i]) <= Itself()(q[j]);
    }
  }

  lemma KeptAtCall(maxPerMin: int, init: seq<real>, now: real)
    requires Ascending(init + [now], Itself())
    requires init != [] ==>
               RunLimiter(maxPerMin, init).events
               == Filter(Accepted(maxPerMin, init), Since(Itself(), init[|init| - 1] - WINDOW))
    ensures Prune(RunLimiter(maxPerMin, init).events, Itself(), now - WINDOW)
         == Filter(Accepted(maxPerMin, init), Since(Itself(), now - WINDOW))
         == Filter(Accepted(maxPerMin, init), Within(now - WINDOW, now))
  {
    hide Accepted, RunLimiter, Filter, Prune;
    AscendingPrefix(init, now);
    AcceptedAreCalls(maxPerMin, init);
    KeptWindow(Accepted(maxPerMin, init), RunLimiter(maxPerMin, init).events,
               if init == [] then now else init[|init| - 1], now, WINDOW) by {
      if init == [] {
        assert Accepted(maxPerMin, init) == [] && RunLimiter(maxPerMin, init).events == [] by {
          EmptyLimiter(maxPerMin);
        }
        FilterNone<real>([], Since(Itself(), now - WINDOW));
      }
    }
  }

  lemma EmptyLimiter(maxPerMin: int)
    ensures Accepted(maxPerMin, []) == [] && RunLimiter(maxPerMin, []) == Limiter(maxPerMin, [])
  {
  }

  /** Pruning a window that was exact at `last` makes it exact at `now`. */
  lemma KeptWindow(past: seq<real>, events: seq<real>, last: real, now: real, width: real)
    requires Ascending(past, Itself()) && UpTo(past, now) && last <= now
    requires events == Filter(past, Since(Itself(), last - width))
    ensures Prune(events, Itself(), now - width)
         == Filter(past, Since(Itself(), now - width))
         == Filter(past, Within(now - width, now))
  {
    hide Filter, Prune;
    FilterAscending(past, Itself(), Since(Itself(), last - width));
    PruneIsFilter(events, Itself(), now - width);
    FilterTwice(past, Itself(), last - width, now - width);
    WithinIsSince(past, now - width, now);
  }

  /** The pruned limiter decides exactly as the naive one, at every call of every run. */
  lemma LimiterRefinesHistory(maxPerMin: int, init: seq<real>, now: real)
    requires Ascending(init + [now], Itself())
    ensures Allows(RunLimiter(maxPerMin, init), now)
       <==> |Filter(Accepted(maxPerMin, init), Within(now - WINDOW, now))| < maxPerMin
    ensures Allows(RunLimiter(maxPerMin, init), now)
       <==> Accepted(maxPerMin, init + [now]) == Accepted(maxPerMin, init) + [now]
  {
    AscendingPrefix(init, now);
    DequeIsWindow(maxPerMin, init);
    KeptAtCall(maxPerMin, init, now);
    assert (init + [now])[..|init|] == init;
    var past := Accepted(maxPerMin, init);
    assert |past + [now]| != |past|;
  }

  lemma {:induction false} FilterSubset<T>(q: seq<T>, p: T -> bool, p': T -> bool)
    requires forall i :: 0 <= i < |q| && p(q[i]) ==> p'(q[i])
    ensures |Filter(q, p)| <= |Filter(q, p')|
  {
    if q != [] {
      FilterSubset(q[..|q| - 1], p, p');
    }
  }

  lemma AcceptedUpTo(maxPerMin: int, init: seq<real>, now: real)
    requires Ascending(init, Itself()) && UpTo(init, now)
    ensures UpTo(Accepted(maxPerMin, init), now)
  {
    AcceptedAreCalls(maxPerMin, init);
  }

  lemma NarrowerWindow(past: seq<real>, a: real, now: real)
    requires UpTo(past, now) && a <= now <= a + WINDOW
    ensures |Filter(past, Within(a, a + WINDOW))| <= |Filter(past, Within(now - WINDOW, now))|
  {
    FilterSubset(past, Within(a, a + WINDOW), Within(now - WINDOW, now));
  }

  /** No closed 60-second interval of any run holds more than max acceptances. */
  lemma {:induction false} WindowBound(maxPerMin: int, calls: seq<real>, a: real)
    requires Ascending(calls, Itself())
    ensures |Filter(Accepted(maxPerMin, calls), Within(a, a + WINDOW))| <= if maxPerMin < 0 then 0 else maxPerMin
  {
    hide Filter, Prune, Ascending, UpTo;
    if calls != [] {
      var init, now := calls[..|calls| - 1], calls[|calls| - 1];
      var past := Accepted(maxPerMin, init);
      assert calls == init + [now];
      AscendingPrefix(init, now);
      WindowBound(maxPerMin, init, a);
      FilterSnoc(past, now, Within(a, a + WINDOW));
      if a <= now <= a + WINDOW {
        AcceptedUpTo(maxPerMin, init, now);
        NarrowerWindow(past, a, now);
      }
    } else {
      FilterNone<real>([], Within(a, a + WINDOW));
    }
  }

  class OrderRateLimiter {
    const maxPerMin: int
    var events: seq<real>

    function State(): Limiter
      reads this
    {
      Limiter(maxPerMin, events)
    }

    constructor (maxPerMin: int)
      ensures State() == Limiter(maxPerMin, [])
    {
      this.maxPerMin := maxPerMin;
      events := [];
    }

    method Allow(now: real) returns (ok: bool)
      modifies this
      ensures State() == AfterAllow(old(State()), now)
      ensures ok == Allows(old(State()), now)
    {
      var cutoff := now - WINDOW;
      while events != [] && events[0] < cutoff
        invariant Prune(events, Itself(), cutoff) == Prune(old(events), Itself(), cutoff)
        decreases |events|
      {
        events := events[1..];
      }
      if |events| >= maxPerMin {
        return false;
      }
      events := events + [now];
      return true;
    }
  }
}
