/**
 * The round-robin prober of ops/auto_probe.py: the least recently probed symbol is
 * picked, then guarded by a circuit breaker, a cooldown and the per-minute limiter.
 */
module AutoProbe {
  import opened Basics
  import opened Sequences
  import opened StableSort
  import opened SlidingWindow

  // ---- the circuit breaker ----

  datatype Breaker = Breaker(threshold: int, window: real, cooldown: real, events: seq<real>, coolUntil: real)

  predicate IsOpen(b: Breaker, now: real) { now < b.coolUntil }

  function AfterError(b: Breaker, now: real): Breaker {
    var events := Prune(b.events, Itself(), now - b.window) + [now];
    if |events| >= b.threshold then b.(events := [], coolUntil := now + b.cooldown)
    else b.(events := events)
  }

  function RunBreaker(b: Breaker, errors: seq<real>): Breaker {
    if errors == [] then b else AfterError(RunBreaker(b, errors[..|errors| - 1]), errors[|errors| - 1])
  }

  /** Every error since the last trip, however old. */
  function Streak(b: Breaker, errors: seq<real>): seq<real> {
    if errors == [] then []
    else
      var past, now := Streak(b, errors[..|errors| - 1]), errors[|errors| - 1];
      if |Filter(past, Within(now - b.window, now))| + 1 >= b.threshold then [] else past + [now]
  }

  function NewBreaker(threshold: int, window: real, cooldown: real): Breaker {
    Breaker(threshold, window, cooldown, [], 0.0)
  }

  lemma AppendedAscends(past: seq<real>, last: real, now: real)
    requires Ascending(past, Itself()) && UpTo(past, last) && last <= now
    ensures Ascending(past + [now], Itself()) && UpTo(past + [now], now)
  {
  }

  lemma {:induction false} StreakAscends(b: Breaker, errors: seq<real>)
    requires Ascending(errors, Itself())
    ensures Ascending(Streak(b, errors), Itself())
    ensures if errors == [] then Streak(b, errors) == [] else UpTo(Streak(b, errors), errors[|errors| - 1])
  {
    if errors != [] {
      hide Filter;
      var init, now := errors[..|errors| - 1], errors[|errors| - 1];
      assert errors == init + [now];
      AscendingPrefix(init, now);
      StreakAscends(b, init);
      AppendedAscends(Streak(b, init), if init == [] then now else init[|init| - 1], now);
    }
  }

  /** The events are the past restricted to the window at the last of the errors. */
  predicate Sees(events: seq<real>, past: seq<real>, errors: seq<real>, width: real) {
    if errors == [] then events == [] && past == []
    else events == Filter(past, Since(Itself(), errors[|errors| - 1] - width))
  }

  lemma KeptErrors(events: seq<real>, past: seq<real>, init: seq<real>, now: real, width: real)
    requires Ascending(init + [now], Itself()) && Sees(events, past, init, width)
    requires Ascending(past, Itself()) && UpTo(past, now)
    ensures Prune(events, Itself(), now - width)
      == Filter(past, Since(Itself(), now - width))
      == Filter(past, Within(now - width, now))
  {
    AscendingPrefix(init, now);
    hide Filter, Prune, Ascending;
    if init == [] {
      FilterNone<real>([], Since(Itself(), now - width));
      KeptWindow([], [], now, now, width);
    } else {
      KeptWindow(past, events, init[|init| - 1], now, width);
    }
  }

  /** What one more error does to the breaker and to the streak. */
  lemma ErrorStep(r: Breaker, past: seq<real>, init: seq<real>, now: real)
    requires Ascending(init + [now], Itself()) && Sees(r.events, past, init, r.window)
    requires Ascending(past, Itself()) && UpTo(past, now) && r.window >= 0.0
    ensures var trips := |Filter(past, Within(now - r.window, now))| + 1 >= r.threshold;
      && Sees(AfterError(r, now).events, if trips then [] else past + [now], init + [now], r.window)
      && AfterError(r, now).coolUntil == (if trips then now + r.cooldown else r.coolUntil)
      && (trips ==> AfterError(r, now).events == [])
  {
    hide Filter, Prune, Ascending, UpTo;
    KeptErrors(r.events, past, init, now, r.window);
    FilterSnoc(past, now, Since(Itself(), now - r.window));
    FilterNone<real>([], Since(Itself(), now - r.window));
  }

  /** The breaker's deque is the streak restricted to the window at the last error. */
  lemma {:induction false} BreakerSeesStreak(b: Breaker, errors: seq<real>)
    requires Ascending(errors, Itself()) && b.events == [] && b.window >= 0.0
    ensures Sees(RunBreaker(b, errors).events, Streak(b, errors), errors, b.window)
    ensures var r := RunBreaker(b, errors);
      r.threshold == b.threshold && r.window == b.window && r.cooldown == b.cooldown
  {
    if errors != [] {
      hide Filter, Prune, Ascending, UpTo, Sees;
      var init, now := errors[..|errors| - 1], errors[|errors| - 1];
      assert errors == init + [now];
      AscendingPrefix(init, now);
      BreakerSeesStreak(b, init);
      StreakUpTo(b, init, now);
      ErrorStep(RunBreaker(b, init), Streak(b, init), init, now);
    }
  }

  lemma StreakUpTo(b: Breaker, init: seq<real>, now: real)
    requires Ascending(init, Itself()) && UpTo(init, now)
    ensures Ascending(Streak(b, init), Itself()) && UpTo(Streak(b, init), now)
  {
    StreakAscends(b, init);
  }

  /**
   * An error trips the breaker exactly when it and the errors of the window since the
   * last trip reach the threshold; only then does the cool-down deadline move.
   */
  lemma TripsIff(b: Breaker, errors: seq<real>, now: real)
    requires Ascending(errors + [now], Itself()) && b.events == [] && b.window >= 0.0
    ensures var trips := |Filter(Streak(b, errors), Within(now - b.window, now))| + 1 >= b.threshold;
      RunBreaker(b, errors + [now]).coolUntil
      == (if trips then now + b.cooldown else RunBreaker(b, errors).coolUntil)
    ensures var trips := |Filter(Streak(b, errors), Within(now - b.window, now))| + 1 >= b.threshold;
      trips ==> RunBreaker(b, errors + [now]).events == []
  {
    hide Filter, Prune, Ascending, UpTo, Sees, Streak;
    AscendingPrefix(errors, now);
    BreakerSeesStreak(b, errors);
    StreakUpTo(b, errors, now);
    ErrorStep(RunBreaker(b, errors), Streak(b, errors), errors, now);
    assert (errors + [now])[..|errors|] == errors;
  }

  class CircuitBreaker {
    const threshold: int
    const window: real
    const cooldown: real
    var events: seq<real>
    var coolUntil: real

    function State(): Breaker
      reads this
    {
      Breaker(threshold, window, cooldown, events, coolUntil)
    }

    constructor (threshold: int, window: real, cooldown: real)
      ensures State() == NewBreaker(threshold, window, cooldown)
    {
      this.threshold, this.window, this.cooldown := threshold, window, cooldown;
      events, coolUntil := [], 0.0;
    }

    method RecordError(now: real)
      modifies this
      ensures State() == AfterError(old(State()), now)
    {
      var cutoff := now - window;
      while events != [] && events[0] < cutoff
        invariant Prune(events, Itself(), cutoff) == Prune(old(events), Itself(), cutoff)
        invariant coolUntil == old(coolUntil)
        decreases |events|
      {
        events := events[1..];
      }
      events := events + [now];
      if |events| >= threshold {
        coolUntil := now + cooldown;
        events := [];
      }
    }
  }

  // ---- the least recently probed symbol ----

  function LastProbe(last: map<string, real>): string -> real {
    (symbol: string) => if symbol in last then last[symbol] else 0.0
  }

  /** One symbol a round. */
  function Pick(symbols: seq<string>, last: map<string, real>): (pick: string)
    requires symbols != []
    ensures pick in symbols
  {
    SortSorts(symbols, LastProbe(last));
    assert |multiset(Sort(symbols, LastProbe(last)))| == |symbols|;
    assert Sort(symbols, LastProbe(last))[0] in multiset(symbols);
    Sort(symbols, LastProbe(last))[0]
  }

  lemma {:induction false} InsertKeepsHead<T>(q: seq<T>, x: T, key: T -> real)
    requires q != [] && key(q[0]) <= key(x)
    ensures Insert(q, x, key) != [] && Insert(q, x, key)[0] == q[0]
  {
    if key(q[|q| - 1]) > key(x) {
      InsertKeepsHead(q[..|q| - 1], x, key);
    }
  }

  lemma {:induction false} InsertTakesHead<T>(q: seq<T>, x: T, key: T -> real)
    requires forall i :: 0 <= i < |q| ==> key(q[i]) > key(x)
    ensures Insert(q, x, key) != [] && Insert(q, x, key)[0] == x
  {
    if q != [] {
      InsertTakesHead(q[..|q| - 1], x, key);
    }
  }

  /** The sorted list starts with the first of the elements that have the least key. */
  lemma {:induction false} SortHead<T>(s: seq<T>, key: T -> real, r: nat)
    requires r < |s|
    requires forall i :: 0 <= i < |s| ==> key(s[r]) <= key(s[i])
    requires forall i :: 0 <= i < r ==> key(s[r]) < key(s[i])
    ensures Sort(s, key) != [] && Sort(s, key)[0] == s[r]
  {
    hide Insert;
    var init, x := s[..|s| - 1], s[|s| - 1];
    if r < |s| - 1 {
      SortHead(init, key, r);
      InsertKeepsHead(Sort(init, key), x, key);
    } else {
      var sorted := Sort(init, key);
      SortSorts(init, key);
      forall i | 0 <= i < |sorted|
        ensures key(sorted[i]) > key(x)
      {
        assert sorted[i] in multiset(init);
      }
      InsertTakesHead(sorted, x, key);
    }
  }

  /** The symbols of one round, for any limit on their number. */
  function Picks(symbols: seq<string>, last: map<string, real>, max: int): (picks: seq<string>) {
    var sorted := Sort(symbols, LastProbe(last));
    if max <= 0 then [] else if max < |sorted| then sorted[..max] else sorted
  }

  method PickRound(symbols: seq<string>, last: map<string, real>, max: int) returns (picks: seq<string>)
    ensures picks == Picks(symbols, last, max)
  {
    var sorted := Sort(symbols, LastProbe(last));
    picks := [];
    for i := 0 to |sorted|
      invariant picks == sorted[..i] && (i > 0 ==> i <= max)
    {
      if |picks| >= max {
        break;
      }
      picks := picks + [sorted[i]];
    }
  }

  lemma SortedSplit(sorted: seq<string>, key: string -> real, n: nat, i: nat, j: nat)
    requires Sorted(sorted, key) && n <= |sorted| && i < n && j < |sorted[n..]|
    ensures key(sorted[..n][i]) <= key(sorted[n..][j])
  {
    assert sorted[n..][j] == sorted[n + j];
  }

  /**
   * Least recently probed first, for any limit: the picks are that many of the symbols,
   * and no symbol left out was probed before one that was picked.
   */
  lemma PicksAreLeastRecent(symbols: seq<string>, last: map<string, real>, max: nat) returns (rest: seq<string>)
    ensures |Picks(symbols, last, max)| == if max < |symbols| then max else |symbols|
    ensures multiset(Picks(symbols, last, max)) + multiset(rest) == multiset(symbols)
    ensures forall i, j :: 0 <= i < |Picks(symbols, last, max)| && 0 <= j < |rest| ==>
      LastProbe(last)(Picks(symbols, last, max)[i]) <= LastProbe(last)(rest[j])
  {
    hide Sort, Sorted;
    var sorted, key := Sort(symbols, LastProbe(last)), LastProbe(last);
    SortSorts(symbols, key);
    assert |multiset(sorted)| == |multiset(symbols)|;
    var n := if max < |sorted| then max else |sorted|;
    rest := sorted[n..];
    assert Picks(symbols, last, max) == sorted[..n] && sorted == sorted[..n] + rest;
    forall i, j | 0 <= i < n && 0 <= j < |rest|
      ensures key(sorted[..n][i]) <= key(rest[j])
    {
      SortedSplit(sorted, key, n, i, j);
    }
  }

  /** With one pick a round, as by default, the pick is the head of the sorted symbols. */
  lemma OnePick(symbols: seq<string>, last: map<string, real>)
    requires symbols != []
    ensures Picks(symbols, last, 1) == [Pick(symbols, last)]
  {
    SortSorts(symbols, LastProbe(last));
    assert |multiset(Sort(symbols, LastProbe(last)))| == |symbols|;
  }

  // ---- rounds ----

  /** Dry runs and completed orders are recorded alike; a failed one also tells the breaker. */
  datatype Outcome = Simulated | Completed | Failed

  /** The clock readings of a round, in order, and how its order would end. */
  datatype Round = Round(start: real, checked: real, limited: real, ended: real, outcome: Outcome)

  datatype Prober = Prober(
    symbols: seq<string>, last: map<string, real>, cooldown: real, limiter: Limiter, breaker: Breaker)

  datatype Probe = Probe(symbol: string, at: real, slot: real)

  predicate ReachesLimiter(p: Prober, r: Round)
    requires p.symbols != []
  {
    !IsOpen(p.breaker, r.checked) && r.start - LastProbe(p.last)(Pick(p.symbols, p.last)) >= p.cooldown
  }

  predicate IsProbed(p: Prober, r: Round)
    requires p.symbols != []
  {
    ReachesLimiter(p, r) && Allows(p.limiter, r.limited)
  }

  function After(p: Prober, r: Round): (q: Prober)
    requires p.symbols != []
    ensures q.symbols == p.symbols && q.cooldown == p.cooldown
  {
    if !ReachesLimiter(p, r) then p
    else if !Allows(p.limiter, r.limited) then p.(limiter := AfterAllow(p.limiter, r.limited))
    else p.(
      limiter := AfterAllow(p.limiter, r.limited),
      last := p.last[Pick(p.symbols, p.last) := r.start],
      breaker := if r.outcome.Failed? then AfterError(p.breaker, r.ended) else p.breaker)
  }

  function Run(p: Prober, rounds: seq<Round>): (q: Prober)
    requires p.symbols != []
    ensures q.symbols == p.symbols && q.cooldown == p.cooldown
  {
    if rounds == [] then p else After(Run(p, rounds[..|rounds| - 1]), rounds[|rounds| - 1])
  }

  /** The probes a run records. */
  function Probes(p: Prober, rounds: seq<Round>): seq<Probe>
    requires p.symbols != []
  {
    if rounds == [] then []
    else
      var past, before, r := Probes(p, rounds[..|rounds| - 1]), Run(p, rounds[..|rounds| - 1]), rounds[|rounds| - 1];
      if IsProbed(before, r) then past + [Probe(Pick(before.symbols, before.last), r.start, r.limited)] else past
  }

  predicate Consistent(r: Round) { 0.0 < r.start <= r.checked <= r.limited <= r.ended }

  /** A strictly increasing clock from round to round. */
  predicate Chronological(rounds: seq<Round>) {
    (forall i :: 0 <= i < |rounds| ==> Consistent(rounds[i]))
    && forall i, j :: 0 <= i < j < |rounds| ==> rounds[i].ended < rounds[j].start
  }

  predicate Distinct(symbols: seq<string>) {
    forall i, j :: 0 <= i < j < |symbols| ==> symbols[i] != symbols[j]
  }

  // ---- round robin ----

  function LastAt(p: Prober, i: nat): real
    requires i < |p.symbols|
  {
    LastProbe(p.last)(p.symbols[i])
  }

  /** From index r on, and then from 0 to r, the symbols were probed ever more recently. */
  predicate Rotation(p: Prober, r: nat, now: real) {
    && r < |p.symbols|
    && (forall i :: 0 <= i < |p.symbols| ==> LastAt(p, i) < now)
    && (forall i, j :: r <= i <= j < |p.symbols| ==> LastAt(p, i) <= LastAt(p, j))
    && (forall i, j :: 0 <= i < j < r ==> LastAt(p, i) <= LastAt(p, j))
    && (forall i, j :: 0 <= i < r <= j < |p.symbols| ==> LastAt(p, j) < LastAt(p, i))
  }

  lemma RotationPicks(p: Prober, r: nat, now: real)
    requires Rotation(p, r, now)
    ensures Pick(p.symbols, p.last) == p.symbols[r]
  {
    SortHead(p.symbols, LastProbe(p.last), r) by {
      assert forall i :: 0 <= i < |p.symbols| ==> LastProbe(p.last)(p.symbols[i]) == LastAt(p, i);
    }
  }

  function NextIndex(r: nat, n: nat): nat
    requires r < n
  {
    if r + 1 == n then 0 else r + 1
  }

  lemma RotationTurns(p: Prober, q: Prober, r: nat, now: real, later: real)
    requires Rotation(p, r, now) && Distinct(p.symbols) && now < later
    requires q.symbols == p.symbols && q.last == p.last[p.symbols[r] := now]
    ensures Rotation(q, NextIndex(r, |p.symbols|), later)
  {
    assert LastAt(q, r) == now;
    assert forall i :: 0 <= i < |p.symbols| && i != r ==> LastAt(q, i) == LastAt(p, i);
  }

  lemma RotationWaits(p: Prober, q: Prober, r: nat, now: real, later: real)
    requires Rotation(p, r, now) && now <= later && q.symbols == p.symbols && q.last == p.last
    ensures Rotation(q, r, later)
  {
    assert forall i :: 0 <= i < |p.symbols| ==> LastAt(q, i) == LastAt(p, i);
  }

  lemma Spread(a: int, d: nat, n: nat)
    ensures (a + 1 + d) * n == a * n + n + d * n && d * n >= 0
  {
  }

  lemma Multiples(a: int, b: int, n: nat)
    ensures a < b ==> a * n + n <= b * n
  {
    if a < b {
      Spread(a, b - a - 1, n);
    }
  }

  lemma RemainderIs(x: nat, q: nat, n: nat, r: nat)
    requires r < n && x == q * n + r
    ensures x % n == r
  {
    assert x == x / n * n + x % n;
    Multiples(x / n, q, n);
    Multiples(q, x / n, n);
  }

  lemma NextRemainder(m: nat, n: nat)
    requires n > 0
    ensures NextIndex(m % n, n) == (m + 1) % n
  {
    var q, r := m / n, m % n;
    if r + 1 == n {
      assert m + 1 == (q + 1) * n;
      RemainderIs(m + 1, q + 1, n, 0);
    } else {
      RemainderIs(m + 1, q, n, r + 1);
    }
  }

  /** Probe j goes to symbol j modulo the number of symbols. */
  predicate InTurn(probes: seq<Probe>, symbols: seq<string>)
    requires symbols != []
  {
    forall j :: 0 <= j < |probes| ==> probes[j].symbol == symbols[j % |symbols|]
  }

  lemma ChronologicalPrefix(rounds: seq<Round>)
    requires Chronological(rounds) && rounds != []
    ensures Chronological(rounds[..|rounds| - 1])
    ensures |rounds| > 1 ==> rounds[|rounds| - 2].ended < rounds[|rounds| - 1].start
  {
  }

  lemma TurnStep(p: Prober, past: seq<Probe>, r: Round, later: real)
    requires p.symbols != [] && Distinct(p.symbols) && InTurn(past, p.symbols)
    requires Rotation(p, |past| % |p.symbols|, r.start) && r.start < later
    ensures var probes := if IsProbed(p, r) then past + [Probe(Pick(p.symbols, p.last), r.start, r.limited)] else past;
      InTurn(probes, p.symbols) && Rotation(After(p, r), |probes| % |p.symbols|, later)
  {
    hide Pick, Rotation, InTurn, IsProbed, After, Distinct;
    var turn := |past| % |p.symbols|;
    RotationPicks(p, turn, r.start);
    LastAfter(p, r);
    if IsProbed(p, r) {
      NextRemainder(|past|, |p.symbols|);
      RotationTurns(p, After(p, r), turn, r.start, later);
      InTurnSnoc(past, Probe(p.symbols[turn], r.start, r.limited), p.symbols);
    } else {
      RotationWaits(p, After(p, r), turn, r.start, later);
    }
  }

  lemma LastAfter(p: Prober, r: Round)
    requires p.symbols != []
    ensures After(p, r).last == if IsProbed(p, r) then p.last[Pick(p.symbols, p.last) := r.start] else p.last
  {
    hide Pick, AfterAllow, AfterError, Allows, IsOpen;
  }

  lemma InTurnSnoc(past: seq<Probe>, x: Probe, symbols: seq<string>)
    requires symbols != [] && InTurn(past, symbols) && x.symbol == symbols[|past| % |symbols|]
    ensures InTurn(past + [x], symbols)
  {
  }

  /**
   * Round robin: whatever rounds are skipped by breaker, cooldown or rate limit, the
   * j-th recorded probe goes to symbol j modulo the number of symbols.
   */
  lemma {:induction false} RoundRobin(p: Prober, rounds: seq<Round>, later: real)
    requires p.symbols != [] && Distinct(p.symbols) && p.last == map[] && Chronological(rounds)
    requires 0.0 < later && (rounds != [] ==> rounds[|rounds| - 1].ended < later)
    ensures InTurn(Probes(p, rounds), p.symbols)
    ensures Rotation(Run(p, rounds), |Probes(p, rounds)| % |p.symbols|, later)
  {
    if rounds == [] {
      RemainderIs(0, 0, |p.symbols|, 0);
    } else {
      hide IsProbed, Pick, After, Distinct, InTurn, Rotation;
      var init, r := rounds[..|rounds| - 1], rounds[|rounds| - 1];
      ChronologicalPrefix(rounds);
      RoundRobin(p, init, r.start);
      TurnStep(Run(p, init), Probes(p, init), r, later);
    }
  }

  function SymbolsOf(probes: seq<Probe>): (r: seq<string>)
    ensures |r| == |probes| && forall j :: 0 <= j < |probes| ==> r[j] == probes[j].symbol
  {
    if probes == [] then [] else SymbolsOf(probes[..|probes| - 1]) + [probes[|probes| - 1].symbol]
  }

  lemma WrappedIndex(k: nat, t: nat, n: nat)
    requires t < n
    ensures (k + t) % n == if k % n + t < n then k % n + t else k % n + t - n
  {
    var q, r := k / n, k % n;
    if r + t < n {
      RemainderIs(k + t, q, n, r + t);
    } else {
      assert k + t == (q + 1) * n + (r + t - n);
      RemainderIs(k + t, q + 1, n, r + t - n);
    }
  }

  lemma RotatedIsPermutation(s: seq<string>, r: nat)
    requires r <= |s|
    ensures multiset(s[r..] + s[..r]) == multiset(s)
  {
    assert s == s[..r] + s[r..];
  }

  lemma WindowRotates(probes: seq<Probe>, s: seq<string>, k: nat)
    requires s != [] && InTurn(probes, s) && k + |s| <= |probes|
    ensures SymbolsOf(probes[k..k + |s|]) == s[k % |s|..] + s[..k % |s|]
  {
    var window, r := SymbolsOf(probes[k..k + |s|]), k % |s|;
    forall t | 0 <= t < |s|
      ensures window[t] == (s[r..] + s[..r])[t]
    {
      WrappedIndex(k, t, |s|);
      assert window[t] == probes[k + t].symbol;
    }
  }

  lemma AlwaysInTurn(p: Prober, rounds: seq<Round>)
    requires p.symbols != [] && Distinct(p.symbols) && p.last == map[] && Chronological(rounds)
    ensures InTurn(Probes(p, rounds), p.symbols)
  {
    hide Distinct, Rotation, Probes, Chronological, InTurn;
    RoundRobin(p, rounds, if rounds == [] then 1.0 else Max(rounds[|rounds| - 1].ended, 0.0) + 1.0);
  }

  /** Any n consecutive recorded probes of n symbols are a permutation of the symbols. */
  lemma ConsecutiveArePermutation(p: Prober, rounds: seq<Round>, k: nat)
    requires p.symbols != [] && Distinct(p.symbols) && p.last == map[] && Chronological(rounds)
    requires k + |p.symbols| <= |Probes(p, rounds)|
    ensures multiset(SymbolsOf(Probes(p, rounds)[k..k + |p.symbols|])) == multiset(p.symbols)
  {
    hide Distinct, Probes, Chronological, SymbolsOf, InTurn;
    AlwaysInTurn(p, rounds);
    WindowRotates(Probes(p, rounds), p.symbols, k);
    RotatedIsPermutation(p.symbols, k % |p.symbols|);
  }

  // ---- cooldown, breaker and rate over whole runs ----

  predicate Spaced(probes: seq<Probe>, cooldown: real) {
    forall i, j :: 0 <= i < j < |probes| && probes[i].symbol == probes[j].symbol ==>
      probes[j].at - probes[i].at >= cooldown
  }

  predicate Covered(probes: seq<Probe>, last: map<string, real>) {
    forall i :: 0 <= i < |probes| ==> probes[i].symbol in last && probes[i].at <= last[probes[i].symbol]
  }

  /** Two probes of one symbol are at least the cooldown apart, on any clock. */
  lemma {:induction false} ProbesSpaced(p: Prober, rounds: seq<Round>)
    requires p.symbols != [] && p.cooldown >= 0.0
    ensures Spaced(Probes(p, rounds), p.cooldown)
    ensures Covered(Probes(p, rounds), Run(p, rounds).last)
  {
    if rounds != [] {
      hide Pick, IsOpen, Allows, AfterAllow, AfterError;
      ProbesSpaced(p, rounds[..|rounds| - 1]);
    }
  }

  lemma DeadlineStep(p: Prober, r: Round)
    requires p.symbols != [] && p.breaker.cooldown >= 0.0 && r.checked <= r.ended
    ensures After(p, r).breaker.coolUntil >= p.breaker.coolUntil
    ensures After(p, r).breaker.cooldown == p.breaker.cooldown
  {
    hide Pick, Allows, AfterAllow;
  }

  /** From any point of a run on, no round that is checked before the breaker's deadline there probes. */
  lemma {:induction false} NoProbeWhileOpen(p: Prober, rounds: seq<Round>, k: nat, r: Round)
    requires p.symbols != [] && p.breaker.cooldown >= 0.0 && k <= |rounds| && Chronological(rounds)
    requires r.checked < Run(p, rounds[..k]).breaker.coolUntil
    ensures !IsProbed(Run(p, rounds), r)
    ensures Run(p, rounds).breaker.coolUntil >= Run(p, rounds[..k]).breaker.coolUntil
    ensures Run(p, rounds).breaker.cooldown == p.breaker.cooldown
  {
    hide Pick, Allows, AfterAllow, AfterError, After;
    BreakerKept(p, rounds);
    if k == |rounds| {
      assert rounds[..k] == rounds;
    } else {
      var init := rounds[..|rounds| - 1];
      assert init[..k] == rounds[..k];
      NoProbeWhileOpen(p, init, k, r);
      BreakerKept(p, init);
      DeadlineStep(Run(p, init), rounds[|rounds| - 1]);
    }
  }

  lemma {:induction false} BreakerKept(p: Prober, rounds: seq<Round>)
    requires p.symbols != []
    ensures Run(p, rounds).breaker.cooldown == p.breaker.cooldown
  {
    if rounds != [] {
      hide Pick, Allows, AfterAllow;
      BreakerKept(p, rounds[..|rounds| - 1]);
    }
  }

  /** The times at which the limiter was asked. */
  function Calls(p: Prober, rounds: seq<Round>): seq<real>
    requires p.symbols != []
  {
    if rounds == [] then []
    else
      var init, r := rounds[..|rounds| - 1], rounds[|rounds| - 1];
      if ReachesLimiter(Run(p, init), r) then Calls(p, init) + [r.limited] else Calls(p, init)
  }

  function Slots(probes: seq<Probe>): seq<real> {
    if probes == [] then [] else Slots(probes[..|probes| - 1]) + [probes[|probes| - 1].slot]
  }

  lemma {:induction false} CallsAscend(p: Prober, rounds: seq<Round>)
    requires p.symbols != [] && Chronological(rounds)
    ensures Ascending(Calls(p, rounds), Itself())
    ensures if rounds == [] then Calls(p, rounds) == [] else UpTo(Calls(p, rounds), rounds[|rounds| - 1].limited)
  {
    if rounds != [] {
      hide ReachesLimiter;
      var init, r := rounds[..|rounds| - 1], rounds[|rounds| - 1];
      ChronologicalPrefix(rounds);
      CallsAscend(p, init);
      AppendedAscends(Calls(p, init), if init == [] then r.limited else init[|init| - 1].limited, r.limited);
    }
  }

  lemma {:induction false} LimiterOfRun(p: Prober, rounds: seq<Round>)
    requires p.symbols != [] && p.limiter.events == [] && Chronological(rounds)
    ensures Run(p, rounds).limiter == RunLimiter(p.limiter.maxPerMin, Calls(p, rounds))
    ensures Slots(Probes(p, rounds)) == Accepted(p.limiter.maxPerMin, Calls(p, rounds))
  {
    if rounds != [] {
      hide Pick, AfterError, IsOpen, Allows, AfterAllow, RunLimiter, Accepted, Ascending, UpTo;
      var init, r, max := rounds[..|rounds| - 1], rounds[|rounds| - 1], p.limiter.maxPerMin;
      ChronologicalPrefix(rounds);
      LimiterOfRun(p, init);
      CallsAscend(p, rounds);
      var calls := Calls(p, init);
      if ReachesLimiter(Run(p, init), r) {
        LimiterStep(max, calls, r.limited);
        SlotsSnoc(Probes(p, init), Probe(Pick(p.symbols, Run(p, init).last), r.start, r.limited));
      }
    } else {
      EmptyLimiter(p.limiter.maxPerMin);
    }
  }

  lemma LimiterStep(max: int, calls: seq<real>, now: real)
    requires Ascending(calls + [now], Itself())
    ensures RunLimiter(max, calls + [now]) == AfterAllow(RunLimiter(max, calls), now)
    ensures Accepted(max, calls + [now])
      == if Allows(RunLimiter(max, calls), now) then Accepted(max, calls) + [now] else Accepted(max, calls)
  {
    hide Allows, Filter, Prune;
    assert (calls + [now])[..|calls|] == calls;
    LimiterRefinesHistory(max, calls, now);
  }

  lemma SlotsSnoc(probes: seq<Probe>, x: Probe)
    ensures Slots(probes + [x]) == Slots(probes) + [x.slot]
  {
    assert (probes + [x])[..|probes|] == probes;
  }

  /** No closed minute of any run holds more recorded probes than the limit. */
  lemma ProbeRate(p: Prober, rounds: seq<Round>, a: real)
    requires p.symbols != [] && p.limiter.events == [] && Chronological(rounds)
    ensures |Filter(Slots(Probes(p, rounds)), Within(a, a + WINDOW))|
      <= if p.limiter.maxPerMin < 0 then 0 else p.limiter.maxPerMin
  {
    LimiterOfRun(p, rounds);
    CallsAscend(p, rounds);
    WindowBound(p.limiter.maxPerMin, Calls(p, rounds), a);
  }

  // ---- when a round probes, from the history alone ----

  /** When the failed probes of a run ended: each is an error to the breaker. */
  function FailedEnds(p: Prober, rounds: seq<Round>): seq<real>
    requires p.symbols != []
  {
    if rounds == [] then []
    else
      var init, r := rounds[..|rounds| - 1], rounds[|rounds| - 1];
      if IsProbed(Run(p, init), r) && r.outcome.Failed? then FailedEnds(p, init) + [r.ended] else FailedEnds(p, init)
  }

  /** The breaker of a run has seen exactly the ends of its failed probes. */
  lemma {:induction false} BreakerOfRun(p: Prober, rounds: seq<Round>)
    requires p.symbols != []
    ensures Run(p, rounds).breaker == RunBreaker(p.breaker, FailedEnds(p, rounds))
  {
    if rounds != [] {
      hide Pick, Allows, AfterAllow, AfterError, IsOpen;
      var init, r := rounds[..|rounds| - 1], rounds[|rounds| - 1];
      BreakerOfRun(p, init);
      var past := FailedEnds(p, init);
      assert (past + [r.ended])[..|past|] == past;
    }
  }

  /** When a symbol was last probed; never is zero. */
  function LastOf(probes: seq<Probe>, symbol: string): real {
    if probes == [] then 0.0
    else if probes[|probes| - 1].symbol == symbol then probes[|probes| - 1].at
    else LastOf(probes[..|probes| - 1], symbol)
  }

  lemma {:induction false} LastOfRun(p: Prober, rounds: seq<Round>, symbol: string)
    requires p.symbols != [] && p.last == map[]
    ensures LastProbe(Run(p, rounds).last)(symbol) == LastOf(Probes(p, rounds), symbol)
  {
    if rounds != [] {
      hide Pick, IsProbed, After;
      var init, r := rounds[..|rounds| - 1], rounds[|rounds| - 1];
      var before, past := Run(p, init), Probes(p, init);
      LastOfRun(p, init, symbol);
      LastAfter(before, r);
      var x := Probe(Pick(p.symbols, before.last), r.start, r.limited);
      assert (past + [x])[..|past|] == past;
    }
  }

  lemma LimiterNow(p: Prober, rounds: seq<Round>, r: Round)
    requires p.symbols != [] && p.limiter.events == [] && Chronological(rounds + [r])
    ensures Allows(Run(p, rounds).limiter, r.limited)
      <==> |Filter(Slots(Probes(p, rounds)), Within(r.limited - 60.0, r.limited))| < p.limiter.maxPerMin
  {
    hide Allows, Filter, RunLimiter, Accepted, Ascending, Slots, Probes, Calls;
    RoundsBefore(rounds, r);
    LimiterOfRun(p, rounds);
    CallsAscend(p, rounds);
    CallsUpTo(p, rounds, r);
    AppendedAscends(Calls(p, rounds), r.limited, r.limited);
    LimiterRefinesHistory(p.limiter.maxPerMin, Calls(p, rounds), r.limited);
  }

  lemma RoundsBefore(rounds: seq<Round>, r: Round)
    requires Chronological(rounds + [r])
    ensures Chronological(rounds) && Consistent(r)
    ensures rounds != [] ==> rounds[|rounds| - 1].limited < r.limited && rounds[|rounds| - 1].ended < r.start
  {
    var all := rounds + [r];
    assert all[|rounds|] == r;
    assert forall i :: 0 <= i < |rounds| ==> all[i] == rounds[i];
    if rounds != [] {
      assert all[|rounds| - 1].ended < all[|rounds|].start;
    }
  }

  lemma CallsUpTo(p: Prober, rounds: seq<Round>, r: Round)
    requires p.symbols != [] && Chronological(rounds + [r])
    ensures UpTo(Calls(p, rounds), r.limited)
  {
    RoundsBefore(rounds, r);
    CallsAscend(p, rounds);
  }

  /**
   * A round probes the next symbol in turn exactly when the breaker, fed by the ends of the
   * failed probes, is over its deadline, that symbol's last probe is a cooldown ago, and the
   * last minute holds fewer probes than the limit.
   */
  lemma ProbedIff(p: Prober, rounds: seq<Round>, r: Round)
    requires p.symbols != [] && Distinct(p.symbols) && p.last == map[] && p.limiter.events == []
    requires Chronological(rounds + [r])
    ensures var past, turn := Probes(p, rounds), p.symbols[|Probes(p, rounds)| % |p.symbols|];
      var probes :=
        && RunBreaker(p.breaker, FailedEnds(p, rounds)).coolUntil <= r.checked
        && r.start - LastOf(past, turn) >= p.cooldown
        && |Filter(Slots(past), Within(r.limited - 60.0, r.limited))| < p.limiter.maxPerMin;
      Probes(p, rounds + [r]) == if probes then past + [Probe(turn, r.start, r.limited)] else past
  {
    hide Pick, IsProbed, Allows, Probes, Filter, Slots, FailedEnds, Chronological, Distinct, Rotation, InTurn,
      RunBreaker, Run, LastOf;
    RoundsBefore(rounds, r);
    RoundRobin(p, rounds, r.start);
    var turn := |Probes(p, rounds)| % |p.symbols|;
    RotationPicks(Run(p, rounds), turn, r.start);
    LastOfRun(p, rounds, p.symbols[turn]);
    BreakerOfRun(p, rounds);
    LimiterNow(p, rounds, r);
    ProbedNow(Run(p, rounds), r);
    ProbesSnoc(p, rounds, r);
  }

  lemma ProbedNow(p: Prober, r: Round)
    requires p.symbols != []
    ensures IsProbed(p, r) <==>
      p.breaker.coolUntil <= r.checked && r.start - LastProbe(p.last)(Pick(p.symbols, p.last)) >= p.cooldown
      && Allows(p.limiter, r.limited)
  {
    hide Pick, Allows;
  }

  lemma ProbesSnoc(p: Prober, rounds: seq<Round>, r: Round)
    requires p.symbols != []
    ensures var before := Run(p, rounds);
      Probes(p, rounds + [r]) ==
        if IsProbed(before, r) then Probes(p, rounds) + [Probe(Pick(before.symbols, before.last), r.start, r.limited)]
        else Probes(p, rounds)
  {
    hide Pick, IsProbed, Run;
    assert (rounds + [r])[..|rounds|] == rounds;
  }

  // ---- the object ----

  class AutoProber {
    const symbols: seq<string>
    const cooldown: real
    const limiter: OrderRateLimiter
    const breaker: CircuitBreaker
    var last: map<string, real>

    function State(): Prober
      reads this, limiter, breaker
    {
      Prober(symbols, last, cooldown, limiter.State(), breaker.State())
    }

    constructor (symbols: seq<string>, cooldown: real, limiter: OrderRateLimiter, breaker: CircuitBreaker)
      ensures State() == Prober(symbols, map[], cooldown, limiter.State(), breaker.State())
      ensures this.limiter == limiter && this.breaker == breaker
    {
      this.symbols, this.cooldown, this.limiter, this.breaker := symbols, cooldown, limiter, breaker;
      last := map[];
    }

    /** The clock is read where the round reads it. */
    method ProbeRound(r: Round) returns (probed: bool)
      requires symbols != []
      modifies this, limiter, breaker
      ensures State() == After(old(State()), r)
      ensures probed <==> IsProbed(old(State()), r)
    {
      hide AfterError, AfterAllow, Allows;
      var symbol := Pick(symbols, last);
      if r.checked < breaker.coolUntil {
        return false;
      }
      if r.start - LastProbe(last)(symbol) < cooldown {
        return false;
      }
      probed := limiter.Allow(r.limited);
      if probed {
        if r.outcome.Failed? {
          breaker.RecordError(r.ended);
        }
        last := last[symbol := r.start];
      }
    }
  }
}
