/**
 * The venue error-rate breaker of engine/risk.py against the full history of results.
 * The deque is the history since the latest window start of the run, so it is the
 * window at the last record exactly when no result of that window was pruned before.
 * A negative window, which the configuration allows, starts after its own record and
 * so empties the deque.
 */
module VenueBreaker {
  import opened Basics
  import opened Sequences
  import opened SlidingWindow
  import opened RiskRails
  import opened RiskLaws

  /** Every result recorded in a run. */
  function History(ops: seq<Op>): seq<Result> {
    if ops == [] then []
    else
      var past, op := History(ops[..|ops| - 1]), ops[|ops| - 1];
      if op.Record? then past + [Result(op.now, op.ok)] else past
  }

  /** Start of the window, and threshold, at the last record; None before the first. */
  ghost function LastWindow(r: Rails, ops: seq<Op>): Option<(real, real)> {
    if ops == [] then None
    else
      var mid, op := Run(r, ops[..|ops| - 1]), ops[|ops| - 1];
      if op.Record? then Some((op.now - mid.cfg.venueErrorWindow, mid.cfg.venueErrorPct))
      else LastWindow(r, ops[..|ops| - 1])
  }

  /** Windows are not negative and their starts never move back. */
  ghost predicate WindowsForward(r: Rails, ops: seq<Op>) {
    ops == [] ||
    var init, op := ops[..|ops| - 1], ops[|ops| - 1];
    && WindowsForward(r, init)
    && (op.Record? ==>
          var w, last := Run(r, init).cfg.venueErrorWindow, LastWindow(r, init);
          w >= 0.0 && (last.Some? ==> last.value.0 <= op.now - w))
  }

  /** The results since the last record with a negative window, which pruned everything. */
  ghost function Epoch(r: Rails, ops: seq<Op>): seq<Result> {
    if ops == [] then []
    else
      var init, op := ops[..|ops| - 1], ops[|ops| - 1];
      if !op.Record? then Epoch(r, init)
      else if Run(r, init).cfg.venueErrorWindow < 0.0 then []
      else Epoch(r, init) + [Result(op.now, op.ok)]
  }

  /** The results before. */
  ghost function Dropped(r: Rails, ops: seq<Op>): seq<Result> {
    if ops == [] then []
    else
      var init, op := ops[..|ops| - 1], ops[|ops| - 1];
      if op.Record? && Run(r, init).cfg.venueErrorWindow < 0.0 then History(ops) else Dropped(r, init)
  }

  lemma {:induction false} HistorySplits(r: Rails, ops: seq<Op>)
    ensures History(ops) == Dropped(r, ops) + Epoch(r, ops)
  {
    if ops != [] {
      hide Run;
      HistorySplits(r, ops[..|ops| - 1]);
    }
  }

  /** The latest window start among the epoch's records, and the threshold at the last one. */
  ghost function HighWindow(r: Rails, ops: seq<Op>): Option<(real, real)> {
    if ops == [] then None
    else
      var init, op := ops[..|ops| - 1], ops[|ops| - 1];
      if op.Record? then Raised(Run(r, init).cfg, HighWindow(r, init), op.now) else HighWindow(r, init)
  }

  function Raised(cfg: Config, high: Option<(real, real)>, now: real): Option<(real, real)> {
    var start := now - cfg.venueErrorWindow;
    if cfg.venueErrorWindow < 0.0 then None
    else Some((if high.Some? then Max(high.value.0, start) else start, cfg.venueErrorPct))
  }

  predicate ResultsUpTo(q: seq<Result>, hi: real) { forall i :: 0 <= i < |q| ==> q[i].at <= hi }

  lemma CheckKeepsErrors(r: Rails, o: Order, w: World, c: Clock)
    ensures CheckOrder(r, o, w, c).0.errors == r.errors && CheckOrder(r, o, w, c).0.tripped == r.tripped
  {
    hide Rules, Gate, Breach, Refresh, Allows, GrantsLock, AfterAllow, LockKey;
    RefreshKeepsErrors(AfterGate(r, o, w, c.breaker), w.equity, c.refresh);
  }

  lemma RefreshKeepsErrors(r: Rails, equity: Option<real>, now: real)
    ensures Refresh(r, equity, now).errors == r.errors && Refresh(r, equity, now).tripped == r.tripped
  {
    hide Breach, Peak;
  }

  lemma KeepsErrors(r: Rails, op: Op)
    ensures !op.Record? ==> Next(r, op).errors == r.errors && Next(r, op).tripped == r.tripped
  {
    hide CheckOrder, Refresh, RecordResult;
    match op
    case Check(o, w, c) => CheckKeepsErrors(r, o, w, c);
    case RefreshOp(equity, now) => RefreshKeepsErrors(r, equity, now);
    case _ =>
  }

  /** One record prunes to the later of the cutoff so far and its own. */
  lemma RecordKeepsWindow(past: seq<Result>, errors: seq<Result>, x: Result, c: Option<real>, c': real)
    requires Ascending(past + [x], Stamp()) && c' <= x.at
    requires if c.None? then past == errors == []
             else errors == Filter(past, Since(Stamp(), c.value)) && c.value <= x.at
    ensures var high := if c.Some? then Max(c.value, c') else c';
      Prune(errors + [x], Stamp(), c') == Filter(past + [x], Since(Stamp(), high)) != []
  {
    hide Filter, Prune;
    FilterSnoc(past, x, Since(Stamp(), c'));
    if c.Some? {
      FilterSnoc(past, x, Since(Stamp(), c.value));
      FilterAscending(past + [x], Stamp(), Since(Stamp(), c.value));
      PruneIsFilter(errors + [x], Stamp(), c');
      if c.value <= c' {
        FilterTwice(past + [x], Stamp(), c.value, c');
      } else {
        FilterWider(past + [x], c.value, c');
      }
    } else {
      assert past + [x] == errors + [x];
      PruneIsFilter(errors + [x], Stamp(), c');
    }
  }

  /** A window that starts after the record prunes everything. */
  lemma RecordEmpties(past: seq<Result>, errors: seq<Result>, x: Result, c: Option<real>, c': real)
    requires Ascending(past + [x], Stamp()) && x.at < c'
    requires if c.None? then past == errors == [] else errors == Filter(past, Since(Stamp(), c.value))
    ensures Prune(errors + [x], Stamp(), c') == []
  {
    hide Prune;
    forall y | y in errors
      ensures y.at <= x.at
    {
      if c.Some? {
        FilterMember(past, Since(Stamp(), c.value), y);
      }
      var i :| 0 <= i < |past| && past[i] == y;
      assert Stamp()((past + [x])[i]) <= Stamp()((past + [x])[|past|]);
    }
    AllPruned(errors + [x], c');
  }

  lemma {:induction false} AllPruned(q: seq<Result>, cutoff: real)
    requires forall y :: y in q ==> y.at < cutoff
    ensures Prune(q, Stamp(), cutoff) == []
    decreases |q|
  {
    if q != [] {
      AllPruned(q[1..], cutoff);
    }
  }

  /** What lies in the narrower window lies in the wider one. */
  lemma FilterWider(q: seq<Result>, c: real, wider: real)
    requires wider <= c
    ensures Filter(Filter(q, Since(Stamp(), c)), Since(Stamp(), wider)) == Filter(q, Since(Stamp(), c))
  {
    var kept := Filter(q, Since(Stamp(), c));
    forall x | x in kept
      ensures Since(Stamp(), wider)(x)
    {
      FilterMember(q, Since(Stamp(), c), x);
    }
    FilterAll(kept, Since(Stamp(), wider));
  }

  /** The rails' window is `past` since the last cutoff, and the flag the rate over it. */
  ghost predicate Exact(r: Rails, past: seq<Result>, last: Option<(real, real)>) {
    if last.None? then past == r.errors == []
    else
      && r.errors == Filter(past, Since(Stamp(), last.value.0)) != []
      && (r.tripped <==> ErrorRate(r.errors) >= last.value.1)
  }

  lemma RecordIsExact(r: Rails, past: seq<Result>, high: Option<(real, real)>, ok: bool, now: real)
    requires Exact(r, past, high) && Ascending(past + [Result(now, ok)], Stamp()) && StartsBy(high, now)
    ensures var window := r.cfg.venueErrorWindow;
      Exact(RecordResult(r, ok, now), if window < 0.0 then [] else past + [Result(now, ok)], Raised(r.cfg, high, now))
    ensures r.cfg.venueErrorWindow < 0.0 ==> RecordResult(r, ok, now).tripped == r.tripped
  {
    hide Filter, Prune, ErrorRate, Ascending;
    var start := now - r.cfg.venueErrorWindow;
    var c := if high.Some? then Some(high.value.0) else None;
    if r.cfg.venueErrorWindow < 0.0 {
      RecordEmpties(past, r.errors, Result(now, ok), c, start);
    } else {
      RecordKeepsWindow(past, r.errors, Result(now, ok), c, start);
    }
  }

  /** One step of a run, seen from the breaker. */
  lemma HighStep(r: Rails, ops: seq<Op>)
    requires ops != []
    ensures var init, op, mid := ops[..|ops| - 1], ops[|ops| - 1], Run(r, ops[..|ops| - 1]);
            && Epoch(r, ops) == EpochAfter(mid, op, Epoch(r, init))
            && HighWindow(r, ops) == (if op.Record? then Raised(mid.cfg, HighWindow(r, init), op.now)
                                      else HighWindow(r, init))
  {
    hide Run;
  }

  function EpochAfter(mid: Rails, op: Op, past: seq<Result>): seq<Result> {
    if !op.Record? then past
    else if mid.cfg.venueErrorWindow < 0.0 then []
    else past + [Result(op.now, op.ok)]
  }

  ghost predicate StartsBy(high: Option<(real, real)>, now: real) { high.Some? ==> high.value.0 <= now }

  /** The epoch is chronological, and none of its windows starts later than the clock. */
  lemma {:induction false} EpochUpTo(r: Rails, t0: real, ops: seq<Op>)
    requires Chronological(t0, ops)
    ensures StartsBy(HighWindow(r, ops), EndTime(t0, ops))
    ensures Ascending(Epoch(r, ops), Stamp()) && ResultsUpTo(Epoch(r, ops), EndTime(t0, ops))
  {
    if ops != [] {
      hide Run, Epoch, HighWindow, Chronological;
      HighStep(r, ops);
      PrefixChronological(t0, ops);
      EpochUpTo(r, t0, ops[..|ops| - 1]);
      TimeForward(t0, ops);
      RecordTime(t0, ops);
    } else {
      assert HighWindow(r, []) == None && Epoch(r, []) == [];
    }
  }

  /** The rails before the last operation of a run are exact, and so they are after it. */
  lemma ExactStep(mid: Rails, op: Op, past: seq<Result>, high: Option<(real, real)>)
    requires Exact(mid, past, high)
    requires op.Record? ==> Ascending(past + [Result(op.now, op.ok)], Stamp()) && StartsBy(high, op.now)
    ensures Exact(Next(mid, op), EpochAfter(mid, op, past), if op.Record? then Raised(mid.cfg, high, op.now) else high)
  {
    hide Next, Exact, Ascending, RecordResult, Raised;
    if op.Record? {
      RecordIsExact(mid, past, high, op.ok, op.now);
      NextRecord(mid, op);
    } else {
      KeepsErrors(mid, op);
      SameExact(mid, Next(mid, op), past, high);
    }
  }

  lemma SnocAscends(past: seq<Result>, x: Result)
    requires Ascending(past, Stamp()) && ResultsUpTo(past, x.at)
    ensures Ascending(past + [x], Stamp())
  {
  }

  /**
   * In every run of a new object the deque is the epoch since the latest window start,
   * and the flag its error rate at the last record.
   */
  lemma {:induction false} WindowIsHighWater(r: Rails, t0: real, ops: seq<Op>)
    requires r.errors == [] && Chronological(t0, ops)
    ensures Exact(Run(r, ops), Epoch(r, ops), HighWindow(r, ops))
  {
    hide Next, Ascending, Chronological, Exact, Run, Epoch, HighWindow, Raised, EpochAfter;
    if ops != [] {
      var init, op := ops[..|ops| - 1], ops[|ops| - 1];
      HighStep(r, ops);
      PrefixChronological(t0, ops);
      WindowIsHighWater(r, t0, init);
      RunSnoc(r, ops);
      EpochUpTo(r, t0, init);
      TimeForward(t0, ops);
      RecordTime(t0, ops);
      if op.Record? {
        SnocAscends(Epoch(r, init), Result(op.now, op.ok));
      }
      ExactStep(Run(r, init), op, Epoch(r, init), HighWindow(r, init));
    } else {
      NothingRecorded(r);
    }
  }

  lemma RecordTime(t0: real, ops: seq<Op>)
    requires ops != []
    ensures ops[|ops| - 1].Record? ==> EndTime(t0, ops) == ops[|ops| - 1].now
  {
  }

  // ---- the window at the last record ----

  lemma {:induction false} LastBelowHigh(r: Rails, ops: seq<Op>)
    ensures HighWindow(r, ops).Some? ==>
      && LastWindow(r, ops).Some?
      && LastWindow(r, ops).value.0 <= HighWindow(r, ops).value.0
      && LastWindow(r, ops).value.1 == HighWindow(r, ops).value.1
    ensures HighWindow(r, ops).None? ==> Epoch(r, ops) == []
  {
    if ops != [] {
      hide Run;
      LastBelowHigh(r, ops[..|ops| - 1]);
    }
  }

  /** No result of the window that starts at `last` was pruned: none before the epoch, none before its latest start. */
  ghost predicate NothingForgotten(r: Rails, ops: seq<Op>, last: real) {
    && (forall x :: x in Dropped(r, ops) ==> x.at < last)
    && (HighWindow(r, ops).Some? ==> Reaches(Epoch(r, ops), last, HighWindow(r, ops).value.0))
  }

  /** What is in the window from `last` on is in the window from `high` on. */
  ghost predicate Reaches(past: seq<Result>, last: real, high: real) {
    forall x :: x in past && last <= x.at ==> high <= x.at
  }

  lemma {:induction false} SameWindow(q: seq<Result>, last: real, high: real)
    requires last <= high && Reaches(q, last, high)
    ensures Filter(q, Since(Stamp(), high)) == Filter(q, Since(Stamp(), last))
  {
    if q != [] {
      var init, x := q[..|q| - 1], q[|q| - 1];
      assert q == init + [x];
      SameWindow(init, last, high);
    }
  }

  lemma SameWindowIff(q: seq<Result>, last: real, high: real)
    requires last <= high
    ensures Filter(q, Since(Stamp(), high)) == Filter(q, Since(Stamp(), last)) <==> Reaches(q, last, high)
  {
    if Reaches(q, last, high) {
      SameWindow(q, last, high);
    } else {
      var x :| x in q && last <= x.at < high;
      FilterMember(q, Since(Stamp(), high), x);
      FilterMember(q, Since(Stamp(), last), x);
    }
  }

  /** Whether the full history has nothing more in the window than its later part has in a later window. */
  lemma SplitWindowIff(dropped: seq<Result>, epoch: seq<Result>, last: real, high: real)
    requires last <= high
    ensures Filter(epoch, Since(Stamp(), high)) == Filter(dropped + epoch, Since(Stamp(), last))
      <==> (forall x :: x in dropped ==> x.at < last) && Reaches(epoch, last, high)
  {
    hide Filter;
    FilterConcat(dropped, epoch, Since(Stamp(), last));
    FilterSubset(epoch, Since(Stamp(), high), Since(Stamp(), last));
    SameWindowIff(epoch, last, high);
    EmptyWindowIff(dropped, last);
    var a, b := Filter(dropped, Since(Stamp(), last)), Filter(epoch, Since(Stamp(), last));
    var c := Filter(epoch, Since(Stamp(), high));
    if c == a + b {
      assert |a| == 0 && a == [] && a + b == b;
    } else if a == [] {
      assert a + b == b;
    }
  }

  lemma EmptyWindowIff(q: seq<Result>, last: real)
    ensures Filter(q, Since(Stamp(), last)) == [] <==> forall x :: x in q ==> x.at < last
  {
    var kept := Filter(q, Since(Stamp(), last));
    if kept == [] {
      forall x | x in q
        ensures x.at < last
      {
        FilterMember(q, Since(Stamp(), last), x);
      }
    } else {
      assert kept[0] in kept;
      FilterMember(q, Since(Stamp(), last), kept[0]);
    }
  }

  /**
   * The deque is the full history restricted to the window at the last record exactly
   * when no result of that window was pruned by an earlier record; where that window is
   * not negative, the deque and the flag are exact together under the same condition.
   */
  lemma RefinesHistoryIff(r: Rails, t0: real, ops: seq<Op>)
    requires r.errors == [] && Chronological(t0, ops) && LastWindow(r, ops).Some?
    ensures Run(r, ops).errors == Filter(History(ops), Since(Stamp(), LastWindow(r, ops).value.0))
      <==> NothingForgotten(r, ops, LastWindow(r, ops).value.0)
    ensures HighWindow(r, ops).Some? ==>
      (Exact(Run(r, ops), History(ops), LastWindow(r, ops)) <==> NothingForgotten(r, ops, LastWindow(r, ops).value.0))
  {
    hide Filter, Run, History, Chronological, LastWindow, HighWindow, ErrorRate, Epoch, Dropped, Reaches;
    WindowIsHighWater(r, t0, ops);
    LastBelowHigh(r, ops);
    HistorySplits(r, ops);
    var last := LastWindow(r, ops).value.0;
    if HighWindow(r, ops).Some? {
      SplitWindowIff(Dropped(r, ops), Epoch(r, ops), last, HighWindow(r, ops).value.0);
    } else {
      assert Dropped(r, ops) + [] == Dropped(r, ops);
      EmptyWindowIff(Dropped(r, ops), last);
    }
  }

  lemma {:induction false} ForwardIsHigh(r: Rails, ops: seq<Op>)
    requires WindowsForward(r, ops)
    ensures HighWindow(r, ops) == LastWindow(r, ops) && Epoch(r, ops) == History(ops)
  {
    if ops != [] {
      hide Run;
      ForwardIsHigh(r, ops[..|ops| - 1]);
    }
  }

  /** In particular, while window starts never move back the flag is the rate over the window. */
  lemma BreakerRefinesHistory(r: Rails, t0: real, ops: seq<Op>)
    requires r.errors == [] && Chronological(t0, ops) && WindowsForward(r, ops)
    ensures Exact(Run(r, ops), History(ops), LastWindow(r, ops))
  {
    hide Exact, Run, History, Chronological, WindowsForward, Epoch;
    ForwardIsHigh(r, ops);
    WindowIsHighWater(r, t0, ops);
  }

  lemma NothingRecorded(r: Rails)
    requires r.errors == []
    ensures Exact(Run(r, []), Epoch(r, []), HighWindow(r, []))
  {
  }

  lemma SameExact(r: Rails, r': Rails, past: seq<Result>, last: Option<(real, real)>)
    requires Exact(r, past, last) && r'.errors == r.errors && r'.tripped == r.tripped
    ensures Exact(r', past, last)
  {
  }

  lemma NextRecord(r: Rails, op: Op)
    requires op.Record?
    ensures Next(r, op) == RecordResult(r, op.ok, op.now)
  {
  }

  lemma PrefixChronological(t0: real, ops: seq<Op>)
    requires ops != [] && Chronological(t0, ops)
    ensures Chronological(t0, ops[..|ops| - 1])
  {
  }

  /** Widening the window on a reload: entries already pruned are missed, and the flag with them. */
  lemma WidenedWindowForgets(r: Rails, cfg: Config)
    requires r.errors == [] && r.cfg == cfg.(venueErrorWindow := 1.0)
    requires cfg.venueErrorWindow == 10.0 && cfg.venueErrorPct == 30.0
    ensures var ops := [Record(false, 0.0), Record(true, 5.0), Reload(cfg), Record(true, 6.0)];
            && LastWindow(r, ops) == Some((-4.0, 30.0))
            && Filter(History(ops), Since(Stamp(), -4.0)) == History(ops) != []
            && ErrorRate(History(ops)) >= 30.0 && !Run(r, ops).tripped
  {
    hide RecordResult, ErrorRate, Filter;
    WidenedRun(r, cfg);
    WidenedHistory(cfg);
  }

  lemma WidenedHistory(cfg: Config)
    ensures var ops := [Record(false, 0.0), Record(true, 5.0), Reload(cfg), Record(true, 6.0)];
            && Filter(History(ops), Since(Stamp(), -4.0)) == History(ops) != []
            && ErrorRate(History(ops)) >= 30.0
  {
    var a, b, c := Result(0.0, false), Result(5.0, true), Result(6.0, true);
    var o1, o2, o3, o4 := Record(false, 0.0), Record(true, 5.0), Reload(cfg), Record(true, 6.0);
    Prefixes(o1, o2, o3, o4);
    assert History([o1]) == [a];
    assert History([o1, o2]) == [a] + [b];
    assert History([o1, o2, o3]) == [a] + [b];
    assert History([o1, o2, o3, o4]) == [a] + [b] + [c];
    FilterAll([a] + [b] + [c], Since(Stamp(), -4.0));
    FilterSnoc([a] + [b], c, Failed());
    FilterSnoc([a], b, Failed());
    FilterAll([a], Failed());
  }

  lemma WidenedRun(r: Rails, cfg: Config)
    requires r.errors == [] && r.cfg == cfg.(venueErrorWindow := 1.0)
    requires cfg.venueErrorWindow == 10.0 && cfg.venueErrorPct == 30.0
    ensures var ops := [Record(false, 0.0), Record(true, 5.0), Reload(cfg), Record(true, 6.0)];
            LastWindow(r, ops) == Some((-4.0, 30.0)) && !Run(r, ops).tripped
  {
    var a, b, c := Result(0.0, false), Result(5.0, true), Result(6.0, true);
    var o1, o2, o3, o4 := Record(false, 0.0), Record(true, 5.0), Reload(cfg), Record(true, 6.0);
    Prefixes(o1, o2, o3, o4);
    var r1, r2, r3 := Run(r, [o1]), Run(r, [o1, o2]), Run(r, [o1, o2, o3]);
    RunSnoc(r, [o1]);
    RunSnoc(r, [o1, o2]);
    RunSnoc(r, [o1, o2, o3]);
    RunSnoc(r, [o1, o2, o3, o4]);
    assert Run(r, []) == r;
    hide Run;
    assert r1 == RecordResult(r, false, 0.0) && r2 == RecordResult(r1, true, 5.0) && r3 == r2.(cfg := cfg);
    assert Run(r, [o1, o2, o3, o4]) == RecordResult(r3, true, 6.0);
    OneErrorThenWider(r, r3, a, b, c);
  }

  /** An error, a success that prunes it, and a success under a wider window. */
  lemma OneErrorThenWider(r: Rails, wide: Rails, a: Result, b: Result, c: Result)
    requires a == Result(0.0, false) && b == Result(5.0, true) && c == Result(6.0, true)
    requires r.errors == [] && r.cfg.venueErrorWindow == 1.0
    requires wide == RecordResult(RecordResult(r, false, 0.0), true, 5.0).(cfg := wide.cfg)
    requires wide.cfg.venueErrorWindow == 10.0 && wide.cfg.venueErrorPct == 30.0
    ensures !RecordResult(wide, true, 6.0).tripped
  {
    hide Filter, ErrorRate;
    assert [] + [a] == [a] && RecordResult(r, false, 0.0).errors == [a];
    assert ([a] + [b])[1..] == [b];
    assert Prune([a] + [b], Stamp(), 4.0) == Prune([b], Stamp(), 4.0) == [b];
    assert wide.errors == [b];
    assert Prune([b] + [c], Stamp(), -4.0) == [b] + [c];
    NoFailures(b, c);
  }

  lemma NoFailures(b: Result, c: Result)
    requires b.ok && c.ok
    ensures ErrorRate([b] + [c]) == 0.0
  {
    FilterNone([b] + [c], Failed());
  }

  lemma Prefixes<T>(a: T, b: T, c: T, d: T)
    ensures [a, b, c, d][..3] == [a, b, c] && [a, b, c][..2] == [a, b] && [a, b][..1] == [a] && [a][..0] == []
  {
  }
}
