/** Small value types and real-number helpers shared by every component. */
module Basics {
  datatype Option<+T> = None | Some(value: T)

  function Abs(x: real): real { if x < 0.0 then -x else x }

  function Min(x: real, y: real): real { if x <= y then x else y }

  function Max(x: real, y: real): real { if x >= y then x else y }

  /** max(lo, min(hi, x)), in the order the source nests the two calls. */
  function Clamp(lo: real, hi: real, x: real): real { Max(lo, Min(hi, x)) }
}

/** Products and quotients of reals, one fact at a time. */
module RealFacts {
  import opened Basics

  lemma NonNegative(x: real, y: real)
    requires x >= 0.0 && y >= 0.0
    ensures x * y >= 0.0
  {
  }

  lemma StrictlyBelow(a: real, b: real, x: real)
    requires x > 0.0 && a < b
    ensures a * x < b * x
  {
  }

  lemma QuotientBetween(n: real, d: real, lo: real, hi: real)
    requires d > 0.0 && lo * d <= n <= hi * d
    ensures lo <= n / d <= hi
  {
    var r := n / d;
    assert r * d == n;
    if r < lo {
      StrictlyBelow(r, lo, d);
    } else if r > hi {
      StrictlyBelow(hi, r, d);
    }
  }

  lemma ProductWithin(x: real, y: real, maxX: real, maxY: real)
    requires Abs(x) <= maxX && Abs(y) <= maxY
    ensures Abs(x * y) <= maxX * maxY
  {
    NonNegative(maxX - x, maxY + y);
    NonNegative(maxX + x, maxY - y);
    NonNegative(maxX - x, maxY - y);
    NonNegative(maxX + x, maxY + y);
  }

  lemma MeanAbove(a: real, x: real, p: real, y: real, lo: real)
    requires x >= 0.0 && y >= 0.0 && lo <= p && (x == 0.0 || lo <= a)
    ensures lo * (x + y) <= a * x + p * y
  {
    if x > 0.0 {
      NonNegative(a - lo, x);
    }
    NonNegative(p - lo, y);
  }

  lemma MeanBelow(a: real, x: real, p: real, y: real, hi: real)
    requires x >= 0.0 && y >= 0.0 && p <= hi && (x == 0.0 || a <= hi)
    ensures a * x + p * y <= hi * (x + y)
  {
    if x > 0.0 {
      NonNegative(hi - a, x);
    }
    NonNegative(hi - p, y);
  }

  /** What `part` of `whole` is worth when the whole is worth `value`. */
  function Portion(part: real, whole: real, value: real): real
    requires whole != 0.0
  {
    part / whole * value
  }

  lemma PortionTimes(part: real, whole: real, value: real)
    requires whole != 0.0
    ensures Portion(part, whole, value) * whole == part * value
  {
    var q := part / whole;
    assert q * whole == part;
    assert q * value * whole == (q * whole) * value;
  }

  lemma PortionNonNegative(part: real, whole: real, value: real)
    requires part >= 0.0 && whole > 0.0 && value >= 0.0
    ensures Portion(part, whole, value) >= 0.0
  {
    NonNegative(part / whole, value);
  }

  lemma PortionSplit(x: real, y: real, whole: real, value: real)
    requires whole > 0.0
    ensures Portion(x + y, whole, value) == Portion(x, whole, value) + Portion(y, whole, value)
    ensures Portion(0.0, whole, value) == 0.0
  {
    assert (x + y) / whole == x / whole + y / whole;
  }

  lemma PortionOfAll(whole: real, value: real)
    requires whole > 0.0
    ensures Portion(whole, whole, value) == value
  {
    assert whole / whole == 1.0;
  }

  lemma NextMultiple(n: nat, x: real)
    ensures (n + 1) as real * x == n as real * x + x
  {
  }

  /** A weighted mean of two prices lies between them. */
  lemma MeanBetween(a: real, x: real, p: real, y: real, lo: real, hi: real)
    requires x >= 0.0 && y >= 0.0 && x + y > 0.0
    requires lo <= p <= hi && (x == 0.0 || lo <= a <= hi)
    ensures lo <= (a * x + p * y) / (x + y) <= hi
  {
    MeanAbove(a, x, p, y, lo);
    MeanBelow(a, x, p, y, hi);
    QuotientBetween(a * x + p * y, x + y, lo, hi);
  }
}

/**
 * Symbol strings: upper-casing and splitting at dots. Only ASCII letters change
 * case, which covers every ticker and venue name.
 */
module Symbols {
  const DEFAULT_VENUE := "BINANCE"

  function UpperChar(c: char): char {
    if 'a' <= c <= 'z' then ((c as int) - 32) as char else c
  }

  function Upper(s: string): (r: string)
    ensures |r| == |s|
    ensures forall i :: 0 <= i < |s| ==> r[i] == UpperChar(s[i])
  {
    seq(|s|, i requires 0 <= i < |s| => UpperChar(s[i]))
  }

  function LowerChar(c: char): char {
    if 'A' <= c <= 'Z' then ((c as int) + 32) as char else c
  }

  function Lower(s: string): string {
    seq(|s|, i requires 0 <= i < |s| => LowerChar(s[i]))
  }

  predicate HasDot(s: string) { '.' in s }

  /** `s.split(".")[0]`. */
  function Base(s: string): string {
    if s == [] || s[0] == '.' then [] else [s[0]] + Base(s[1..])
  }

  /** Everything after the first dot; empty when there is none. */
  function AfterDot(s: string): string {
    if s == [] then [] else if s[0] == '.' then s[1..] else AfterDot(s[1..])
  }

  /** `s.split(".")[1]`, for a symbol that has a dot. */
  function Venue(s: string): string { Base(AfterDot(s)) }

  /** The venue a symbol trades on, with the default for a bare symbol. */
  function VenueOrDefault(s: string): string {
    if HasDot(s) then Upper(Venue(s)) else DEFAULT_VENUE
  }

  function Qualify(s: string, venue: string): string {
    if HasDot(s) then s else s + "." + venue
  }

  lemma UpperIdempotent(s: string)
    ensures Upper(Upper(s)) == Upper(s)
  {
  }

  lemma {:induction false} DotFreeBase(s: string)
    requires !HasDot(s)
    ensures Base(s) == s
  {
    if s != [] {
      DotFreeBase(s[1..]);
    }
  }

  /** Upper-casing commutes with taking the base and keeps dots where they are. */
  lemma {:induction false} UpperBase(s: string)
    ensures Base(Upper(s)) == Upper(Base(s))
    ensures HasDot(Upper(s)) <==> HasDot(s)
  {
    if s != [] {
      assert Upper(s)[1..] == Upper(s[1..]);
      UpperBase(s[1..]);
      assert s == [s[0]] + s[1..];
      assert Upper(s) == [UpperChar(s[0])] + Upper(s[1..]);
      if s[0] != '.' {
        assert Upper([s[0]] + Base(s[1..])) == [UpperChar(s[0])] + Upper(Base(s[1..]));
      }
    }
  }

  lemma {:induction false} UpperAfterDot(s: string)
    ensures AfterDot(Upper(s)) == Upper(AfterDot(s))
  {
    if s != [] {
      assert Upper(s)[1..] == Upper(s[1..]);
      UpperAfterDot(s[1..]);
    }
  }

  /** The venue of a symbol does not depend on how the symbol is spelled. */
  lemma UpperVenue(s: string)
    ensures VenueOrDefault(Upper(s)) == VenueOrDefault(s)
  {
    UpperBase(s);
    UpperAfterDot(s);
    UpperBase(AfterDot(s));
    UpperIdempotent(Venue(s));
  }

  /** A suffix after a dot does not change the base. */
  lemma {:induction false} BaseOfJoined(s: string, t: string)
    ensures Base(s + "." + t) == Base(s)
  {
    if s == [] {
    } else {
      assert (s + "." + t)[1..] == s[1..] + "." + t;
      if s[0] != '.' {
        BaseOfJoined(s[1..], t);
      }
    }
  }

  /** Joining a dot-free base and a dot-free venue is undone by splitting. */
  lemma {:induction false} SplitJoined(base: string, venue: string)
    requires !HasDot(base) && !HasDot(venue)
    ensures HasDot(base + "." + venue)
    ensures Base(base + "." + venue) == base
    ensures Venue(base + "." + venue) == venue
  {
    var s := base + "." + venue;
    assert s[|base|] == '.';
    if base == [] {
      assert s[1..] == venue;
      DotFreeBase(venue);
    } else {
      assert s[1..] == base[1..] + "." + venue;
      SplitJoined(base[1..], venue);
    }
  }
}

/** Finite sums of reals, over maps and over sequences. */
module Sums {
  ghost function Sum<K>(m: map<K, real>): real
    decreases |m|
  {
    if m == map[] then 0.0 else
      var k :| k in m;
      m[k] + Sum(m - {k})
  }

  /** The value stored under k, or zero: what k contributes to the sum. */
  function At<K>(m: map<K, real>, k: K): real { if k in m then m[k] else 0.0 }

  /** The sum does not depend on which key is taken first. */
  lemma {:induction false} SumSplit<K>(m: map<K, real>, k: K)
    ensures Sum(m) == Sum(m - {k}) + At(m, k)
    decreases |m|
  {
    if k !in m {
      assert m - {k} == m;
    } else {
      var j :| j in m && Sum(m) == m[j] + Sum(m - {j});
      if j != k {
        SumSplit(m - {j}, k);
        SumSplit(m - {k}, j);
        assert m - {j} - {k} == m - {k} - {j};
      }
    }
  }

  lemma SumUpdate<K>(m: map<K, real>, k: K, v: real)
    ensures Sum(m[k := v]) == Sum(m) - At(m, k) + v
  {
    SumSplit(m, k);
    SumSplit(m[k := v], k);
    assert m[k := v] - {k} == m - {k};
  }

  function Total(xs: seq<real>): real {
    if xs == [] then 0.0 else Total(xs[..|xs| - 1]) + xs[|xs| - 1]
  }

  lemma TotalSnoc(xs: seq<real>, x: real)
    ensures Total(xs + [x]) == Total(xs) + x
  {
    assert (xs + [x])[..|xs|] == xs;
  }

  lemma {:induction false} TotalConcat(xs: seq<real>, ys: seq<real>)
    ensures Total(xs + ys) == Total(xs) + Total(ys)
    decreases |ys|
  {
    if ys == [] {
      assert xs + ys == xs;
    } else {
      assert (xs + ys)[..|xs + ys| - 1] == xs + ys[..|ys| - 1];
      TotalConcat(xs, ys[..|ys| - 1]);
    }
  }

  ghost function SumSeq<T>(s: seq<T>, w: T -> real): real {
    if s == [] then 0.0 else SumSeq(s[..|s| - 1], w) + w(s[|s| - 1])
  }

  lemma SumSeqNone<T>(w: T -> real)
    ensures SumSeq([], w) == 0.0
  {
  }

  lemma SumSeqSnoc<T>(s: seq<T>, x: T, w: T -> real)
    ensures SumSeq(s + [x], w) == SumSeq(s, w) + w(x)
  {
    assert (s + [x])[..|s|] == s;
  }

  lemma {:induction false} SumSeqSame<T>(s: seq<T>, v: T -> real, w: T -> real)
    requires forall x :: v(x) == w(x)
    ensures SumSeq(s, v) == SumSeq(s, w)
  {
    if s != [] {
      SumSeqSame(s[..|s| - 1], v, w);
    }
  }

  lemma {:induction false} SumSeqConcat<T>(s: seq<T>, t: seq<T>, w: T -> real)
    ensures SumSeq(s + t, w) == SumSeq(s, w) + SumSeq(t, w)
    decreases |t|
  {
    if t == [] {
      assert s + t == s;
    } else {
      var u := t[..|t| - 1];
      assert (s + t)[..|s + t| - 1] == s + u;
      SumSeqConcat(s, u, w);
    }
  }

  /** A sum over a sequence only depends on which elements occur, and how often. */
  lemma {:induction false} SumSeqPermutation<T>(s: seq<T>, t: seq<T>, w: T -> real)
    requires multiset(s) == multiset(t)
    ensures SumSeq(s, w) == SumSeq(t, w)
    decreases |s|
  {
    if s == [] {
      assert |multiset(t)| == 0;
    } else {
      var x := s[|s| - 1];
      assert s == s[..|s| - 1] + [x];
      assert x in multiset(t);
      var i :| 0 <= i < |t| && t[i] == x;
      assert t == t[..i] + [x] + t[i + 1..];
      assert multiset(s[..|s| - 1]) == multiset(s) - multiset{x};
      assert multiset(t[..i] + t[i + 1..]) == multiset(t) - multiset{x};
      SumSeqPermutation(s[..|s| - 1], t[..i] + t[i + 1..], w);
      SumSeqConcat(t[..i], t[i + 1..], w);
      SumSeqConcat(t[..i] + [x], t[i + 1..], w);
      SumSeqSnoc(t[..i], x, w);
    }
  }
}

/** Picking elements out of a sequence, keeping their order. */
module Sequences {
  function Filter<T>(s: seq<T>, p: T -> bool): seq<T> {
    if s == [] then []
    else
      var rest, x := Filter(s[..|s| - 1], p), s[|s| - 1];
      if p(x) then rest + [x] else rest
  }

  lemma FilterSnoc<T>(s: seq<T>, x: T, p: T -> bool)
    ensures Filter(s + [x], p) == if p(x) then Filter(s, p) + [x] else Filter(s, p)
  {
    assert (s + [x])[..|s|] == s;
  }

  lemma {:induction false} FilterConcat<T>(s: seq<T>, t: seq<T>, p: T -> bool)
    ensures Filter(s + t, p) == Filter(s, p) + Filter(t, p)
    decreases |t|
  {
    if t == [] {
      assert s + t == s;
    } else {
      assert s + t == (s + t[..|t| - 1]) + [t[|t| - 1]];
      FilterSnoc(s + t[..|t| - 1], t[|t| - 1], p);
      FilterConcat(s, t[..|t| - 1], p);
    }
  }

  lemma FilterEmpty<T>(p: T -> bool)
    ensures Filter([], p) == []
  {
  }

  lemma {:induction false} FilterMember<T>(s: seq<T>, p: T -> bool, x: T)
    ensures x in Filter(s, p) <==> x in s && p(x)
  {
    if s != [] {
      FilterMember(s[..|s| - 1], p, x);
      assert s == s[..|s| - 1] + [s[|s| - 1]];
    }
  }
}

/** A stable sort, as specified for Python's `sorted` and `list.sort`. */
module StableSort {
  import opened Sequences

  /** Insert after every element whose key is not greater. */
  function Insert<T>(s: seq<T>, x: T, key: T -> real): seq<T> {
    if s == [] || key(s[|s| - 1]) <= key(x) then s + [x]
    else Insert(s[..|s| - 1], x, key) + [s[|s| - 1]]
  }

  function Sort<T>(s: seq<T>, key: T -> real): seq<T> {
    if s == [] then [] else Insert(Sort(s[..|s| - 1], key), s[|s| - 1], key)
  }

  predicate Sorted<T>(s: seq<T>, key: T -> real) {
    forall i, j :: 0 <= i < j < |s| ==> key(s[i]) <= key(s[j])
  }

  lemma {:induction false} InsertMembers<T>(s: seq<T>, x: T, key: T -> real)
    ensures multiset(Insert(s, x, key)) == multiset(s) + multiset{x}
  {
    if s == [] || key(s[|s| - 1]) <= key(x) {
    } else {
      InsertMembers(s[..|s| - 1], x, key);
      assert s == s[..|s| - 1] + [s[|s| - 1]];
    }
  }

  lemma SortedSnoc<T>(s: seq<T>, x: T, key: T -> real)
    requires Sorted(s, key) && forall y :: y in s ==> key(y) <= key(x)
    ensures Sorted(s + [x], key)
  {
  }

  lemma {:induction false} InsertSorts<T>(s: seq<T>, x: T, key: T -> real)
    requires Sorted(s, key)
    ensures Sorted(Insert(s, x, key), key)
  {
    if s != [] {
      var init, last := s[..|s| - 1], s[|s| - 1];
      assert forall y :: y in s ==> key(y) <= key(last);
      if key(last) <= key(x) {
        SortedSnoc(s, x, key);
      } else {
        InsertSorts(init, x, key);
        InsertMembers(init, x, key);
        forall y | y in Insert(init, x, key)
          ensures key(y) <= key(last)
        {
          assert y in multiset(Insert(init, x, key));
          assert y in multiset(init) || y == x;
        }
        SortedSnoc(Insert(init, x, key), last, key);
      }
    }
  }

  lemma {:induction false} SortSorts<T>(s: seq<T>, key: T -> real)
    ensures Sorted(Sort(s, key), key)
    ensures multiset(Sort(s, key)) == multiset(s)
  {
    if s != [] {
      hide Insert, Sorted;
      SortSorts(s[..|s| - 1], key);
      InsertSorts(Sort(s[..|s| - 1], key), s[|s| - 1], key);
      InsertMembers(Sort(s[..|s| - 1], key), s[|s| - 1], key);
      assert s == s[..|s| - 1] + [s[|s| - 1]];
    }
  }

  lemma {:induction false} FilterInsert<T>(s: seq<T>, x: T, key: T -> real, p: T -> bool)
    requires Sorted(s, key)
    ensures Filter(Insert(s, x, key), p) == if p(x) then Insert(Filter(s, p), x, key) else Filter(s, p)
  {
    if s == [] || key(s[|s| - 1]) <= key(x) {
      FilterSnoc(s, x, p);
      var kept := Filter(s, p);
      if kept != [] {
        var y := kept[|kept| - 1];
        FilterMember(s, p, y);
        var i :| 0 <= i < |s| && s[i] == y;
        assert key(y) <= key(s[|s| - 1]);
      }
    } else {
      var init, last := s[..|s| - 1], s[|s| - 1];
      FilterInsert(init, x, key, p);
      FilterSnoc(Insert(init, x, key), last, p);
      var kept := Filter(init, p);
      if p(last) {
        assert (kept + [last])[..|kept|] == kept;
      } else if p(x) {
        InsertBelow(init, last, x, key, p);
      }
    }
  }

  lemma InsertBelow<T>(init: seq<T>, last: T, x: T, key: T -> real, p: T -> bool)
    requires Sorted(init + [last], key) && key(last) > key(x) && !p(last)
    ensures Insert(Filter(init, p), x, key) == Insert(Filter(init + [last], p), x, key)
  {
    FilterSnoc(init, last, p);
  }

  /** Stability: sorting commutes with picking out any part of the sequence. */
  lemma {:induction false} FilterSort<T>(s: seq<T>, key: T -> real, p: T -> bool)
    ensures Filter(Sort(s, key), p) == Sort(Filter(s, p), key)
  {
    if s != [] {
      var init, x := s[..|s| - 1], s[|s| - 1];
      FilterSort(init, key, p);
      SortSorts(init, key);
      FilterInsert(Sort(init, key), x, key, p);
      var kept := Filter(init, p);
      if p(x) {
        assert (kept + [x])[..|kept|] == kept;
      }
    }
  }

  /** Elements with one and the same key keep their order. */
  lemma {:induction false} SortOfEqual<T>(s: seq<T>, key: T -> real, at: real)
    requires forall i :: 0 <= i < |s| ==> key(s[i]) == at
    ensures Sort(s, key) == s
  {
    if s != [] {
      SortOfEqual(s[..|s| - 1], key, at);
      assert s == s[..|s| - 1] + [s[|s| - 1]];
    }
  }

  lemma SortIsStable<T>(s: seq<T>, key: T -> real, p: T -> bool, at: real)
    requires forall x :: p(x) <==> key(x) == at
    ensures Filter(Sort(s, key), p) == Filter(s, p)
  {
    hide Filter, Sort;
    FilterSort(s, key, p);
    forall i | 0 <= i < |Filter(s, p)|
      ensures key(Filter(s, p)[i]) == at
    {
      FilterMember(s, p, Filter(s, p)[i]);
    }
    SortOfEqual(Filter(s, p), key, at);
  }
}
