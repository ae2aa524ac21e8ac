/**
 * One order filled in one piece or in two: the same ledger, unless the first piece
 * leaves dust behind. And a pair of orders of the same fills that shows which
 * figures do depend on order.
 */
module LedgerSplit {
  import opened RealFacts
  import opened Symbols
  import opened Sums
  import opened Ledger
  import opened LedgerLaws
  import opened LedgerDust

  /** Both pieces trade the same way (or not at all). */
  predicate OneSided(q1: real, q2: real) {
    (q1 >= 0.0 && q2 >= 0.0) || (q1 <= 0.0 && q2 <= 0.0)
  }

  lemma Cancel(q: real, x: real, y: real)
    requires q != 0.0 && q * x == q * y
    ensures x == y
  {
    if x < y {
      if q > 0.0 { StrictlyBelow(x, y, q); } else { StrictlyBelow(x, y, -q); }
    } else if x > y {
      if q > 0.0 { StrictlyBelow(y, x, q); } else { StrictlyBelow(y, x, -q); }
    }
  }

  lemma SameSignSums(q0: real, q1: real, q2: real)
    requires OneSided(q1, q2)
    requires q0 != 0.0 ==> q0 * (q1 + q2) > 0.0
    ensures q0 != 0.0 && q1 != 0.0 ==> q0 * q1 > 0.0
    ensures q0 + q1 != 0.0 && q2 != 0.0 ==> (q0 + q1) * q2 > 0.0
    ensures q0 > 0.0 || (q0 == 0.0 && q1 + q2 > 0.0) ==> q1 >= 0.0 && q2 >= 0.0
    ensures q0 < 0.0 || (q0 == 0.0 && q1 + q2 < 0.0) ==> q1 <= 0.0 && q2 <= 0.0
  {
  }

  /** An addition of zero or of the position's own sign spreads the joint cost. */
  lemma AddedCost(q0: real, a0: real, q: real, price: real)
    requires q0 == 0.0 || q == 0.0 || q0 * q > 0.0
    requires q0 == 0.0 ==> a0 == 0.0
    ensures (q0 + q) * NewAverage(q0, a0, q, price) == a0 * q0 + price * q
    ensures q0 + q == 0.0 ==> NewAverage(q0, a0, q, price) == 0.0
  {
    if q == 0.0 && q0 != 0.0 {
      assert NewAverage(q0, a0, q, price) == a0;
    } else if q0 + q != 0.0 {
      AveragedCost(q0, a0, q, price);
    } else {
      SameSign(q0, q);
    }
  }

  lemma SplitAdd(q0: real, a0: real, q1: real, q2: real, price: real)
    requires OneSided(q1, q2)
    requires q0 == 0.0 ==> a0 == 0.0
    requires q0 != 0.0 ==> q0 * (q1 + q2) > 0.0
    requires q0 + q1 + q2 != 0.0
    ensures NewAverage(q0 + q1, NewAverage(q0, a0, q1, price), q2, price)
         == NewAverage(q0, a0, q1 + q2, price)
  {
    hide NewAverage;
    SameSignSums(q0, q1, q2);
    var mid, a1, a := q0 + q1, NewAverage(q0, a0, q1, price), NewAverage(q0, a0, q1 + q2, price);
    var a2, q := NewAverage(mid, a1, q2, price), q0 + (q1 + q2);
    AddedCost(q0, a0, q1, price);
    AddedCost(mid, a1, q2, price);
    AddedCost(q0, a0, q1 + q2, price);
    SameCost(q, a2, a, mid, a1, q0, a0, q1, q2, price);
    Cancel(q, a2, a);
  }

  lemma SameCost(q: real, a2: real, a: real, mid: real, a1: real, q0: real, a0: real,
                 q1: real, q2: real, price: real)
    requires q * a2 == a1 * mid + price * q2
    requires mid * a1 == a0 * q0 + price * q1
    requires q * a == a0 * q0 + price * (q1 + q2)
    ensures q * a2 == q * a
  {
  }

  lemma SplitReduce(q0: real, a0: real, q1: real, q2: real, price: real)
    requires (q0 > 0.0 && q1 <= 0.0 && q2 <= 0.0) || (q0 < 0.0 && q1 >= 0.0 && q2 >= 0.0)
    requires q0 + q1 + q2 != 0.0
    ensures NewAverage(q0 + q1, NewAverage(q0, a0, q1, price), q2, price)
         == NewAverage(q0, a0, q1 + q2, price)
  {
    hide NewAverage;
    var mid := q0 + q1;
    ReducedAverage(q0, a0, q1, price);
    ReducedAverage(q0, a0, q1 + q2, price);
    if mid == 0.0 {
      AddedAtAverage(0.0, 0.0, q2, price);
    } else if mid > 0.0 <==> q0 > 0.0 {
      ReducedAverage(mid, a0, q2, price);
    } else {
      AddedAtAverage(mid, price, q2, price);
    }
  }

  /** Trading against a position keeps its average until it changes sides. */
  lemma ReducedAverage(q0: real, a0: real, q: real, price: real)
    requires (q0 > 0.0 && q <= 0.0) || (q0 < 0.0 && q >= 0.0)
    ensures NewAverage(q0, a0, q, price)
         == if q0 + q == 0.0 then 0.0 else if q0 + q > 0.0 <==> q0 > 0.0 then a0 else price
  {
    Opposed(q0, q);
  }

  lemma PriceOf(n: real, q0: real, price: real, q: real)
    requires (q0 + q) * n == price * q0 + price * q && q0 + q != 0.0
    ensures n == price
  {
    Cancel(q0 + q, n, price);
  }

  /** Adding at the average keeps it; opening sets it. */
  lemma AddedAtAverage(q0: real, a0: real, q: real, price: real)
    requires (q0 >= 0.0 && q >= 0.0) || (q0 <= 0.0 && q <= 0.0)
    requires a0 == if q0 == 0.0 then 0.0 else price
    requires q0 + q != 0.0
    ensures NewAverage(q0, a0, q, price) == price
  {
    if q0 != 0.0 {
      Aligned(q0, q);
    }
    AddedCost(q0, a0, q, price);
    hide NewAverage;
    assert a0 * q0 == price * q0;
    PriceOf(NewAverage(q0, a0, q, price), q0, price, q);
  }

  lemma Opposed(x: real, y: real)
    requires (x > 0.0 && y <= 0.0) || (x < 0.0 && y >= 0.0)
    ensures !(x * y > 0.0)
  {
  }

  lemma Aligned(x: real, y: real)
    requires (x > 0.0 && y >= 0.0) || (x < 0.0 && y <= 0.0)
    ensures y == 0.0 || x * y > 0.0
  {
  }

  /** A trade in two pieces at one price: same average, same realised profit. */
  lemma SplitTrade(q0: real, a0: real, q1: real, q2: real, price: real)
    requires OneSided(q1, q2)
    requires q0 == 0.0 ==> a0 == 0.0
    ensures NewAverage(q0 + q1, NewAverage(q0, a0, q1, price), q2, price)
         == NewAverage(q0, a0, q1 + q2, price)
    ensures RealizedBy(q0, a0, q1, price)
            + RealizedBy(q0 + q1, NewAverage(q0, a0, q1, price), q2, price)
         == RealizedBy(q0, a0, q1 + q2, price)
  {
    hide NewAverage, RealizedBy, Cost;
    SplitAverage(q0, a0, q1, q2, price);
    var mid, a1 := q0 + q1, NewAverage(q0, a0, q1, price);
    assert mid + q2 == q0 + (q1 + q2);
    CostAdds(q1, q2, price);
    CostConserved(q0, a0, q1, price);
    CostConserved(mid, a1, q2, price);
    CostConserved(q0, a0, q1 + q2, price);
  }

  lemma CostAdds(x: real, y: real, price: real)
    ensures Cost(x + y, price) == Cost(x, price) + Cost(y, price)
  {
  }

  lemma SplitAverage(q0: real, a0: real, q1: real, q2: real, price: real)
    requires OneSided(q1, q2)
    requires q0 == 0.0 ==> a0 == 0.0
    ensures NewAverage(q0 + q1, NewAverage(q0, a0, q1, price), q2, price)
         == NewAverage(q0, a0, q1 + q2, price)
  {
    if q0 + q1 + q2 == 0.0 {
      var a1 := NewAverage(q0, a0, q1, price);
      hide RealizedBy;
      NoQuantityNoAverage(q0 + q1, a1, q2, price);
      NoQuantityNoAverage(q0, a0, q1 + q2, price);
    } else if q1 + q2 == 0.0 {
      assert q1 == q2 == 0.0;
      NoTrade(q0, a0, price);
    } else if q0 == 0.0 || q0 * (q1 + q2) > 0.0 {
      SplitAdd(q0, a0, q1, q2, price);
    } else {
      OppositeSides(q0, q1 + q2);
      SplitReduce(q0, a0, q1, q2, price);
    }
  }

  lemma NoQuantityNoAverage(q0: real, a0: real, q: real, price: real)
    requires q0 + q == 0.0
    ensures NewAverage(q0, a0, q, price) == 0.0
  {
  }

  lemma NoTrade(q0: real, a0: real, price: real)
    requires q0 != 0.0
    ensures NewAverage(q0, a0, 0.0, price) == a0
  {
  }

  /** f1 and f2 are one order f filled in two pieces at one price, fees split too. */
  predicate Pieces(f: Fill, f1: Fill, f2: Fill) {
    && f1 == f.(quantity := f1.quantity, feeUsd := f1.feeUsd)
    && f2 == f.(quantity := f2.quantity, feeUsd := f2.feeUsd)
    && OneSided(f1.quantity, f2.quantity)
    && f.quantity == f1.quantity + f2.quantity
    && f.feeUsd == f1.feeUsd + f2.feeUsd
  }

  /** The figures of a position; its venue and market tags are set when it is opened. */
  predicate SameFigures(p: Position, p': Position) {
    && p.quantity == p'.quantity && p.avgPrice == p'.avgPrice
    && p.lastPrice == p'.lastPrice && p.upl == p'.upl
  }

  predicate SameBooks(x: Book, y: Book) {
    && x.balances == y.balances && x.fees == y.fees && x.realized == y.realized
    && x.cash == y.cash && x.equity == y.equity && x.exposure == y.exposure && x.unrealized == y.unrealized
    && x.positions.Keys == y.positions.Keys
    && (forall k :: k in x.positions ==> SameFigures(x.positions[k], y.positions[k]))
  }

  lemma PiecesShareKey(f: Fill, f1: Fill, f2: Fill)
    requires Pieces(f, f1, f2)
    ensures Key(f1) == Key(f2) == Key(f)
    ensures Signed(f) == Signed(f1) + Signed(f2) && OneSided(Signed(f1), Signed(f2))
  {
  }

  /** What the second piece finds: the first piece's result, or a fresh position when it was dropped. */
  lemma FoundAfter(b: Book, f: Fill, f': Fill)
    requires Coherent(b) && Key(f) == Key(f')
    ensures var p, found := After(Before(b.positions, f), f), Before(ApplyFill(b, f).positions, f');
            && found.quantity == p.quantity - Residue(b, f)
            && (Residue(b, f) == 0.0 ==> found.avgPrice == p.avgPrice)
    ensures Before(b.positions, f).quantity == 0.0 ==> Before(b.positions, f).avgPrice == 0.0
    ensures forall k :: k != Key(f) ==>
              && (k in ApplyFill(b, f).positions <==> k in b.positions)
              && (k in b.positions ==> ApplyFill(b, f).positions[k] == b.positions[k])
  {
    hide Key, Sum, Signed, RealizedBy, NewAverage;
    CleanupOne(b, f);
    ZeroIsDust();
    var p := Before(b.positions, f);
    assert Key(f) in b.positions ==> Sound(p);
    if p.quantity + Signed(f) == 0.0 {
      NoQuantityNoAverage(p.quantity, p.avgPrice, Signed(f), f.price);
    }
  }

  lemma SplitAfter(b: Book, f: Fill, f1: Fill, f2: Fill)
    requires Coherent(b) && Pieces(f, f1, f2) && Residue(b, f1) == 0.0
    ensures SameFigures(After(Before(b.positions, f), f),
                        After(Before(ApplyFill(b, f1).positions, f2), f2))
    ensures RealizedOn(Before(b.positions, f), f)
         == RealizedOn(Before(b.positions, f1), f1) + RealizedOn(Before(ApplyFill(b, f1).positions, f2), f2)
  {
    hide Key, Sum, Signed, RealizedBy, NewAverage, Residue, Cleanup, IsDust, Upl, Coherent, ApplyFill, Upper;
    PiecesShareKey(f, f1, f2);
    FoundAfter(b, f1, f2);
    var p := Before(b.positions, f);
    assert p == Before(b.positions, f1);
    SplitTrade(p.quantity, p.avgPrice, Signed(f1), Signed(f2), f.price);
    assert p.quantity + Signed(f) == p.quantity + Signed(f1) + Signed(f2);
    hide Before;
  }

  /**
   * One fill, or the same fill in two pieces: the same books, provided the first
   * piece does not leave non-zero dust.
   */
  lemma SplitFill(b: Book, f: Fill, f1: Fill, f2: Fill)
    requires Coherent(b) && Pieces(f, f1, f2) && Residue(b, f1) == 0.0
    ensures SameBooks(ApplyFill(b, f), ApplyFill(ApplyFill(b, f1), f2))
  {
    hide Key, Sum, Signed, RealizedOn, Residue, Cleanup, IsDust, After, Before, Coherent, SameFigures, ApplyFill,
      Upls, Notionals, Upper;
    SplitAfter(b, f, f1, f2);
    SamePositions(b, f, f1, f2);
    SameTotals(ApplyFill(b, f).positions, ApplyFill(ApplyFill(b, f1), f2).positions);
    FillFigures(b, f);
    FillFigures(b, f1);
    FillFigures(ApplyFill(b, f1), f2);
  }

  lemma FillFigures(b: Book, f: Fill)
    ensures ApplyFill(b, f) == Recalculate(ApplyFill(b, f))
    ensures ApplyFill(b, f).balances
         == b.balances[USDT := UsdtOf(b.balances) - f.feeUsd + RealizedOn(Before(b.positions, f), f)]
    ensures ApplyFill(b, f).fees == b.fees + f.feeUsd
    ensures ApplyFill(b, f).realized == b.realized + RealizedOn(Before(b.positions, f), f)
  {
    hide Key, Sum, RealizedOn, Cleanup, After, Before;
  }

  lemma SamePositions(b: Book, f: Fill, f1: Fill, f2: Fill)
    requires Coherent(b) && Pieces(f, f1, f2) && Residue(b, f1) == 0.0
    ensures ApplyFill(b, f).positions.Keys == ApplyFill(ApplyFill(b, f1), f2).positions.Keys
    ensures forall k :: k in ApplyFill(b, f).positions ==>
              SameFigures(ApplyFill(b, f).positions[k], ApplyFill(ApplyFill(b, f1), f2).positions[k])
  {
    hide Key, Sum, Signed, RealizedOn, Residue, Cleanup, IsDust, After, Before, Coherent, Upper, ApplyFill;
    CoherentStep(b, Filled(f1));
    PiecesShareKey(f, f1, f2);
    SplitAfter(b, f, f1, f2);
    FoundAfter(b, f1, f2);
    FillPositions(b, f);
    FillPositions(ApplyFill(b, f1), f2);
  }

  lemma FillPositions(b: Book, f: Fill)
    requires Coherent(b)
    ensures ApplyFill(b, f).positions
         == if IsDust(After(Before(b.positions, f), f).quantity) then b.positions - {Key(f)}
            else b.positions[Key(f) := After(Before(b.positions, f), f)]
  {
    CleanupOne(b, f);
    hide Key, Sum, RealizedOn, Cleanup, IsDust, After, Before, Coherent;
  }

  lemma SameTotals(ps: map<string, Position>, qs: map<string, Position>)
    requires ps.Keys == qs.Keys && forall k :: k in ps ==> SameFigures(ps[k], qs[k])
    ensures Sum(Upls(ps)) == Sum(Upls(qs)) && Sum(Notionals(ps)) == Sum(Notionals(qs))
  {
    hide Sum;
    assert Upls(ps) == Upls(qs);
    forall k | k in ps
      ensures Notionals(ps)[k] == Notionals(qs)[k]
    {
      assert SameFigures(ps[k], qs[k]);
    }
    assert Notionals(ps) == Notionals(qs);
  }

  /** What is dropped of a quantity. */
  function Dropped(q: real): real { if IsDust(q) then q else 0.0 }

  lemma HeldAfter(b: Book, f: Fill)
    requires Coherent(b)
    ensures Residue(b, f) == Dropped(Held(b, Key(f)) + Signed(f))
    ensures Held(ApplyFill(b, f), Key(f)) == Held(b, Key(f)) + Signed(f) - Residue(b, f)
  {
    hide Key, Signed, NewAverage, RealizedOn, IsDust, ApplyFill, Coherent, Sum, Upl;
    SymbolFill(b, f, Key(f));
    assert Before(b.positions, f).quantity == Held(b, Key(f));
  }

  /** Dropping d on the way to q, which leaves s, ends where dropping at the end does. */
  lemma DropsAgreeIff(q: real, d: real, s: real)
    requires d != 0.0 ==> q == d + s
    ensures q - Dropped(q) == q - d - Dropped(q - d) <==> d == 0.0 || (IsDust(s) && IsDust(d + s))
  {
    ZeroIsDust();
    hide IsDust;
    if d != 0.0 {
      assert q - d == s;
    }
  }

  /** A dropped residue leaves its symbol empty. */
  lemma DroppedIsAll(b: Book, f: Fill)
    requires Coherent(b) && Residue(b, f) != 0.0
    ensures Held(b, Key(f)) + Signed(f) == Residue(b, f)
  {
    hide Key, Signed;
    HeldAfter(b, f);
  }

  /**
   * Exactly when splitting keeps the quantity: the first piece drops nothing, or
   * everything ends as dust either way.
   */
  lemma SplitKeepsQuantityIff(b: Book, f: Fill, f1: Fill, f2: Fill)
    requires Coherent(b) && Pieces(f, f1, f2)
    ensures Held(ApplyFill(b, f), Key(f)) == Held(ApplyFill(ApplyFill(b, f1), f2), Key(f))
       <==> (Residue(b, f1) == 0.0
             || (IsDust(Signed(f2)) && IsDust(Residue(b, f1) + Signed(f2))))
  {
    hide Key, Signed, Residue, ApplyFill, Held, Coherent, IsDust, Pieces, Dropped;
    PiecesShareKey(f, f1, f2);
    CoherentStep(b, Filled(f1));
    HeldAfter(b, f);
    HeldAfter(b, f1);
    HeldAfter(ApplyFill(b, f1), f2);
    if Residue(b, f1) != 0.0 {
      DroppedIsAll(b, f1);
    }
    DropsAgreeIff(Held(b, Key(f)) + Signed(f), Residue(b, f1), Signed(f2));
  }

  /** A buy of 2e-9 in flat books is held whole, and lost when it comes in two halves. */
  lemma HalvesAreLost()
    ensures var b, f, half := Opening(map[]), Small(0.000000002), Small(0.000000001);
      Held(ApplyFill(b, f), Key(f)) == 0.000000002 && Held(ApplyFill(ApplyFill(b, half), half), Key(f)) == 0.0
  {
    var b, f, half := Opening(map[]), Small(0.000000002), Small(0.000000001);
    OpeningCoherent(map[]);
    SmallSigned(0.000000002);
    SmallSigned(0.000000001);
    hide Key, Signed, ApplyFill, Coherent, Residue;
    CoherentStep(b, Filled(half));
    HeldAfter(b, f);
    HeldAfter(b, half);
    HeldAfter(ApplyFill(b, half), half);
  }

  function Small(q: real): Fill { Fill("X", "BUY", q, 1.0, 0.0, "", "") }

  lemma SmallSigned(q: real)
    ensures Signed(Small(q)) == q && Key(Small(q)) == "X"
  {
    assert Upper("BUY") == "BUY" && Upper("X") == "X";
  }

  // ---- the tags of a position ----

  /** The position's tags, its name included, are those the second piece would set. */
  predicate TagsOf(p: Position, f: Fill) {
    p.symbol == Key(f) && p.venue == f.venue && p.market == FreshPosition(Key(f), f).market
  }

  /** The position that a fill leaves, tags included. */
  lemma LeftBehind(b: Book, f: Fill)
    requires Coherent(b)
    ensures Key(f) in ApplyFill(b, f).positions <==> !IsDust(After(Before(b.positions, f), f).quantity)
    ensures Key(f) in ApplyFill(b, f).positions ==>
      ApplyFill(b, f).positions[Key(f)] == After(Before(b.positions, f), f)
  {
    hide Key, IsDust, After, Before, ApplyFill, Coherent;
    FillPositions(b, f);
  }

  /**
   * The two books agree in every figure, and with the tags they are equal outright exactly when the position ends
   * closed, or was not closed in between, or already had the tags of the fill.
   */
  lemma SplitFillExactIff(b: Book, f: Fill, f1: Fill, f2: Fill)
    requires Coherent(b) && Pieces(f, f1, f2) && Residue(b, f1) == 0.0
    ensures SameBooks(ApplyFill(b, f), ApplyFill(ApplyFill(b, f1), f2))
    ensures var k, b1 := Key(f), ApplyFill(b, f1);
      ApplyFill(b, f) == ApplyFill(b1, f2)
      <==> k !in ApplyFill(b, f).positions || k in b1.positions || TagsOf(Before(b.positions, f), f)
  {
    hide Key, Signed, Residue, IsDust, ApplyFill, Coherent, After, SameFigures, Upper, NewAverage, Upl;
    var k, b1 := Key(f), ApplyFill(b, f1);
    PiecesShareKey(f, f1, f2);
    CoherentStep(b, Filled(f1));
    SplitFill(b, f, f1, f2);
    OthersKept(b, f);
    OthersKept(b, f1);
    OthersKept(b1, f2);
    var x, y := ApplyFill(b, f), ApplyFill(b1, f2);
    assert x == y <==> x.positions == y.positions;
    TagsAfter(b, f);
    TagsAfter(b, f1);
    TagsAfter(b1, f2);
    if k in x.positions {
      SameTagsIff(x.positions[k], y.positions[k]);
      assert x.positions == y.positions <==> x.positions[k] == y.positions[k];
    } else {
      assert x.positions == y.positions;
    }
  }

  lemma OthersKept(b: Book, f: Fill)
    requires Coherent(b)
    ensures forall k :: k != Key(f) ==>
      && (k in ApplyFill(b, f).positions <==> k in b.positions)
      && (k in b.positions ==> ApplyFill(b, f).positions[k] == b.positions[k])
  {
    hide Key, IsDust, After, Before, ApplyFill, Coherent;
    FillPositions(b, f);
  }

  /** A fill keeps the tags and the symbol of the position it finds or opens. */
  lemma TagsAfter(b: Book, f: Fill)
    requires Coherent(b)
    ensures Key(f) in ApplyFill(b, f).positions ==>
      var p, found := ApplyFill(b, f).positions[Key(f)], Before(b.positions, f);
      p.venue == found.venue && p.market == found.market && p.symbol == found.symbol
  {
    LeftBehind(b, f);
    hide Key, IsDust, ApplyFill, Coherent, NewAverage, Upl, Signed;
  }

  lemma SameTagsIff(p: Position, q: Position)
    requires SameFigures(p, q)
    ensures p == q <==> p.symbol == q.symbol && p.venue == q.venue && p.market == q.market
  {
  }

  // ---- what does depend on order ----

  function Demo(side: string, price: real): Event {
    Filled(Fill("X", side, 1.0, price, 0.0, "", ""))
  }

  lemma DemoStep(b: Book, side: string, price: real)
    requires Coherent(b) && (side == "BUY" || side == "SELL")
    requires Held(b, "X") > -0.5
    ensures var q := if side == "BUY" then 1.0 else -1.0;
            var q0, a0 := Held(b, "X"), if "X" in b.positions then b.positions["X"].avgPrice else 0.0;
            var b' := Step(b, Demo(side, price));
            && Coherent(b')
            && b'.realized == b.realized + RealizedBy(q0, a0, q, price)
            && Held(b', "X") == (if IsDust(q0 + q) then 0.0 else q0 + q)
            && (!IsDust(q0 + q) ==> "X" in b'.positions
                                    && b'.positions["X"].avgPrice == NewAverage(q0, a0, q, price))
  {
    var f := Demo(side, price).fill;
    assert Upper("X") == "X" && Upper("BUY") == "BUY" && Upper("SELL") == "SELL";
    assert Key(f) == "X";
    CoherentStep(b, Filled(f));
    CleanupOne(b, f);
    hide Upper, Sum, NewAverage, RealizedBy, Cleanup, IsDust;
  }

  /** The same three fills: average and realised profit differ, their sum with the open value does not. */
  lemma OrderMatters()
    ensures var x := Run(Opening(map[]), [Demo("BUY", 10.0), Demo("BUY", 20.0), Demo("SELL", 30.0)]);
            x.realized == 15.0 && "X" in x.positions && x.positions["X"].avgPrice == 15.0
    ensures var y := Run(Opening(map[]), [Demo("BUY", 10.0), Demo("SELL", 30.0), Demo("BUY", 20.0)]);
            y.realized == 20.0 && "X" in y.positions && y.positions["X"].avgPrice == 20.0
  {
    hide Step, Coherent, Run, Demo;
    var b := Opening(map[]);
    OpeningCoherent(map[]);
    var e1, e2, e3 := Demo("BUY", 10.0), Demo("BUY", 20.0), Demo("SELL", 30.0);
    Unroll(b, e1, e2, e3);
    Unroll(b, e1, e3, e2);
    var b1 := Step(b, e1);
    DemoStep(b, "BUY", 10.0);
    DemoStep(b1, "BUY", 20.0);
    DemoStep(Step(b1, e2), "SELL", 30.0);
    DemoStep(b1, "SELL", 30.0);
    DemoStep(Step(b1, e3), "BUY", 20.0);
  }

  lemma Unroll(b: Book, e1: Event, e2: Event, e3: Event)
    ensures Run(b, [e1, e2, e3]) == Step(Step(Step(b, e1), e2), e3)
  {
    assert [e1, e2, e3][..2] == [e1, e2] && [e1, e2][..1] == [e1] && [e1][..0] == [];
    assert Run(b, [e1]) == Step(b, e1);
    assert Run(b, [e1, e2]) == Step(Step(b, e1), e2);
  }
}
