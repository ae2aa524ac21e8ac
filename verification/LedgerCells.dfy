/**
 * The ledger as independent cells, one per symbol: the books after any sequence of
 * fills are determined by the subsequences of fills of each symbol.
 */
module LedgerCells {
  import opened Basics
  import opened Sequences
  import opened Sums
  import opened Ledger
  import opened LedgerLaws
  import opened LedgerOrder

  ghost function Replay(b: Book, fs: seq<Fill>): Book {
    if fs == [] then b else ApplyFill(Replay(b, fs[..|fs| - 1]), fs[|fs| - 1])
  }

  /** The part of the ledger that belongs to one symbol. */
  datatype Cell = Cell(position: Option<Position>, realized: real, fees: real)

  function Lookup(positions: map<string, Position>, k: string): Option<Position> {
    if k in positions then Some(positions[k]) else None
  }

  function CellFill(c: Cell, f: Fill): Cell {
    var p := if c.position.Some? then c.position.value else FreshPosition(Key(f), f);
    var p' := After(p, f);
    Cell(if IsDust(p'.quantity) then None else Some(p'), c.realized + RealizedOn(p, f), c.fees + f.feeUsd)
  }

  function CellReplay(c: Cell, fs: seq<Fill>): Cell {
    if fs == [] then c else CellFill(CellReplay(c, fs[..|fs| - 1]), fs[|fs| - 1])
  }

  /** The fills of symbol k, in order. */
  function ForKey(fs: seq<Fill>, k: string): seq<Fill> { Filter(fs, OfKey(k)) }

  function OfKey(k: string): Fill -> bool { (f: Fill) => Key(f) == k }

  function CellOf(b: Book, fs: seq<Fill>, k: string): Cell {
    CellReplay(Cell(Lookup(b.positions, k), 0.0, 0.0), ForKey(fs, k))
  }

  function RealizedCells(b: Book, fs: seq<Fill>, keys: set<string>): map<string, real> {
    map k | k in keys :: CellOf(b, fs, k).realized
  }

  function FeeCells(b: Book, fs: seq<Fill>, keys: set<string>): map<string, real> {
    map k | k in keys :: CellOf(b, fs, k).fees
  }

  lemma CellStep(b: Book, fs: seq<Fill>, f: Fill, k: string)
    ensures CellOf(b, fs + [f], k)
         == if Key(f) == k then CellFill(CellOf(b, fs, k), f) else CellOf(b, fs, k)
  {
    hide Key;
    FilterSnoc(fs, f, OfKey(k));
    var mine := ForKey(fs, k);
    assert (mine + [f])[..|mine|] == mine;
  }

  lemma FillCell(b: Book, f: Fill, k: string, c: Cell)
    requires Coherent(b) && c.position == Lookup(b.positions, k)
    ensures var b' := ApplyFill(b, f);
            && Lookup(b'.positions, k) == (if Key(f) == k then CellFill(c, f).position else c.position)
            && (Key(f) == k ==> b'.realized == b.realized + (CellFill(c, f).realized - c.realized)
                                && b'.fees == b.fees + (CellFill(c, f).fees - c.fees))
  {
    CleanupOne(b, f);
    hide Key, After, RealizedOn, IsDust, Sum, Cleanup, Coherent;
  }

  lemma {:induction false} ReplayCoherent(b: Book, fs: seq<Fill>)
    requires Coherent(b)
    ensures Coherent(Replay(b, fs))
  {
    if fs != [] {
      ReplayCoherent(b, fs[..|fs| - 1]);
      CoherentStep(Replay(b, fs[..|fs| - 1]), Filled(fs[|fs| - 1]));
    }
  }

  predicate KeysIn(fs: seq<Fill>, keys: set<string>) { forall f :: f in fs ==> Key(f) in keys }

  /** Every position is its cell's position; profit and fees are the sums over the cells. */
  lemma {:induction false} ReplayIsCells(b: Book, fs: seq<Fill>, keys: set<string>)
    requires Coherent(b) && KeysIn(fs, keys)
    ensures forall k :: Lookup(Replay(b, fs).positions, k) == CellOf(b, fs, k).position
    ensures Replay(b, fs).realized == b.realized + Sum(RealizedCells(b, fs, keys))
    ensures Replay(b, fs).fees == b.fees + Sum(FeeCells(b, fs, keys))
  {
    hide Key, CellFill, ApplyFill, Sum, Coherent, CellOf, Lookup, RealizedCells, FeeCells;
    if fs == [] {
      NoFills(b, keys);
    } else {
      var init, f := fs[..|fs| - 1], fs[|fs| - 1];
      ReplayIsCells(b, init, keys);
      ReplayCoherent(b, init);
      CellsAfter(b, init, f, keys);
      assert init + [f] == fs;
    }
  }

  lemma NoFills(b: Book, keys: set<string>)
    ensures forall k :: CellOf(b, [], k).position == Lookup(b.positions, k)
    ensures Sum(RealizedCells(b, [], keys)) == 0.0 && Sum(FeeCells(b, [], keys)) == 0.0
  {
    SumOfZeros(RealizedCells(b, [], keys));
    SumOfZeros(FeeCells(b, [], keys));
  }

  lemma CellsAfter(b: Book, init: seq<Fill>, f: Fill, keys: set<string>)
    requires Coherent(b) && Coherent(Replay(b, init)) && Key(f) in keys
    requires forall k :: Lookup(Replay(b, init).positions, k) == CellOf(b, init, k).position
    requires Replay(b, init).realized == b.realized + Sum(RealizedCells(b, init, keys))
    requires Replay(b, init).fees == b.fees + Sum(FeeCells(b, init, keys))
    ensures var mid := ApplyFill(Replay(b, init), f);
            && (forall k :: Lookup(mid.positions, k) == CellOf(b, init + [f], k).position)
            && mid.realized == b.realized + Sum(RealizedCells(b, init + [f], keys))
            && mid.fees == b.fees + Sum(FeeCells(b, init + [f], keys))
  {
    hide Key, CellFill, ApplyFill, Sum, CellOf, Coherent, Lookup;
    var fs, k0, mid := init + [f], Key(f), Replay(b, init);
    forall k
      ensures Lookup(ApplyFill(mid, f).positions, k) == CellOf(b, fs, k).position
    {
      CellStep(b, init, f, k);
      FillCell(mid, f, k, CellOf(b, init, k));
    }
    forall k | k in keys && k != k0
      ensures CellOf(b, fs, k) == CellOf(b, init, k)
    {
      CellStep(b, init, f, k);
    }
    CellStep(b, init, f, k0);
    FillCell(mid, f, k0, CellOf(b, init, k0));
    var was, now := CellOf(b, init, k0), CellOf(b, fs, k0);
    SumUpdate(RealizedCells(b, init, keys), k0, now.realized);
    SumUpdate(FeeCells(b, init, keys), k0, now.fees);
    assert RealizedCells(b, fs, keys) == RealizedCells(b, init, keys)[k0 := now.realized];
    assert FeeCells(b, fs, keys) == FeeCells(b, init, keys)[k0 := now.fees];
  }

  lemma {:induction false} SumOfZeros<K>(m: map<K, real>)
    requires forall k :: k in m ==> m[k] == 0.0
    ensures Sum(m) == 0.0
    decreases |m|
  {
    if m != map[] {
      var k :| k in m;
      SumSplit(m, k);
      SumOfZeros(m - {k});
    }
  }

  /** Replaying fills is running their events. */
  function AsEvents(fs: seq<Fill>): (es: seq<Event>)
    ensures |es| == |fs| && forall i :: 0 <= i < |fs| ==> es[i] == Filled(fs[i])
  {
    if fs == [] then [] else AsEvents(fs[..|fs| - 1]) + [Filled(fs[|fs| - 1])]
  }

  lemma {:induction false} ReplayIsRun(b: Book, fs: seq<Fill>)
    ensures Replay(b, fs) == Run(b, AsEvents(fs))
  {
    if fs != [] {
      hide ApplyFill;
      ReplayIsRun(b, fs[..|fs| - 1]);
      assert AsEvents(fs)[..|fs| - 1] == AsEvents(fs[..|fs| - 1]);
    }
  }

  lemma ReplayUsdt(b: Book, fs: seq<Fill>)
    ensures var b' := Replay(b, fs);
            UsdtOf(b'.balances) == UsdtOf(b.balances) - (b'.fees - b.fees) + (b'.realized - b.realized)
  {
    ReplayIsRun(b, fs);
    CashLaw(b, AsEvents(fs));
    NoDeposits(b, AsEvents(fs));
  }

  /** Fills touch no balance but USDT. */
  lemma {:induction false} ReplayBalances(b: Book, fs: seq<Fill>)
    ensures var b' := Replay(b, fs);
            b'.balances == if fs == [] then b.balances else b.balances[USDT := UsdtOf(b'.balances)]
  {
    if fs != [] {
      ReplayBalances(b, fs[..|fs| - 1]);
      hide RealizedOn, Sum, Before, Key, After, Cleanup;
    }
  }

  lemma SameCells(b: Book, fs: seq<Fill>, gs: seq<Fill>)
    requires Coherent(b)
    requires forall k :: ForKey(fs, k) == ForKey(gs, k)
    ensures Replay(b, fs).positions == Replay(b, gs).positions
    ensures Replay(b, fs).realized == Replay(b, gs).realized && Replay(b, fs).fees == Replay(b, gs).fees
  {
    hide Key, Sum, ForKey, CellReplay, Coherent, Recalculate, Replay;
    var keys := set f | f in fs + gs :: Key(f);
    var x, y := Replay(b, fs), Replay(b, gs);
    ReplayIsCells(b, fs, keys);
    ReplayIsCells(b, gs, keys);
    assert RealizedCells(b, fs, keys) == RealizedCells(b, gs, keys);
    assert FeeCells(b, fs, keys) == FeeCells(b, gs, keys);
    forall k
      ensures Lookup(x.positions, k) == Lookup(y.positions, k)
    {
      assert CellOf(b, fs, k) == CellOf(b, gs, k);
    }
    SameLookups(x.positions, y.positions);
  }

  /** Two sequences with the same fills per symbol, in the same order per symbol, give the same book. */
  lemma Interleaving(b: Book, fs: seq<Fill>, gs: seq<Fill>)
    requires Coherent(b)
    requires forall k :: ForKey(fs, k) == ForKey(gs, k)
    ensures Replay(b, fs) == Replay(b, gs)
  {
    hide Key, Sum, ForKey, Coherent, Recalculate, Replay;
    SameCells(b, fs, gs);
    ReplayBalances(b, fs);
    ReplayBalances(b, gs);
    ReplayUsdt(b, fs);
    ReplayUsdt(b, gs);
    SameEmptiness(fs, gs);
    ReplayCoherent(b, fs);
    ReplayCoherent(b, gs);
    Determined(Replay(b, fs), Replay(b, gs));
  }

  lemma Determined(x: Book, y: Book)
    requires Coherent(x) && Coherent(y)
    requires x.positions == y.positions && x.balances == y.balances
    requires x.realized == y.realized && x.fees == y.fees
    ensures x == y
  {
    hide Sum, Sound;
  }

  lemma SameLookups(ps: map<string, Position>, qs: map<string, Position>)
    requires forall k :: Lookup(ps, k) == Lookup(qs, k)
    ensures ps == qs
  {
    assert forall k :: k in ps ==> Lookup(ps, k) == Lookup(qs, k);
    assert forall k :: k in qs ==> Lookup(ps, k) == Lookup(qs, k);
  }

  lemma SameEmptiness(fs: seq<Fill>, gs: seq<Fill>)
    requires forall k :: ForKey(fs, k) == ForKey(gs, k)
    ensures fs == [] <==> gs == []
  {
    hide Key;
    if fs != [] {
      assert ForKey(fs, Key(fs[|fs| - 1])) != [];
    }
    if gs != [] {
      assert ForKey(gs, Key(gs[|gs| - 1])) != [];
    }
  }
}
