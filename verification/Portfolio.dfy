/**
 * The position ledger of engine/core/portfolio.py: weighted-average-cost
 * accounting over a map of positions, with dust deletion and derived totals.
 * `Book` is the abstract state; the class below updates its fields in place and
 * is proved to follow the functions on `Book`.
 */
module Ledger {
  import opened Basics
  import opened Symbols
  import opened Sums

  const USDT := "USDT"
  const DUST := 0.000000001

  datatype Position = Position(
    symbol: string, quantity: real, avgPrice: real, lastPrice: real, upl: real,
    venue: string, market: string)

  /** An empty venue or market string stands for the source's None. */
  datatype Fill = Fill(
    symbol: string, side: string, quantity: real, price: real, feeUsd: real,
    venue: string, market: string)

  datatype Event =
    | Filled(fill: Fill)
    | Marked(symbol: string, price: real)
    | Synced(wallet: map<string, real>)

  datatype Book = Book(
    balances: map<string, real>, positions: map<string, Position>,
    realized: real, fees: real,
    cash: real, equity: real, exposure: real, unrealized: real)

  function UsdtOf(balances: map<string, real>): real { At(balances, USDT) }

  function Key(f: Fill): string {
    var s := Upper(f.symbol);
    if !HasDot(s) && f.venue != "" then s + "." + Upper(f.venue) else s
  }

  function Signed(f: Fill): real {
    if Upper(f.side) == "BUY" then f.quantity else -f.quantity
  }

  /** `math.isclose(q, 0.0, abs_tol=1e-9)` with its default relative tolerance of 1e-9. */
  predicate IsDust(q: real) { Abs(q) <= Max(0.000000001 * Abs(q), DUST) }

  lemma DustIsAbsolute(q: real)
    ensures IsDust(q) <==> Abs(q) <= DUST
  {
  }

  /** Realised profit of trading `q` at `price` against `q0` held at average `a0`. */
  function RealizedBy(q0: real, a0: real, q: real, price: real): real {
    if q0 > 0.0 > q || q0 < 0.0 < q then
      var closed := Min(Abs(q0), Abs(q));
      if q0 > 0.0 then (price - a0) * closed else (a0 - price) * closed
    else 0.0
  }

  function NewAverage(q0: real, a0: real, q: real, price: real): real {
    var q1 := q0 + q;
    if q1 != 0.0 then
      if q0 == 0.0 || q0 * q > 0.0 then (a0 * Abs(q0) + price * Abs(q)) / Abs(q1)
      else if q0 > 0.0 > q1 || q0 < 0.0 < q1 then price
      else a0
    else 0.0
  }

  function Upl(q: real, avgPrice: real, lastPrice: real): real { (lastPrice - avgPrice) * q }

  function FreshPosition(key: string, f: Fill): Position {
    Position(key, 0.0, 0.0, 0.0, 0.0, f.venue, if f.market == "" then "spot" else f.market)
  }

  function Before(positions: map<string, Position>, f: Fill): Position {
    if Key(f) in positions then positions[Key(f)] else FreshPosition(Key(f), f)
  }

  /** The position right after the fill, before dust is deleted. */
  function After(p: Position, f: Fill): Position {
    var q, a := p.quantity + Signed(f), NewAverage(p.quantity, p.avgPrice, Signed(f), f.price);
    p.(quantity := q, avgPrice := a, lastPrice := f.price, upl := Upl(q, a, f.price))
  }

  function RealizedOn(p: Position, f: Fill): real {
    RealizedBy(p.quantity, p.avgPrice, Signed(f), f.price)
  }

  function Cleanup(positions: map<string, Position>): map<string, Position> {
    map k | k in positions && !IsDust(positions[k].quantity) :: positions[k]
  }

  function Upls(positions: map<string, Position>): map<string, real> {
    map k | k in positions :: positions[k].upl
  }

  function Notionals(positions: map<string, Position>): map<string, real> {
    map k | k in positions :: Abs(positions[k].quantity * positions[k].lastPrice)
  }

  ghost function Recalculate(b: Book): Book {
    var upl := Sum(Upls(b.positions));
    b.(exposure := Sum(Notionals(b.positions)), unrealized := upl,
       cash := UsdtOf(b.balances), equity := UsdtOf(b.balances) + upl)
  }

  ghost function ApplyFill(b: Book, f: Fill): Book {
    var p := Before(b.positions, f);
    var r := RealizedOn(p, f);
    Recalculate(b.(
      balances := b.balances[USDT := UsdtOf(b.balances) - f.feeUsd + r],
      fees := b.fees + f.feeUsd,
      realized := b.realized + r,
      positions := Cleanup(b.positions[Key(f) := After(p, f)])))
  }

  function Repriced(p: Position, price: real): Position {
    p.(lastPrice := price, upl := Upl(p.quantity, p.avgPrice, price))
  }

  ghost function UpdatePrice(b: Book, symbol: string, price: real): Book {
    if symbol !in b.positions then b else
      Recalculate(b.(positions := b.positions[symbol := Repriced(b.positions[symbol], price)]))
  }

  ghost function SyncWallet(b: Book, wallet: map<string, real>): Book {
    Recalculate(b.(balances := b.balances + wallet))
  }

  ghost function Step(b: Book, e: Event): Book {
    match e
    case Filled(f) => ApplyFill(b, f)
    case Marked(symbol, price) => UpdatePrice(b, symbol, price)
    case Synced(wallet) => SyncWallet(b, wallet)
  }

  ghost function Run(b: Book, es: seq<Event>): Book {
    if es == [] then b else Step(Run(b, es[..|es| - 1]), es[|es| - 1])
  }

  /** The book of a new portfolio; no starting balances means zero USDT and BNB. */
  function Opening(starting: map<string, real>): Book {
    var balances := if starting == map[] then map[USDT := 0.0, "BNB" := 0.0] else starting;
    Book(balances, map[], 0.0, 0.0, UsdtOf(balances), UsdtOf(balances), 0.0, 0.0)
  }

  /** Every derived figure agrees with the primary ones, and no dust is stored. */
  ghost predicate Coherent(b: Book) {
    && b == Recalculate(b)
    && (forall k :: k in b.positions ==> Sound(b.positions[k]))
  }

  predicate Sound(p: Position) {
    !IsDust(p.quantity) && p.upl == Upl(p.quantity, p.avgPrice, p.lastPrice)
  }

  /** The two sums of `_recalculate`, accumulated over the positions in any order. */
  method Totals(positions: map<string, Position>) returns (exp: real, upl: real)
    ensures exp == Sum(Notionals(positions))
    ensures upl == Sum(Upls(positions))
  {
    exp, upl := 0.0, 0.0;
    var todo := positions.Keys;
    ghost var upls, notionals := Upls(positions), Notionals(positions);
    assert upls - todo == map[] && notionals - todo == map[];
    while todo != {}
      invariant todo <= positions.Keys
      invariant upl == Sum(upls - todo)
      invariant exp == Sum(notionals - todo)
    {
      var key :| key in todo;
      var rest := todo - {key};
      SumSplit(upls - rest, key);
      SumSplit(notionals - rest, key);
      assert upls - rest - {key} == upls - todo;
      assert notionals - rest - {key} == notionals - todo;
      exp := exp + Abs(positions[key].quantity * positions[key].lastPrice);
      upl := upl + positions[key].upl;
      todo := rest;
    }
    assert upls - todo == upls && notionals - todo == notionals;
  }

  lemma AfterIsSound(p: Position, f: Fill)
    ensures !IsDust(After(p, f).quantity) ==> Sound(After(p, f))
  {
    hide NewAverage;
  }

  lemma CoherentStep(b: Book, e: Event)
    requires Coherent(b)
    ensures Coherent(Step(b, e))
  {
    match e
    case Filled(f) =>
      AfterIsSound(Before(b.positions, f), f);
      hide NewAverage, Sound, After, RealizedOn, Before, Key, Sum, UsdtOf;
    case Marked(symbol, price) =>
      if symbol in b.positions {
        assert Sound(Repriced(b.positions[symbol], price));
        hide Sound, Repriced, Sum, UsdtOf;
      }
    case Synced(wallet) =>
  }

  /** The arithmetic of one fill on one position, in the branches of the source. */
  method Settle(p: Position, f: Fill) returns (p': Position, gain: real)
    ensures p' == After(p, f)
    ensures gain == RealizedOn(p, f)
  {
    var qty := if Upper(f.side) == "BUY" then f.quantity else -f.quantity;
    assert qty == Signed(f);
    gain := CloseOut(p.quantity, p.avgPrice, qty, f.price);
    var avg := Reprice(p.quantity, p.avgPrice, qty, f.price);
    hide NewAverage, RealizedBy, Signed;
    var newQty := p.quantity + qty;
    p' := p.(quantity := newQty, avgPrice := avg, lastPrice := f.price, upl := (f.price - avg) * newQty);
  }

  method CloseOut(prevQty: real, avgPrice: real, qty: real, price: real) returns (gain: real)
    ensures gain == RealizedBy(prevQty, avgPrice, qty, price)
  {
    gain := 0.0;
    if prevQty > 0.0 > qty || prevQty < 0.0 < qty {
      var closed := Min(Abs(prevQty), Abs(qty));
      gain := if prevQty > 0.0 then (price - avgPrice) * closed else (avgPrice - price) * closed;
    }
  }

  method Reprice(prevQty: real, avgPrice: real, qty: real, price: real) returns (avg: real)
    ensures avg == NewAverage(prevQty, avgPrice, qty, price)
  {
    var newQty := prevQty + qty;
    avg := avgPrice;
    if newQty != 0.0 {
      if prevQty == 0.0 || prevQty * qty > 0.0 {
        avg := (avg * Abs(prevQty) + price * Abs(qty)) / Abs(newQty);
      } else if prevQty > 0.0 > newQty || prevQty < 0.0 < newQty {
        avg := price;
      }
    } else {
      avg := 0.0;
    }
  }

  class Portfolio {
    var balances: map<string, real>
    var positions: map<string, Position>
    var realized: real
    var fees: real
    var cash: real
    var equity: real
    var exposure: real
    var unrealized: real

    function State(): Book
      reads this
    {
      Book(balances, positions, realized, fees, cash, equity, exposure, unrealized)
    }

    constructor (starting: map<string, real>)
      ensures State() == Opening(starting)
      ensures Coherent(State())
    {
      balances := if starting == map[] then map[USDT := 0.0, "BNB" := 0.0] else starting;
      positions := map[];
      realized, fees, exposure, unrealized := 0.0, 0.0, 0.0, 0.0;
      var usdt := UsdtOf(if starting == map[] then map[USDT := 0.0, "BNB" := 0.0] else starting);
      cash, equity := usdt, usdt;
      new;
      assert Upls(positions) == map[] && Notionals(positions) == map[];
    }

    method RecalculateTotals()
      modifies this`cash, this`equity, this`exposure, this`unrealized
      ensures State() == Recalculate(old(State()))
    {
      exposure, unrealized := Totals(positions);
      cash := UsdtOf(balances);
      equity := cash + unrealized;
    }

    method CleanupPositions()
      modifies this`positions
      ensures positions == Cleanup(old(positions))
    {
      hide IsDust;
      var dust := set k | k in positions && IsDust(positions[k].quantity);
      positions := positions - dust;
    }

    /** The fill itself: fee, realised profit and position, before clean-up and totals. */
    method Enter(f: Fill)
      modifies this`balances, this`fees, this`realized, this`positions
      ensures var p := Before(old(positions), f);
        && balances == old(balances)[USDT := UsdtOf(old(balances)) - f.feeUsd + RealizedOn(p, f)]
        && fees == old(fees) + f.feeUsd && realized == old(realized) + RealizedOn(p, f)
        && positions == old(positions)[Key(f) := After(p, f)]
    {
      hide IsDust, After, RealizedOn, Key, Sum;
      balances := balances[USDT := UsdtOf(balances) - f.feeUsd];
      fees := fees + f.feeUsd;
      var key := Key(f);
      if key !in positions {
        positions := positions[key := FreshPosition(key, f)];
      }
      var p, gain := Settle(positions[key], f);
      realized := realized + gain;
      balances := balances[USDT := UsdtOf(balances) + gain];
      positions := positions[key := p];
    }

    method Fill(f: Fill)
      requires Coherent(State())
      modifies this
      ensures State() == ApplyFill(old(State()), f)
      ensures Coherent(State())
    {
      hide IsDust, Recalculate, Coherent, After, RealizedOn, Key, Sum, Cleanup;
      Enter(f);
      CleanupPositions();
      RecalculateTotals();
      CoherentStep(old(State()), Filled(f));
    }

    method Mark(symbol: string, price: real)
      requires Coherent(State())
      modifies this
      ensures State() == UpdatePrice(old(State()), symbol, price)
      ensures Coherent(State())
    {
      hide Recalculate, Coherent;
      if symbol in positions {
        var p := positions[symbol];
        var p' := p.(lastPrice := price, upl := (price - p.avgPrice) * p.quantity);
        assert p' == Repriced(p, price);
        positions := positions[symbol := p'];
        RecalculateTotals();
      }
      CoherentStep(old(State()), Marked(symbol, price));
    }

    method Sync(wallet: map<string, real>)
      requires Coherent(State())
      modifies this
      ensures State() == SyncWallet(old(State()), wallet)
      ensures Coherent(State())
    {
      hide Coherent;
      balances := balances + wallet;
      if USDT in wallet {
        cash := wallet[USDT];
      }
      RecalculateTotals();
      CoherentStep(old(State()), Synced(wallet));
    }
  }
}
