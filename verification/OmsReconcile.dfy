/**
 * The order store of engine/core/oms_store.py and the reconciliation pass of
 * engine/core/reconcile_daemon.py: local open orders are closed when no venue order
 * answers to them, and venue orders unknown locally are imported.
 */
module OmsReconcile {
  import opened Basics
  import opened Symbols

  datatype Record = Record(
    id: string, clientKey: string, symbol: string, side: string, orderType: string, quantity: real,
    price: Option<real>, stopPrice: Option<real>, tif: string, status: string,
    venueOrderId: Option<string>, filledQty: real, avgFillPrice: Option<real>)

  /** A text field of a remote order: absent, a string, or another value (null included) and how it prints. */
  datatype Text = Missing | Word(text: string) | NotText(shown: string)

  /** A number field: absent, a number or its text, text that is no number, or a value `float` refuses. */
  datatype Num = Absent | Number(value: real) | Malformed | Unusable

  datatype Remote = Remote(
    orderId: string, symbol: Text, side: Text, kind: Text, tif: Text, status: Text,
    origQty: Num, quantity: Num, executed: Num, price: Num, stopPrice: Num, avgFillPrice: Num)

  /**
   * What one venue answers in a pass. There are no remotes if it has no listing, if the
   * call failed or if an order lacks its id; `uncaught` then says whether the failure was
   * an error that the pass does not catch. The ids are drawn for imported records.
   */
  datatype Feed = Feed(venue: string, remotes: Option<seq<Remote>>, ids: seq<string>, uncaught: bool)

  type Orders = map<string, Record>

  predicate IsOpen(status: string) {
    status == "NEW" || status == "PARTIALLY_FILLED" || status == "ACCEPTED" || status == "PENDING_NEW"
  }

  function TextOr(t: Text, default: string): string { if t.Word? then t.text else default }

  /** The field as an f-string prints it. */
  function Shown(t: Text): string
    requires !t.Missing?
  {
    if t.Word? then t.text else t.shown
  }

  function NumOr0(n: Num): real { if n.Number? then n.value else 0.0 }

  function NonZero(x: real): Option<real> { if x == 0.0 then None else Some(x) }

  function OrderType(kind: Text): (t: string)
    ensures t in {"MARKET", "LIMIT", "STOP", "STOP_LIMIT"}
  {
    var t := Upper(TextOr(kind, "LIMIT"));
    if t == "MARKET" || t == "LIMIT" || t == "STOP" || t == "STOP_LIMIT" then t else "LIMIT"
  }

  function StatusOf(r: Remote): string { Upper(TextOr(r.status, "NEW")) }

  /** How far an import gets: the errors of the caught list skip the order, any other ends the pass. */
  datatype Outcome = Imported | Skipped | Escapes

  function Then(first: Outcome, next: Outcome): Outcome { if first.Imported? then next else first }

  /** A subscript on a missing key raises KeyError. */
  function Subscript(t: Text): Outcome { if t.Missing? then Skipped else Imported }

  /** `.upper()` on anything but a string raises AttributeError. */
  function UpperOf(t: Text): Outcome { if t.NotText? then Escapes else Imported }

  /** `float` raises ValueError on a malformed text, and TypeError on null. */
  function FloatOf(n: Num): Outcome { if n.Malformed? then Skipped else if n.Unusable? then Escapes else Imported }

  function QuantityOf(r: Remote): Num { if r.origQty.Absent? then r.quantity else r.origQty }

  /** The fields in the order in which they are read. */
  function ImportOf(r: Remote): Outcome {
    Then(Subscript(r.symbol), Then(UpperOf(r.kind), Then(FloatOf(QuantityOf(r)), Then(FloatOf(r.executed),
    Then(UpperOf(r.side), Then(FloatOf(r.price), Then(FloatOf(r.stopPrice),
    Then(UpperOf(r.status), FloatOf(r.avgFillPrice)))))))))
  }

  predicate Importable(r: Remote) { ImportOf(r).Imported? }

  function RecordOf(r: Remote, venue: string, id: string): Record
    requires !r.symbol.Missing?
  {
    Record(id, "imported", Shown(r.symbol) + "." + venue, Upper(TextOr(r.side, "BUY")), OrderType(r.kind),
           NumOr0(QuantityOf(r)), NonZero(NumOr0(r.price)), NonZero(NumOr0(r.stopPrice)),
           if r.tif.Missing? then "GTC" else Shown(r.tif), StatusOf(r),
           Some(r.orderId), NumOr0(r.executed), NonZero(NumOr0(r.avgFillPrice)))
  }

  /** Whether r answers to the record: by venue id, or by symbol and side as spelled. */
  predicate SameId(o: Record, r: Remote) { o.venueOrderId == Some(r.orderId) }

  predicate SameSymbolAndSide(o: Record, r: Remote) {
    r.symbol == Word(Base(o.symbol)) && r.side == Word(o.side)
  }

  predicate Matched(o: Record, rs: seq<Remote>) {
    (exists k :: 0 <= k < |rs| && SameId(o, rs[k])) || exists k :: 0 <= k < |rs| && SameSymbolAndSide(o, rs[k])
  }

  predicate Closes(o: Record, f: Feed) {
    f.remotes.Some? && Venue(o.symbol) == f.venue && !Matched(o, f.remotes.value)
  }

  function OpenOrders(orders: Orders): Orders {
    map id | id in orders && IsOpen(orders[id].status) :: orders[id]
  }

  /** The venue ids of the snapshot's orders on the venue. */
  function Known(local: Orders, venue: string): set<string> {
    set id | id in local && Venue(local[id].symbol) == venue && local[id].venueOrderId.Some?
      :: local[id].venueOrderId.value
  }

  function Filled(o: Record): Record { o.(status := "FILLED") }

  function AfterCloses(orders: Orders, local: Orders, f: Feed): Orders {
    map id | id in orders :: if id in local && Closes(local[id], f) then Filled(orders[id]) else orders[id]
  }

  predicate Imports(local: Orders, f: Feed, k: nat) {
    f.remotes.Some? && k < |f.remotes.value| && k < |f.ids|
    && Importable(f.remotes.value[k]) && f.remotes.value[k].orderId !in Known(local, f.venue)
  }

  /** The first n remote orders have been looked at. */
  function AfterImports(orders: Orders, local: Orders, f: Feed, n: nat): Orders {
    if n == 0 then orders
    else
      var before := AfterImports(orders, local, f, n - 1);
      if Imports(local, f, n - 1)
      then before[f.ids[n - 1] := RecordOf(f.remotes.value[n - 1], f.venue, f.ids[n - 1])]
      else before
  }

  /** Remote order k is unknown and its import ends the pass. */
  predicate Stops(local: Orders, f: Feed, k: int) {
    && f.remotes.Some? && 0 <= k < |f.remotes.value|
    && f.remotes.value[k].orderId !in Known(local, f.venue) && ImportOf(f.remotes.value[k]).Escapes?
  }

  /** The pass gets through this venue. */
  ghost predicate GetsThrough(local: Orders, f: Feed) {
    if f.remotes.None? then !f.uncaught else AllDotted(local) && forall k :: !Stops(local, f, k)
  }

  predicate AllDotted(orders: Orders) { forall id :: id in orders ==> HasDot(orders[id].symbol) }

  /**
   * A pass completes: no listing fails with an uncaught error, no unknown remote order
   * raises one, and if any venue answers, every open symbol has a dot to split at.
   */
  ghost predicate Completes(orders: Orders, feeds: seq<Feed>) {
    forall i :: 0 <= i < |feeds| ==> GetsThrough(OpenOrders(orders), feeds[i])
  }

  function VenuePass(orders: Orders, local: Orders, f: Feed): Orders {
    if f.remotes.None? then orders
    else AfterImports(AfterCloses(orders, local, f), local, f, |f.remotes.value|)
  }

  /** All venues work from the snapshot that was taken first. */
  function PassFrom(orders: Orders, local: Orders, feeds: seq<Feed>): Orders {
    if feeds == [] then orders
    else VenuePass(PassFrom(orders, local, feeds[..|feeds| - 1]), local, feeds[|feeds| - 1])
  }

  function Pass(orders: Orders, feeds: seq<Feed>): Orders { PassFrom(orders, OpenOrders(orders), feeds) }

  // ---- the shape of the world ----

  predicate Keyed(orders: Orders) { forall id :: id in orders ==> orders[id].id == id }

  /** Every identifier drawn in the pass is new and drawn once. */
  predicate UniqueIds(orders: Orders, feeds: seq<Feed>) {
    && (forall i, k :: 0 <= i < |feeds| && 0 <= k < |feeds[i].ids| ==> feeds[i].ids[k] !in orders)
    && forall i, k, j, m ::
      (0 <= i < |feeds| && 0 <= k < |feeds[i].ids| && 0 <= j < |feeds| && 0 <= m < |feeds[j].ids|
       && feeds[i].ids[k] == feeds[j].ids[m]) ==> i == j && k == m
  }

  predicate Supplied(feeds: seq<Feed>) {
    forall i :: 0 <= i < |feeds| && feeds[i].remotes.Some? ==> |feeds[i].ids| == |feeds[i].remotes.value|
  }

  predicate DistinctVenues(feeds: seq<Feed>) {
    forall i, j :: 0 <= i < j < |feeds| ==> feeds[i].venue != feeds[j].venue
  }

  predicate Listed(f: Feed, k: int) { f.remotes.Some? && 0 <= k < |f.remotes.value| }

  // ---- what a pass does to each order ----

  lemma {:induction false} ImportsKeep(orders: Orders, local: Orders, f: Feed, n: nat, id: string)
    requires forall k :: 0 <= k < |f.ids| ==> f.ids[k] != id
    ensures id in AfterImports(orders, local, f, n) <==> id in orders
    ensures id in orders ==> AfterImports(orders, local, f, n)[id] == orders[id]
  {
    if n > 0 {
      ImportsKeep(orders, local, f, n - 1, id);
    }
  }

  lemma {:induction false} ImportsAdd(orders: Orders, local: Orders, f: Feed, n: nat, k: nat)
    requires k < |f.ids| && f.ids[k] !in orders
    requires forall i, j :: 0 <= i < j < |f.ids| ==> f.ids[i] != f.ids[j]
    ensures f.ids[k] in AfterImports(orders, local, f, n) <==> k < n && Imports(local, f, k)
    ensures k < n && Imports(local, f, k) ==>
      AfterImports(orders, local, f, n)[f.ids[k]] == RecordOf(f.remotes.value[k], f.venue, f.ids[k])
  {
    if n > 0 {
      ImportsAdd(orders, local, f, n - 1, k);
    }
  }

  /** Whether the pass closes this order of the snapshot. */
  predicate ClosedBy(local: Orders, feeds: seq<Feed>, id: string) {
    id in local && exists i :: 0 <= i < |feeds| && Closes(local[id], feeds[i])
  }

  lemma ClosedBySnoc(local: Orders, feeds: seq<Feed>, f: Feed, id: string)
    ensures ClosedBy(local, feeds + [f], id) <==> ClosedBy(local, feeds, id) || (id in local && Closes(local[id], f))
  {
    hide Closes;
    if ClosedBy(local, feeds, id) {
      var i :| 0 <= i < |feeds| && Closes(local[id], feeds[i]);
      assert (feeds + [f])[i] == feeds[i];
    }
    if id in local && Closes(local[id], f) {
      assert (feeds + [f])[|feeds|] == f;
    }
  }

  predicate NotDrawn(feeds: seq<Feed>, id: string) {
    forall i, k :: 0 <= i < |feeds| && 0 <= k < |feeds[i].ids| ==> feeds[i].ids[k] != id
  }

  /**
   * An order the store already had is filled when it was open, its venue answered and
   * nothing there matches it; otherwise the pass leaves it exactly as it was.
   */
  lemma {:induction false} PassKeeps(orders: Orders, local: Orders, feeds: seq<Feed>, id: string)
    requires NotDrawn(feeds, id)
    ensures id in PassFrom(orders, local, feeds) <==> id in orders
    ensures id in orders ==>
      PassFrom(orders, local, feeds)[id] == if ClosedBy(local, feeds, id) then Filled(orders[id]) else orders[id]
  {
    if feeds != [] {
      hide Closes;
      var init, f := feeds[..|feeds| - 1], feeds[|feeds| - 1];
      assert feeds == init + [f];
      PassKeeps(orders, local, init, id);
      ClosedBySnoc(local, init, f, id);
      var mid := PassFrom(orders, local, init);
      VenueKeeps(mid, local, f, id);
    }
  }

  lemma VenueKeeps(orders: Orders, local: Orders, f: Feed, id: string)
    requires forall k :: 0 <= k < |f.ids| ==> f.ids[k] != id
    ensures id in VenuePass(orders, local, f) <==> id in orders
    ensures id in orders ==>
      VenuePass(orders, local, f)[id] == if id in local && Closes(local[id], f) then Filled(orders[id]) else orders[id]
  {
    if f.remotes.Some? {
      ImportsKeep(AfterCloses(orders, local, f), local, f, |f.remotes.value|, id);
    }
  }

  lemma VenueAdds(orders: Orders, local: Orders, f: Feed, k: nat)
    requires k < |f.ids| && f.ids[k] !in orders
    requires forall i, j :: 0 <= i < j < |f.ids| ==> f.ids[i] != f.ids[j]
    ensures f.ids[k] in VenuePass(orders, local, f) <==> Imports(local, f, k)
    ensures Imports(local, f, k) ==>
      VenuePass(orders, local, f)[f.ids[k]] == RecordOf(f.remotes.value[k], f.venue, f.ids[k])
  {
    if f.remotes.Some? {
      ImportsAdd(AfterCloses(orders, local, f), local, f, |f.remotes.value|, k);
    }
  }

  /** Exactly the unknown importable remote orders appear, as the records described. */
  lemma {:induction false} PassAdds(orders: Orders, local: Orders, feeds: seq<Feed>, i: nat, k: nat)
    requires UniqueIds(orders, feeds) && local.Keys <= orders.Keys
    requires i < |feeds| && k < |feeds[i].ids|
    ensures feeds[i].ids[k] in PassFrom(orders, local, feeds) <==> Imports(local, feeds[i], k)
    ensures Imports(local, feeds[i], k) ==>
      PassFrom(orders, local, feeds)[feeds[i].ids[k]]
        == RecordOf(feeds[i].remotes.value[k], feeds[i].venue, feeds[i].ids[k])
  {
    hide Imports, Closes, VenuePass;
    var init, f := feeds[..|feeds| - 1], feeds[|feeds| - 1];
    var mid := PassFrom(orders, local, init);
    if i == |feeds| - 1 {
      PassKeeps(orders, local, init, f.ids[k]);
      VenueAdds(mid, local, f, k);
    } else {
      PassAdds(orders, local, init, i, k);
      VenueKeeps(mid, local, f, feeds[i].ids[k]);
    }
  }

  /** Where an order of the final store comes from: the old store, or remote order k of venue i. */
  lemma Origin(orders: Orders, feeds: seq<Feed>, id: string) returns (drawn: bool, i: nat, k: nat)
    requires UniqueIds(orders, feeds) && id in Pass(orders, feeds)
    ensures !drawn ==> id in orders && NotDrawn(feeds, id)
    ensures drawn ==>
      && i < |feeds| && k < |feeds[i].ids| && feeds[i].ids[k] == id && Imports(OpenOrders(orders), feeds[i], k)
      && Pass(orders, feeds)[id] == RecordOf(feeds[i].remotes.value[k], feeds[i].venue, id)
  {
    hide Imports, PassFrom;
    drawn, i, k := !NotDrawn(feeds, id), 0, 0;
    if drawn {
      i, k :| i < |feeds| && k < |feeds[i].ids| && feeds[i].ids[k] == id;
      PassAdds(orders, OpenOrders(orders), feeds, i, k);
    } else {
      PassKeeps(orders, OpenOrders(orders), feeds, id);
    }
  }

  predicate WellShaped(orders: Orders, feeds: seq<Feed>) {
    UniqueIds(orders, feeds) && Supplied(feeds) && DistinctVenues(feeds)
  }

  /** The venue that the import of r from this venue is filed under; a dotted symbol can name another. */
  function FiledUnder(r: Remote, venue: string): string
    requires !r.symbol.Missing?
  {
    Venue(Shown(r.symbol) + "." + venue)
  }

  /** Remote order k of the feed is imported as an open record filed under the venue. */
  predicate LandsAt(orders: Orders, f: Feed, k: nat, venue: string) {
    && Imports(OpenOrders(orders), f, k)
    && IsOpen(StatusOf(f.remotes.value[k])) && FiledUnder(f.remotes.value[k], f.venue) == venue
  }

  /** Some venue's import of an order with id x lands at the venue. */
  ghost predicate ImportsInto(orders: Orders, feeds: seq<Feed>, venue: string, x: string) {
    exists j, k: nat :: 0 <= j < |feeds| && LandsAt(orders, feeds[j], k, venue)
      && feeds[j].remotes.value[k].orderId == x
  }

  /** The venue ids of a venue's open orders. */
  function OpenIds(orders: Orders, venue: string): set<string> { Known(OpenOrders(orders), venue) }

  /** Only the order's own venue can close it. */
  lemma OwnVenueCloses(local: Orders, feeds: seq<Feed>, id: string, i: nat)
    requires DistinctVenues(feeds) && i < |feeds| && id in local && Venue(local[id].symbol) == feeds[i].venue
    ensures ClosedBy(local, feeds, id) <==> Closes(local[id], feeds[i])
  {
    hide Matched;
  }

  lemma OpenIdsOf(orders: Orders, venue: string, x: string) returns (id: string)
    requires x in OpenIds(orders, venue)
    ensures id in orders && IsOpen(orders[id].status)
    ensures Venue(orders[id].symbol) == venue && orders[id].venueOrderId == Some(x)
  {
    var local := OpenOrders(orders);
    id :| id in local && Venue(local[id].symbol) == venue && local[id].venueOrderId == Some(x);
  }

  lemma InOpenIds(orders: Orders, id: string)
    requires id in orders && IsOpen(orders[id].status) && orders[id].venueOrderId.Some?
    ensures orders[id].venueOrderId.value in OpenIds(orders, Venue(orders[id].symbol))
  {
    assert id in OpenOrders(orders);
  }

  lemma StillTracked(orders: Orders, feeds: seq<Feed>, i: nat, m: nat)
    requires WellShaped(orders, feeds) && i < |feeds| && Listed(feeds[i], m)
    requires feeds[i].remotes.value[m].orderId in OpenIds(orders, feeds[i].venue)
    ensures feeds[i].remotes.value[m].orderId in OpenIds(Pass(orders, feeds), feeds[i].venue)
  {
    hide PassFrom;
    var x := feeds[i].remotes.value[m].orderId;
    var id := OpenIdsOf(orders, feeds[i].venue, x);
    assert SameId(orders[id], feeds[i].remotes.value[m]);
    OwnVenueCloses(OpenOrders(orders), feeds, id, i);
    PassKeeps(orders, OpenOrders(orders), feeds, id);
    InOpenIds(Pass(orders, feeds), id);
  }

  lemma ImportTracked(orders: Orders, feeds: seq<Feed>, j: nat, k: nat, venue: string)
    requires WellShaped(orders, feeds) && j < |feeds| && LandsAt(orders, feeds[j], k, venue)
    ensures feeds[j].ids[k] in Pass(orders, feeds)
    ensures Pass(orders, feeds)[feeds[j].ids[k]] == RecordOf(feeds[j].remotes.value[k], feeds[j].venue, feeds[j].ids[k])
    ensures feeds[j].remotes.value[k].orderId in OpenIds(Pass(orders, feeds), venue)
  {
    hide PassFrom;
    PassAdds(orders, OpenOrders(orders), feeds, j, k);
    InOpenIds(Pass(orders, feeds), feeds[j].ids[k]);
  }

  lemma TrackedCameFrom(orders: Orders, feeds: seq<Feed>, i: nat, x: string)
    requires WellShaped(orders, feeds) && i < |feeds|
    requires x in OpenIds(Pass(orders, feeds), feeds[i].venue)
    ensures x in OpenIds(orders, feeds[i].venue) || ImportsInto(orders, feeds, feeds[i].venue, x)
  {
    hide PassFrom;
    var end := Pass(orders, feeds);
    var id := OpenIdsOf(end, feeds[i].venue, x);
    var drawn, j, k := Origin(orders, feeds, id);
    if drawn {
      assert LandsAt(orders, feeds[j], k, feeds[i].venue);
    } else {
      PassKeeps(orders, OpenOrders(orders), feeds, id);
      InOpenIds(orders, id);
    }
  }

  /**
   * Agreement: after a pass a remote order has an open local record of its venue exactly
   * when one was open before or some import with its id lands there as an open record.
   */
  lemma Agreement(orders: Orders, feeds: seq<Feed>, i: nat, m: nat)
    requires WellShaped(orders, feeds) && i < |feeds| && Listed(feeds[i], m)
    ensures var x := feeds[i].remotes.value[m].orderId;
      x in OpenIds(Pass(orders, feeds), feeds[i].venue)
      <==> x in OpenIds(orders, feeds[i].venue) || ImportsInto(orders, feeds, feeds[i].venue, x)
  {
    hide WellShaped, Pass, OpenIds, Known, FiledUnder;
    var f := feeds[i];
    var x := f.remotes.value[m].orderId;
    if x in OpenIds(Pass(orders, feeds), f.venue) {
      TrackedCameFrom(orders, feeds, i, x);
    } else if x in OpenIds(orders, f.venue) {
      StillTracked(orders, feeds, i, m);
    } else if j, k: nat :| 0 <= j < |feeds| && LandsAt(orders, feeds[j], k, f.venue)
                           && feeds[j].remotes.value[k].orderId == x {
      ImportTracked(orders, feeds, j, k, f.venue);
    }
  }

  predicate MisfiledOne(orders: Orders, from: Feed, k: nat, at: Feed)
    requires at.remotes.Some?
  {
    && LandsAt(orders, from, k, at.venue)
    && !Matched(RecordOf(from.remotes.value[k], from.venue, from.ids[k]), at.remotes.value)
  }

  /** An import from elsewhere is filed under answering venue i, where nothing matches it. */
  ghost predicate Misfiled(orders: Orders, feeds: seq<Feed>, i: nat)
    requires i < |feeds|
  {
    && feeds[i].remotes.Some?
    && exists j, k: nat :: 0 <= j < |feeds| && MisfiledOne(orders, feeds[j], k, feeds[i])
  }

  ghost predicate AllMatched(orders: Orders, f: Feed)
    requires f.remotes.Some?
  {
    forall id :: id in orders && IsOpen(orders[id].status) && Venue(orders[id].symbol) == f.venue ==>
      Matched(orders[id], f.remotes.value)
  }

  lemma NothingUnmatched(orders: Orders, feeds: seq<Feed>, i: nat, id: string)
    requires WellShaped(orders, feeds) && i < |feeds| && feeds[i].remotes.Some? && !Misfiled(orders, feeds, i)
    requires id in Pass(orders, feeds) && IsOpen(Pass(orders, feeds)[id].status)
    requires Venue(Pass(orders, feeds)[id].symbol) == feeds[i].venue
    ensures Matched(Pass(orders, feeds)[id], feeds[i].remotes.value)
  {
    hide PassFrom, Matched;
    var drawn, j, k := Origin(orders, feeds, id);
    if drawn {
      assert !MisfiledOne(orders, feeds[j], k, feeds[i]);
    } else {
      PassKeeps(orders, OpenOrders(orders), feeds, id);
      OwnVenueCloses(OpenOrders(orders), feeds, id, i);
    }
  }

  lemma MisfiledUnmatched(orders: Orders, feeds: seq<Feed>, i: nat) returns (id: string)
    requires WellShaped(orders, feeds) && i < |feeds| && Misfiled(orders, feeds, i)
    ensures id in Pass(orders, feeds) && IsOpen(Pass(orders, feeds)[id].status)
    ensures Venue(Pass(orders, feeds)[id].symbol) == feeds[i].venue
    ensures !Matched(Pass(orders, feeds)[id], feeds[i].remotes.value)
  {
    hide PassFrom, Matched;
    var j, k: nat :| 0 <= j < |feeds| && MisfiledOne(orders, feeds[j], k, feeds[i]);
    ImportTracked(orders, feeds, j, k, feeds[i].venue);
    id := feeds[j].ids[k];
  }

  /**
   * After a pass every open order of an answering venue matches a remote order there,
   * exactly when no import was misfiled under the venue.
   */
  lemma AllMatchedIff(orders: Orders, feeds: seq<Feed>, i: nat)
    requires WellShaped(orders, feeds) && i < |feeds| && feeds[i].remotes.Some?
    ensures AllMatched(Pass(orders, feeds), feeds[i]) <==> !Misfiled(orders, feeds, i)
  {
    hide WellShaped, Pass, Misfiled, Matched;
    if Misfiled(orders, feeds, i) {
      var id := MisfiledUnmatched(orders, feeds, i);
    } else {
      forall id | id in Pass(orders, feeds) && IsOpen(Pass(orders, feeds)[id].status)
                  && Venue(Pass(orders, feeds)[id].symbol) == feeds[i].venue
        ensures Matched(Pass(orders, feeds)[id], feeds[i].remotes.value)
      {
        NothingUnmatched(orders, feeds, i, id);
      }
    }
  }

  /**
   * No order is lost, and an old order is touched exactly when it was open, its venue
   * answered and nothing there matches it; then only its status changes, to FILLED.
   */
  lemma TouchedIff(orders: Orders, feeds: seq<Feed>, id: string)
    requires WellShaped(orders, feeds) && id in orders
    ensures id in Pass(orders, feeds)
    ensures Pass(orders, feeds)[id] != orders[id] <==>
      IsOpen(orders[id].status) && exists i :: 0 <= i < |feeds| && Closes(orders[id], feeds[i])
    ensures Pass(orders, feeds)[id] != orders[id] ==> Pass(orders, feeds)[id] == Filled(orders[id])
  {
    hide PassFrom, Closes;
    PassKeeps(orders, OpenOrders(orders), feeds, id);
  }

  // ---- the second pass ----

  predicate SameAnswers(feeds: seq<Feed>, again: seq<Feed>) {
    |again| == |feeds|
    && forall i :: 0 <= i < |feeds| ==>
      again[i].venue == feeds[i].venue && again[i].remotes == feeds[i].remotes && again[i].uncaught == feeds[i].uncaught
  }

  /** Each importable remote order of venue i was tracked already or lands there as an open record. */
  ghost predicate Settles(orders: Orders, feeds: seq<Feed>, i: nat)
    requires i < |feeds|
  {
    forall k :: Listed(feeds[i], k) && Importable(feeds[i].remotes.value[k]) ==>
      feeds[i].remotes.value[k].orderId in OpenIds(orders, feeds[i].venue)
      || ImportsInto(orders, feeds, feeds[i].venue, feeds[i].remotes.value[k].orderId)
  }

  lemma SecondPassClosesNothing(orders: Orders, feeds: seq<Feed>, again: seq<Feed>, id: string)
    requires WellShaped(orders, feeds) && SameAnswers(feeds, again) && id in Pass(orders, feeds)
    requires forall i :: 0 <= i < |feeds| ==> !Misfiled(orders, feeds, i)
    ensures !ClosedBy(OpenOrders(Pass(orders, feeds)), again, id)
  {
    hide PassFrom, Matched, WellShaped, Misfiled;
    var end := Pass(orders, feeds);
    if ClosedBy(OpenOrders(end), again, id) {
      var i :| 0 <= i < |again| && Closes(end[id], again[i]);
      NothingUnmatched(orders, feeds, i, id);
    }
  }

  lemma SecondPassImports(orders: Orders, feeds: seq<Feed>, again: seq<Feed>, i: nat, k: nat)
    requires WellShaped(orders, feeds) && SameAnswers(feeds, again) && i < |feeds| && k < |again[i].ids|
    ensures Imports(OpenOrders(Pass(orders, feeds)), again[i], k) <==>
      Listed(feeds[i], k) && Importable(feeds[i].remotes.value[k])
      && feeds[i].remotes.value[k].orderId !in OpenIds(orders, feeds[i].venue)
      && !ImportsInto(orders, feeds, feeds[i].venue, feeds[i].remotes.value[k].orderId)
  {
    hide WellShaped, Pass, Importable, ImportsInto, Known;
    if Listed(feeds[i], k) {
      Agreement(orders, feeds, i, k);
    }
  }

  lemma SettledSecondPass(orders: Orders, feeds: seq<Feed>, again: seq<Feed>)
    requires WellShaped(orders, feeds) && SameAnswers(feeds, again) && UniqueIds(Pass(orders, feeds), again)
    requires forall i :: 0 <= i < |feeds| ==> Settles(orders, feeds, i) && !Misfiled(orders, feeds, i)
    ensures Pass(Pass(orders, feeds), again) == Pass(orders, feeds)
  {
    hide WellShaped, PassFrom, ImportsInto, Closes, Known, Imports, Misfiled;
    var end := Pass(orders, feeds);
    var after := Pass(end, again);
    forall id | id in end
      ensures id in after && after[id] == end[id]
    {
      SecondPassClosesNothing(orders, feeds, again, id);
      PassKeeps(end, OpenOrders(end), again, id);
    }
    forall i, k: nat | 0 <= i < |feeds| && k < |again[i].ids|
      ensures !Imports(OpenOrders(end), again[i], k)
    {
      SecondPassImports(orders, feeds, again, i, k);
      assert Settles(orders, feeds, i);
    }
    forall id | id in after
      ensures id in end
    {
      var drawn, i, k := Origin(end, again, id);
    }
  }

  lemma UnsettledSecondPass(orders: Orders, feeds: seq<Feed>, again: seq<Feed>, i: nat)
    requires WellShaped(orders, feeds) && SameAnswers(feeds, again)
    requires UniqueIds(Pass(orders, feeds), again) && Supplied(again)
    requires i < |feeds| && !Settles(orders, feeds, i)
    ensures Pass(Pass(orders, feeds), again) != Pass(orders, feeds)
  {
    hide WellShaped, PassFrom, ImportsInto, Closes, Known, Imports;
    var end, f := Pass(orders, feeds), feeds[i];
    var k: nat :| Listed(f, k) && Importable(f.remotes.value[k])
      && f.remotes.value[k].orderId !in OpenIds(orders, f.venue)
      && !ImportsInto(orders, feeds, f.venue, f.remotes.value[k].orderId);
    assert k < |again[i].ids|;
    SecondPassImports(orders, feeds, again, i, k);
    PassAdds(end, OpenOrders(end), again, i, k);
    assert again[i].ids[k] in Pass(end, again);
  }

  /** What was misfiled by the first pass is closed by the second. */
  lemma MisfiledSecondPass(orders: Orders, feeds: seq<Feed>, again: seq<Feed>, i: nat)
    requires WellShaped(orders, feeds) && SameAnswers(feeds, again) && UniqueIds(Pass(orders, feeds), again)
    requires i < |feeds| && Misfiled(orders, feeds, i)
    ensures Pass(Pass(orders, feeds), again) != Pass(orders, feeds)
  {
    hide WellShaped, PassFrom, Matched;
    var end := Pass(orders, feeds);
    var id := MisfiledUnmatched(orders, feeds, i);
    hide Misfiled, Known, LandsAt;
    assert Closes(end[id], again[i]);
    PassKeeps(end, OpenOrders(end), again, id);
    assert Pass(end, again)[id] == Filled(end[id]) != end[id];
  }

  /**
   * A second pass over the same answers changes nothing exactly when every answer settles
   * and nothing was misfiled.
   */
  lemma FixpointIff(orders: Orders, feeds: seq<Feed>, again: seq<Feed>)
    requires WellShaped(orders, feeds) && SameAnswers(feeds, again)
    requires UniqueIds(Pass(orders, feeds), again) && Supplied(again)
    ensures Pass(Pass(orders, feeds), again) == Pass(orders, feeds)
      <==> forall i :: 0 <= i < |feeds| ==> Settles(orders, feeds, i) && !Misfiled(orders, feeds, i)
  {
    hide WellShaped, PassFrom, Settles, Misfiled, UniqueIds, Supplied;
    if i :| 0 <= i < |feeds| && !Settles(orders, feeds, i) {
      UnsettledSecondPass(orders, feeds, again, i);
    } else if i :| 0 <= i < |feeds| && Misfiled(orders, feeds, i) {
      MisfiledSecondPass(orders, feeds, again, i);
    } else {
      SettledSecondPass(orders, feeds, again);
    }
  }

  /** Well-formed answers: dot-free names, parsable amounts and an open status. */
  ghost predicate WellFormed(f: Feed) {
    && !HasDot(f.venue)
    && forall k :: Listed(f, k) ==>
      && Importable(f.remotes.value[k]) && IsOpen(StatusOf(f.remotes.value[k]))
      && !HasDot(Shown(f.remotes.value[k].symbol))
  }

  lemma FiledAtHome(f: Feed, k: nat)
    requires WellFormed(f) && Listed(f, k)
    ensures FiledUnder(f.remotes.value[k], f.venue) == f.venue
  {
    SplitJoined(Shown(f.remotes.value[k].symbol), f.venue);
  }

  lemma WellFormedSettles(orders: Orders, feeds: seq<Feed>, i: nat)
    requires Supplied(feeds) && i < |feeds| && WellFormed(feeds[i])
    ensures Settles(orders, feeds, i)
    ensures forall k :: Listed(feeds[i], k) ==> Importable(feeds[i].remotes.value[k])
  {
    forall k: nat | Listed(feeds[i], k) && feeds[i].remotes.value[k].orderId !in OpenIds(orders, feeds[i].venue)
      ensures ImportsInto(orders, feeds, feeds[i].venue, feeds[i].remotes.value[k].orderId)
    {
      FiledAtHome(feeds[i], k);
      hide FiledUnder, Known;
      assert LandsAt(orders, feeds[i], k, feeds[i].venue);
    }
  }

  lemma WellFormedNotMisfiled(orders: Orders, feeds: seq<Feed>, i: nat)
    requires DistinctVenues(feeds) && forall j :: 0 <= j < |feeds| ==> WellFormed(feeds[j])
    requires i < |feeds|
    ensures !Misfiled(orders, feeds, i)
  {
    hide WellFormed, FiledUnder, Known;
    forall j, k: nat | 0 <= j < |feeds| && feeds[i].remotes.Some? && LandsAt(orders, feeds[j], k, feeds[i].venue)
      ensures Matched(RecordOf(feeds[j].remotes.value[k], feeds[j].venue, feeds[j].ids[k]), feeds[i].remotes.value)
    {
      FiledAtHome(feeds[j], k);
      assert j == i;
      assert SameId(RecordOf(feeds[j].remotes.value[k], feeds[j].venue, feeds[j].ids[k]), feeds[i].remotes.value[k]);
    }
  }

  /** On well-formed answers: full agreement, nothing unmatched and an idle second pass. */
  lemma WellFormedPass(orders: Orders, feeds: seq<Feed>, again: seq<Feed>)
    requires UniqueIds(orders, feeds) && Supplied(feeds) && DistinctVenues(feeds)
    requires forall i :: 0 <= i < |feeds| ==> WellFormed(feeds[i])
    requires SameAnswers(feeds, again) && UniqueIds(Pass(orders, feeds), again)
    ensures forall i, k :: 0 <= i < |feeds| && Listed(feeds[i], k) ==>
      feeds[i].remotes.value[k].orderId in OpenIds(Pass(orders, feeds), feeds[i].venue)
    ensures forall i :: 0 <= i < |feeds| && feeds[i].remotes.Some? ==> AllMatched(Pass(orders, feeds), feeds[i])
    ensures Pass(Pass(orders, feeds), again) == Pass(orders, feeds)
  {
    hide Pass, WellFormed, OpenIds, UniqueIds, Supplied, ImportsInto, Misfiled, AllMatched;
    forall i | 0 <= i < |feeds|
      ensures Settles(orders, feeds, i) && !Misfiled(orders, feeds, i)
      ensures forall k :: Listed(feeds[i], k) ==> Importable(feeds[i].remotes.value[k])
    {
      WellFormedSettles(orders, feeds, i);
      WellFormedNotMisfiled(orders, feeds, i);
    }
    forall i, k: nat | 0 <= i < |feeds| && Listed(feeds[i], k)
      ensures feeds[i].remotes.value[k].orderId in OpenIds(Pass(orders, feeds), feeds[i].venue)
    {
      assert Settles(orders, feeds, i);
      Agreement(orders, feeds, i, k);
    }
    forall i | 0 <= i < |feeds| && feeds[i].remotes.Some?
      ensures AllMatched(Pass(orders, feeds), feeds[i])
    {
      AllMatchedIff(orders, feeds, i);
    }
    SettledSecondPass(orders, feeds, again);
  }

  /** A plain remote order for one unit at 9, with the given status and price. */
  function PlainRemote(status: string, price: Num): Remote {
    Remote("7", Word("BTCUSDT"), Word("BUY"), Missing, Missing, Word(status),
           Absent, Number(1.0), Absent, price, Absent, Absent)
  }

  /** Without an open status a listed order is imported a second time by the next pass. */
  lemma ClosedStatusReimports()
    ensures
      var r := PlainRemote("PENDING_CANCEL", Number(9.0));
      var first := Pass(map[], [Feed("BINANCE", Some([r]), ["a"], false)]);
      first.Keys == {"a"} && Pass(first, [Feed("BINANCE", Some([r]), ["b"], false)]).Keys == {"a", "b"}
  {
    hide StatusOf, Closes, Venue;
    var r := PlainRemote("PENDING_CANCEL", Number(9.0));
    var f, g := Feed("BINANCE", Some([r]), ["a"], false), Feed("BINANCE", Some([r]), ["b"], false);
    var none: Orders := map[];
    var first := none["a" := RecordOf(r, "BINANCE", "a")];
    NotOpen(r);
    assert OpenOrders(none) == none && OpenOrders(first) == none;
    OneImport(none, f, r, "a");
    OneImport(first, g, r, "b");
  }

  lemma NotOpen(r: Remote)
    requires r.status == Word("PENDING_CANCEL")
    ensures StatusOf(r) == "PENDING_CANCEL" && !IsOpen(StatusOf(r))
  {
  }

  /** A pass over one venue with one order, when nothing is open locally. */
  lemma OneImport(orders: Orders, f: Feed, r: Remote, id: string)
    requires OpenOrders(orders) == map[] && f.remotes == Some([r]) && f.ids == [id] && Importable(r)
    ensures !r.symbol.Missing? && Pass(orders, [f]) == orders[id := RecordOf(r, f.venue, id)]
  {
    hide Closes, ImportOf, Known;
    HasSymbol(r);
    NoneKnown(f.venue);
    OnePass(orders, f);
    assert Imports(map[], f, 0);
    assert AfterCloses(orders, map[], f) == orders;
    assert AfterImports(orders, map[], f, 0) == orders;
    assert VenuePass(orders, map[], f) == AfterImports(orders, map[], f, 1);
  }

  lemma OnePass(orders: Orders, f: Feed)
    ensures Pass(orders, [f]) == VenuePass(orders, OpenOrders(orders), f)
  {
    hide VenuePass;
    assert [f][..0] == [];
    assert PassFrom(orders, OpenOrders(orders), []) == orders;
  }

  lemma NoneKnown(venue: string)
    ensures Known(map[], venue) == {}
  {
  }

  /** On an empty store, one unknown remote order whose price is null ends the pass; without a price it completes. */
  lemma NullPriceEndsPass()
    ensures !Completes(map[], [Feed("BINANCE", Some([PlainRemote("NEW", Unusable)]), ["a"], false)])
    ensures Completes(map[], [Feed("BINANCE", Some([PlainRemote("NEW", Absent)]), ["a"], false)])
  {
    var r := PlainRemote("NEW", Unusable);
    var f := Feed("BINANCE", Some([r]), ["a"], false);
    assert OpenOrders(map[]) == map[];
    assert ImportOf(r) == Escapes && Known(map[], "BINANCE") == {};
    assert Stops(map[], f, 0);
    assert !GetsThrough(OpenOrders(map[]), [f][0]);
  }

  /** A dotted remote symbol: filed under another venue of the pass, where nothing matches it. */
  lemma DottedSymbolMisfiles()
    ensures
      var r := PlainRemote("NEW", Absent).(symbol := Word("A.KRAKEN"));
      var feeds := [Feed("BINANCE", Some([r]), ["a"], false), Feed("KRAKEN", Some([]), [], false)];
      WellShaped(map[], feeds) && Completes(map[], feeds) && Misfiled(map[], feeds, 1)
      && !AllMatched(Pass(map[], feeds), feeds[1])
  {
    hide Pass, Misfiled, Venue, Known, ImportOf, Matched;
    var r := PlainRemote("NEW", Absent).(symbol := Word("A.KRAKEN"));
    var feeds := [Feed("BINANCE", Some([r]), ["a"], false), Feed("KRAKEN", Some([]), [], false)];
    assert OpenOrders(map[]) == map[];
    NoneKnown("BINANCE");
    PlainImports("NEW");
    KrakenSymbol();
    NewIsOpen(r);
    assert LandsAt(map[], feeds[0], 0, "KRAKEN");
    NothingMatches(RecordOf(r, "BINANCE", "a"));
    MisfiledBy(map[], feeds, 1, 0, 0);
    AllMatchedIff(map[], feeds, 1);
  }

  lemma PlainImports(status: string)
    ensures ImportOf(PlainRemote(status, Absent).(symbol := Word("A.KRAKEN"))) == Imported
  {
  }

  lemma NewIsOpen(r: Remote)
    requires r.status == Word("NEW")
    ensures IsOpen(StatusOf(r))
  {
    assert Upper("NEW") == "NEW";
  }

  lemma NothingMatches(o: Record)
    ensures !Matched(o, [])
  {
  }

  lemma MisfiledBy(orders: Orders, feeds: seq<Feed>, i: nat, j: nat, k: nat)
    requires i < |feeds| && j < |feeds| && feeds[i].remotes.Some? && MisfiledOne(orders, feeds[j], k, feeds[i])
    ensures Misfiled(orders, feeds, i)
  {
  }

  lemma KrakenSymbol()
    ensures Venue("A.KRAKEN" + "." + "BINANCE") == "KRAKEN"
  {
    var s, rest := "A.KRAKEN" + "." + "BINANCE", "KRAKEN" + "." + "BINANCE";
    assert s[1..][1..] == rest && s[1] == '.' && s[0] == 'A';
    assert AfterDot(s) == AfterDot(s[1..]) == rest;
    BaseOfJoined("KRAKEN", "BINANCE");
    DotFreeBase("KRAKEN");
  }

  // ---- the store and the daemon's loops ----

  /** The venue of every open order can be read off its symbol. */
  predicate Qualified(orders: Orders) {
    forall id :: id in orders && IsOpen(orders[id].status) ==> HasDot(orders[id].symbol)
  }

  /** Every open order of the map, once each. */
  ghost predicate Lists(open: seq<Record>, orders: Orders) {
    && (forall i :: 0 <= i < |open| ==> open[i].id in orders && orders[open[i].id] == open[i])
    && (forall id :: id in orders ==> orders[id] in open)
    && forall i, j :: 0 <= i < j < |open| ==> open[i].id != open[j].id
  }

  function Without(orders: Orders, rest: set<string>): Orders {
    map id | id in orders && id !in rest :: orders[id]
  }

  lemma ListNone(orders: Orders)
    ensures Lists([], OpenOrders(Without(orders, orders.Keys)))
  {
  }

  lemma ListAll(orders: Orders)
    ensures Without(orders, {}) == orders
  {
  }

  /** Looking at one more order lists it if it is open. */
  lemma ListNext(orders: Orders, rest: set<string>, id: string, open: seq<Record>)
    requires Keyed(orders) && rest <= orders.Keys && id in rest && Lists(open, OpenOrders(Without(orders, rest)))
    ensures var listed := if IsOpen(orders[id].status) then open + [orders[id]] else open;
      Lists(listed, OpenOrders(Without(orders, rest - {id})))
  {
    var was, now := OpenOrders(Without(orders, rest)), OpenOrders(Without(orders, rest - {id}));
    assert now == if IsOpen(orders[id].status) then was[id := orders[id]] else was;
    assert id !in was && orders[id].id == id;
    hide Keyed, Without, OpenOrders;
    if IsOpen(orders[id].status) {
      assert (open + [orders[id]])[|open|] == orders[id];
    }
  }

  method Match(o: Record, rs: seq<Remote>) returns (found: bool)
    ensures found == Matched(o, rs)
  {
    found := false;
    for k := 0 to |rs|
      invariant found <==> exists m :: 0 <= m < k && SameId(o, rs[m])
    {
      found := found || SameId(o, rs[k]);
    }
    if !found {
      for k := 0 to |rs|
        invariant forall m :: 0 <= m < k ==> !SameSymbolAndSide(o, rs[m])
      {
        if SameSymbolAndSide(o, rs[k]) {
          return true;
        }
      }
    }
  }

  ghost predicate ClosedUpTo(open: seq<Record>, n: int, f: Feed, id: string)
    requires n <= |open|
  {
    exists i :: 0 <= i < n && open[i].id == id && Closes(open[i], f)
  }

  /** The first n listed orders have been looked at. */
  ghost predicate ClosedSoFar(before: Orders, after: Orders, open: seq<Record>, n: int, f: Feed)
    requires n <= |open|
  {
    && after.Keys == before.Keys
    && forall id :: id in before ==>
      after[id] == if ClosedUpTo(open, n, f, id) then Filled(before[id]) else before[id]
  }

  lemma ClosedNone(before: Orders, open: seq<Record>, f: Feed)
    ensures ClosedSoFar(before, before, open, 0, f)
  {
  }

  lemma ClosedNext(before: Orders, after: Orders, open: seq<Record>, n: nat, f: Feed)
    requires n < |open| && ClosedSoFar(before, after, open, n, f)
    ensures var o := open[n];
      ClosedSoFar(before,
                  if Closes(o, f) && o.id in after then after[o.id := after[o.id].(status := "FILLED")] else after,
                  open, n + 1, f)
  {
    hide Closes;
  }

  lemma ClosedPart(before: Orders, after: Orders, open: seq<Record>, local: Orders, n: nat, f: Feed)
    requires Lists(open, local) && Keyed(local) && n < |open| && !HasDot(open[n].symbol)
    requires ClosedSoFar(before, after, open, n, f)
    ensures !AllDotted(local) && PartlyClosed(before, after, local, f)
  {
    hide Closes, HasDot;
    assert open[n].id in local && local[open[n].id] == open[n];
  }

  lemma ClosedAll(before: Orders, after: Orders, open: seq<Record>, local: Orders, f: Feed)
    requires Lists(open, local) && Keyed(local) && ClosedSoFar(before, after, open, |open|, f)
    requires forall i :: 0 <= i < |open| ==> HasDot(open[i].symbol)
    ensures AllDotted(local) && after == AfterCloses(before, local, f)
  {
    hide Closes, HasDot;
    forall id | id in local
      ensures exists i :: 0 <= i < |open| && open[i] == local[id] && open[i].id == id
    {
      var i :| 0 <= i < |open| && open[i] == local[id];
    }
  }

  lemma DottedIsQualified(orders: Orders)
    ensures AllDotted(OpenOrders(orders)) <==> Qualified(orders)
  {
    assert forall id :: id in OpenOrders(orders) ==> OpenOrders(orders)[id] == orders[id];
    if AllDotted(OpenOrders(orders)) {
      assert forall id :: id in orders && IsOpen(orders[id].status) ==> id in OpenOrders(orders);
    }
  }

  /** Some of the orders that the feed closes are filled, and nothing else has happened. */
  predicate PartlyClosed(before: Orders, after: Orders, local: Orders, f: Feed) {
    && after.Keys == before.Keys
    && forall id :: id in before && after[id] != before[id] ==>
      id in local && Closes(local[id], f) && after[id] == Filled(before[id])
  }

  /** Everything before venue i was done, and venue i was begun: how far it got depends on what ended it. */
  ghost predicate EndedAt(before: Orders, after: Orders, feeds: seq<Feed>, i: nat)
    requires i < |feeds|
  {
    var local, f, start := OpenOrders(before), feeds[i], PassFrom(before, OpenOrders(before), feeds[..i]);
    && (forall j :: 0 <= j < i ==> GetsThrough(local, feeds[j])) && !GetsThrough(local, f)
    && if f.remotes.None? then after == start
       else if !AllDotted(local) then PartlyClosed(start, after, local, f)
       else exists k: nat :: FirstStop(local, f, k) && after == AfterImports(AfterCloses(start, local, f), local, f, k)
  }

  ghost predicate FirstStop(local: Orders, f: Feed, k: nat) {
    Stops(local, f, k) && forall m :: 0 <= m < k ==> !Stops(local, f, m)
  }

  ghost predicate Interrupted(before: Orders, after: Orders, feeds: seq<Feed>) {
    exists i: nat :: i < |feeds| && EndedAt(before, after, feeds, i)
  }

  class OMSStore {
    var orders: Orders

    constructor ()
      ensures orders == map[]
    {
      orders := map[];
    }

    method Upsert(record: Record)
      modifies this
      ensures orders == old(orders)[record.id := record]
    {
      orders := orders[record.id := record];
    }

    method Close(id: string, status: string)
      modifies this
      ensures orders == if id in old(orders) then old(orders)[id := old(orders)[id].(status := status)] else old(orders)
    {
      if id in orders {
        orders := orders[id := orders[id].(status := status)];
      }
    }

    method ListOpen() returns (open: seq<Record>)
      requires Keyed(orders)
      ensures Lists(open, OpenOrders(orders))
    {
      hide Lists, OpenOrders, Keyed, Without;
      open := [];
      var rest := orders.Keys;
      ListNone(orders);
      while rest != {}
        invariant rest <= orders.Keys
        invariant Lists(open, OpenOrders(Without(orders, rest)))
        decreases |rest|
      {
        var id :| id in rest;
        ListNext(orders, rest, id, open);
        rest := rest - {id};
        if IsOpen(orders[id].status) {
          open := open + [orders[id]];
        }
      }
      ListAll(orders);
    }

    /** False when an open order without a dot stops the loop, which has then closed some orders. */
    method CloseMissing(open: seq<Record>, ghost local: Orders, f: Feed) returns (ok: bool)
      requires Lists(open, local) && Keyed(local) && f.remotes.Some?
      modifies this
      ensures ok <==> AllDotted(local)
      ensures ok ==> orders == AfterCloses(old(orders), local, f)
      ensures !ok ==> PartlyClosed(old(orders), orders, local, f)
    {
      hide Matched, HasDot, Venue, ClosedSoFar, AllDotted, PartlyClosed, Lists, Keyed;
      ClosedNone(orders, open, f);
      for n := 0 to |open|
        invariant forall i :: 0 <= i < n ==> HasDot(open[i].symbol)
        invariant ClosedSoFar(old(orders), orders, open, n, f)
      {
        var o := open[n];
        if !HasDot(o.symbol) {
          ClosedPart(old(orders), orders, open, local, n, f);
          return false;
        }
        ClosedNext(old(orders), orders, open, n, f);
        if Venue(o.symbol) == f.venue {
          var found := Match(o, f.remotes.value);
          if !found {
            Close(o.id, "FILLED");
          }
        }
      }
      ClosedAll(old(orders), orders, open, local, f);
      return true;
    }

    /** False when the import of an unknown order raises an error that is not caught. */
    method ImportUnknown(open: seq<Record>, ghost local: Orders, f: Feed) returns (ok: bool)
      requires Lists(open, local) && f.remotes.Some? && |f.ids| == |f.remotes.value|
      modifies this
      ensures ok <==> forall k :: !Stops(local, f, k)
      ensures ok ==> orders == AfterImports(old(orders), local, f, |f.remotes.value|)
      ensures !ok ==> exists k: nat :: FirstStop(local, f, k) && orders == AfterImports(old(orders), local, f, k)
    {
      hide ImportOf, Lists, Known, AfterImports, Stops;
      ImportNone(orders, local, f);
      var known := KnownIds(open, local, f.venue);
      for k := 0 to |f.remotes.value|
        invariant orders == AfterImports(old(orders), local, f, k)
        invariant forall m :: 0 <= m < k ==> !Stops(local, f, m)
      {
        var r := f.remotes.value[k];
        ImportNext(old(orders), local, f, k);
        StopsHere(local, f, k);
        if r.orderId !in known {
          match ImportOf(r) {
            case Imported =>
              HasSymbol(r);
              Upsert(RecordOf(r, f.venue, f.ids[k]));
            case Skipped =>
            case Escapes =>
              assert FirstStop(local, f, k);
              return false;
          }
        }
      }
      NoStopBeyond(local, f);
      return true;
    }

    /**
     * One pass over the venues, in the order in which they are listed. It completes exactly
     * when it gets through every venue; otherwise it ends at the first it does not.
     */
    method Reconcile(feeds: seq<Feed>) returns (completed: bool)
      requires Keyed(orders) && Supplied(feeds)
      modifies this
      ensures completed <==> Completes(old(orders), feeds)
      ensures completed ==> orders == Pass(old(orders), feeds)
      ensures !completed ==> Interrupted(old(orders), orders, feeds)
      ensures Qualified(old(orders)) ==> Qualified(orders)
      ensures Keyed(orders)
    {
      hide AfterCloses, AfterImports, Lists, PartlyClosed, HasDot, Stops, Qualified, Keyed, AllDotted, FirstStop;
      var open := ListOpen();
      ghost var local := OpenOrders(orders);
      OpenKeyed(orders);
      for i := 0 to |feeds|
        invariant orders == PassFrom(old(orders), local, feeds[..i])
        invariant Keyed(orders) && (Qualified(old(orders)) ==> Qualified(orders))
        invariant forall j :: 0 <= j < i ==> GetsThrough(local, feeds[j])
      {
        assert feeds[..i + 1][..i] == feeds[..i];
        ghost var start := orders;
        if feeds[i].remotes.Some? {
          VenueShape(start, local, feeds[i]);
          var ok := CloseMissing(open, local, feeds[i]);
          if !ok {
            PartlyShape(start, orders, local, feeds[i]);
            assert EndedAt(old(orders), orders, feeds, i);
            return false;
          }
          ok := ImportUnknown(open, local, feeds[i]);
          if !ok {
            ghost var k: nat :| FirstStop(local, feeds[i], k)
              && orders == AfterImports(AfterCloses(start, local, feeds[i]), local, feeds[i], k);
            Stopped(local, feeds[i], k);
            ImportsShape(AfterCloses(start, local, feeds[i]), local, feeds[i], k);
            assert EndedAt(old(orders), orders, feeds, i);
            return false;
          }
        } else if feeds[i].uncaught {
          assert EndedAt(old(orders), orders, feeds, i);
          return false;
        }
      }
      assert feeds[..|feeds|] == feeds;
      return true;
    }
  }

  lemma ImportNone(orders: Orders, local: Orders, f: Feed)
    ensures AfterImports(orders, local, f, 0) == orders
  {
  }

  lemma ImportNext(orders: Orders, local: Orders, f: Feed, k: nat)
    requires f.remotes.Some? && k < |f.remotes.value| && |f.ids| == |f.remotes.value|
    ensures var r, before := f.remotes.value[k], AfterImports(orders, local, f, k);
      && (Importable(r) ==> !r.symbol.Missing?)
      && AfterImports(orders, local, f, k + 1)
         == if r.orderId !in Known(local, f.venue) && Importable(r)
            then before[f.ids[k] := RecordOf(r, f.venue, f.ids[k])] else before
  {
    hide Known, RecordOf, ImportOf;
    if Importable(f.remotes.value[k]) {
      HasSymbol(f.remotes.value[k]);
    }
  }

  lemma StopsHere(local: Orders, f: Feed, k: nat)
    requires f.remotes.Some? && k < |f.remotes.value|
    ensures Stops(local, f, k)
      <==> f.remotes.value[k].orderId !in Known(local, f.venue) && ImportOf(f.remotes.value[k]).Escapes?
  {
    hide Known, ImportOf;
  }

  lemma NoStopBeyond(local: Orders, f: Feed)
    ensures forall k :: Stops(local, f, k) ==> f.remotes.Some? && 0 <= k < |f.remotes.value|
  {
    hide Known, ImportOf;
  }

  lemma Stopped(local: Orders, f: Feed, k: nat)
    requires FirstStop(local, f, k)
    ensures f.remotes.Some? && !GetsThrough(local, f)
  {
  }

  lemma OpenKeyed(orders: Orders)
    requires Keyed(orders)
    ensures Keyed(OpenOrders(orders))
  {
  }

  lemma HasSymbol(r: Remote)
    requires Importable(r)
    ensures !r.symbol.Missing?
  {
  }

  method KnownIds(open: seq<Record>, ghost local: Orders, venue: string) returns (known: set<string>)
    requires Lists(open, local)
    ensures known == Known(local, venue)
  {
    known := {};
    for n := 0 to |open|
      invariant forall x :: x in known <==>
        exists i :: 0 <= i < n && Venue(open[i].symbol) == venue && open[i].venueOrderId == Some(x)
    {
      if Venue(open[n].symbol) == venue && open[n].venueOrderId.Some? {
        known := known + {open[n].venueOrderId.value};
      }
    }
  }

  lemma JoinedHasDot(base: string, venue: string)
    ensures HasDot(base + "." + venue)
  {
    assert (base + "." + venue)[|base|] == '.';
  }

  lemma {:induction false} ImportsShape(orders: Orders, local: Orders, f: Feed, n: nat)
    requires Keyed(orders)
    ensures Keyed(AfterImports(orders, local, f, n))
    ensures Qualified(orders) ==> Qualified(AfterImports(orders, local, f, n))
  {
    if n > 0 {
      ImportsShape(orders, local, f, n - 1);
      if Imports(local, f, n - 1) {
        JoinedHasDot(Shown(f.remotes.value[n - 1].symbol), f.venue);
      }
    }
  }

  /** The daemon can split the symbols of its open orders after every pass, however far it got. */
  lemma VenueShape(orders: Orders, local: Orders, f: Feed)
    requires Keyed(orders)
    ensures Keyed(VenuePass(orders, local, f)) && (Qualified(orders) ==> Qualified(VenuePass(orders, local, f)))
    ensures Keyed(AfterCloses(orders, local, f)) && (Qualified(orders) ==> Qualified(AfterCloses(orders, local, f)))
  {
    var closed := AfterCloses(orders, local, f);
    assert forall id :: id in closed && IsOpen(closed[id].status) ==> closed[id] == orders[id];
    if f.remotes.Some? {
      ImportsShape(closed, local, f, |f.remotes.value|);
    }
  }

  lemma PartlyShape(before: Orders, after: Orders, local: Orders, f: Feed)
    requires Keyed(before) && PartlyClosed(before, after, local, f)
    ensures Keyed(after) && (Qualified(before) ==> Qualified(after))
  {
    hide Closes, HasDot;
    forall id | id in after
      ensures after[id].id == id && (IsOpen(after[id].status) ==> after[id] == before[id])
    {
      assert id in before;
    }
  }

  lemma {:induction false} PassShape(orders: Orders, local: Orders, feeds: seq<Feed>)
    requires Keyed(orders)
    ensures Keyed(PassFrom(orders, local, feeds))
    ensures Qualified(orders) ==> Qualified(PassFrom(orders, local, feeds))
  {
    if feeds != [] {
      hide Keyed, Qualified, VenuePass;
      PassShape(orders, local, feeds[..|feeds| - 1]);
      VenueShape(PassFrom(orders, local, feeds[..|feeds| - 1]), local, feeds[|feeds| - 1]);
    }
  }

  /** An unknown order that raises would have been unknown, and have raised, in the first pass. */
  lemma NothingStopsAgain(orders: Orders, feeds: seq<Feed>, again: seq<Feed>, i: nat, k: nat)
    requires WellShaped(orders, feeds) && SameAnswers(feeds, again) && i < |feeds|
    requires GetsThrough(OpenOrders(orders), feeds[i])
    ensures !Stops(OpenOrders(Pass(orders, feeds)), again[i], k)
  {
    hide WellShaped, Pass, Known, ImportOf;
    if Stops(OpenOrders(Pass(orders, feeds)), again[i], k) {
      assert !Stops(OpenOrders(orders), feeds[i], k);
      StillTracked(orders, feeds, i, k);
    }
  }

  /** When a pass completes, so does the next one over the same answers. */
  lemma SecondPassCompletes(orders: Orders, feeds: seq<Feed>, again: seq<Feed>)
    requires WellShaped(orders, feeds) && SameAnswers(feeds, again) && Keyed(orders) && Completes(orders, feeds)
    ensures Completes(Pass(orders, feeds), again)
  {
    hide WellShaped, PassFrom, Stops, Qualified, AllDotted, Keyed;
    PassShape(orders, OpenOrders(orders), feeds);
    DottedIsQualified(orders);
    DottedIsQualified(Pass(orders, feeds));
    forall i | 0 <= i < |again|
      ensures GetsThrough(OpenOrders(Pass(orders, feeds)), again[i])
    {
      assert GetsThrough(OpenOrders(orders), feeds[i]);
      if again[i].remotes.Some? {
        forall k: int
          ensures !Stops(OpenOrders(Pass(orders, feeds)), again[i], k)
        {
          if k >= 0 {
            NothingStopsAgain(orders, feeds, again, i, k);
          } else {
            NoNegativeStop(OpenOrders(Pass(orders, feeds)), again[i], k);
          }
        }
      }
    }
  }

  lemma NoNegativeStop(local: Orders, f: Feed, k: int)
    requires k < 0
    ensures !Stops(local, f, k)
  {
  }

  /** The dot case does not arise in a store that only passes write to: it starts qualified and stays so. */
  lemma {:induction false} StoreStaysQualified(history: seq<seq<Feed>>)
    ensures Keyed(AfterPasses(history)) && Qualified(AfterPasses(history))
  {
    if history != [] {
      hide Keyed, Qualified, PassFrom;
      StoreStaysQualified(history[..|history| - 1]);
      var before := AfterPasses(history[..|history| - 1]);
      PassShape(before, OpenOrders(before), history[|history| - 1]);
    }
  }

  /** The store of a new daemon after a sequence of completed passes. */
  function AfterPasses(history: seq<seq<Feed>>): Orders {
    if history == [] then map[] else Pass(AfterPasses(history[..|history| - 1]), history[|history| - 1])
  }

  /** Over well-formed answers, and with every open symbol dotted, a pass completes unless a listing escapes. */
  lemma WellFormedCompletes(orders: Orders, feeds: seq<Feed>)
    requires Qualified(orders) && forall i :: 0 <= i < |feeds| ==> WellFormed(feeds[i])
    ensures Completes(orders, feeds) <==> forall i :: 0 <= i < |feeds| && feeds[i].remotes.None? ==> !feeds[i].uncaught
  {
    hide Known, HasDot, ImportOf;
    DottedIsQualified(orders);
    forall i, k: int | 0 <= i < |feeds| && feeds[i].remotes.Some?
      ensures !Stops(OpenOrders(orders), feeds[i], k)
    {
      if 0 <= k < |feeds[i].remotes.value| {
        assert Listed(feeds[i], k);
      }
    }
  }
}
