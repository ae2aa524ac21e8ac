/**
 * What a reconciliation pass stores, field by field on the remote order itself: which
 * orders are imported, what their records contain, and which open orders are closed.
 */
module OmsMeaning {
  import opened Basics
  import opened Symbols
  import opened OmsReconcile

  const OPEN := {"NEW", "PARTIALLY_FILLED", "ACCEPTED", "PENDING_NEW"}

  /** Absent, or a number: what `float` accepts. */
  predicate Numeric(n: Num) { n.Absent? || n.Number? }

  /** The quantity field of a remote order: the original quantity or, when there is none, the plain one. */
  function Ordered(r: Remote): Num { match r.origQty case Absent => r.quantity case n => n }

  /** What reading a number field comes to: text that is no number is skipped over, null is not. */
  function Reading(n: Num): Outcome {
    match n
    case Absent => Imported
    case Number(_) => Imported
    case Malformed => Skipped
    case Unusable => Escapes
  }

  /** The same for a text field that is upper-cased. */
  function Casing(t: Text): Outcome { match t case NotText(_) => Escapes case _ => Imported }

  /** What comes of each field, in the order in which an import reads them. */
  function Readings(r: Remote): seq<Outcome> {
    [if r.symbol == Missing then Skipped else Imported, Casing(r.kind), Reading(Ordered(r)), Reading(r.executed),
     Casing(r.side), Reading(r.price), Reading(r.stopPrice), Casing(r.status), Reading(r.avgFillPrice)]
  }

  /** An import goes as far as its first field that does not read. */
  lemma FirstFailureDecides(r: Remote)
    ensures ImportOf(r).Imported? <==> forall n :: 0 <= n < |Readings(r)| ==> Readings(r)[n].Imported?
    ensures !ImportOf(r).Imported? ==>
      exists n :: 0 <= n < |Readings(r)| && Readings(r)[n] == ImportOf(r)
        && forall m :: 0 <= m < n ==> Readings(r)[m].Imported?
  {
    hide Reading, Casing;
    SameReadings(r);
    var rs := Readings(r);
    assert ImportOf(r) == Then(rs[0], Then(rs[1], Then(rs[2], Then(rs[3], Then(rs[4], Then(rs[5], Then(rs[6],
      Then(rs[7], rs[8]))))))));
    hide ImportOf, Readings;
    FirstNotImported(rs);
  }

  lemma FirstNotImported(rs: seq<Outcome>)
    requires |rs| == 9
    ensures var all := Then(rs[0], Then(rs[1], Then(rs[2], Then(rs[3], Then(rs[4], Then(rs[5], Then(rs[6],
              Then(rs[7], rs[8]))))))));
      if all.Imported? then forall n :: 0 <= n < 9 ==> rs[n].Imported?
      else exists n :: 0 <= n < 9 && rs[n] == all && forall m :: 0 <= m < n ==> rs[m].Imported?
  {
  }

  lemma SameReadings(r: Remote)
    ensures Subscript(r.symbol) == Readings(r)[0] && UpperOf(r.kind) == Readings(r)[1]
    ensures FloatOf(QuantityOf(r)) == Readings(r)[2] && FloatOf(r.executed) == Readings(r)[3]
    ensures UpperOf(r.side) == Readings(r)[4] && FloatOf(r.price) == Readings(r)[5]
    ensures FloatOf(r.stopPrice) == Readings(r)[6] && UpperOf(r.status) == Readings(r)[7]
    ensures FloatOf(r.avgFillPrice) == Readings(r)[8]
  {
  }

  /** Exactly the orders with a symbol, texts that can be upper-cased and numbers are importable. */
  lemma ImportableIff(r: Remote)
    ensures Importable(r) <==>
      && !r.symbol.Missing? && !r.kind.NotText? && !r.side.NotText? && !r.status.NotText?
      && Numeric(Ordered(r)) && Numeric(r.executed) && Numeric(r.price) && Numeric(r.stopPrice)
      && Numeric(r.avgFillPrice)
  {
  }

  /** The number of a field, where it is absent or reads as one. */
  predicate Reads(x: real, n: Num) { match n case Absent => x == 0.0 case Number(v) => x == v case _ => false }

  /** A price is stored unless it is absent or zero. */
  predicate ReadsOrNone(x: Option<real>, n: Num) {
    match n
    case Absent => x == None
    case Number(v) => if v == 0.0 then x == None else x == Some(v)
    case _ => false
  }

  /** The upper-case form of a text, or of its default where it is absent. */
  predicate ReadsUpper(x: string, t: Text, default: string) {
    match t case Missing => x == default case Word(s) => x == Upper(s) case NotText(_) => false
  }

  /** An upper-cased order type that is one of four, and LIMIT for anything else. */
  predicate ReadsType(x: string, t: Text) {
    var types := {"MARKET", "LIMIT", "STOP", "STOP_LIMIT"};
    match t case Missing => x == "LIMIT" case Word(s) => x == (if Upper(s) in types then Upper(s) else "LIMIT")
    case NotText(_) => false
  }

  /** A text as it prints, or its default where it is absent. */
  predicate ReadsShown(x: string, t: Text, default: string) {
    match t case Missing => x == default case Word(s) => x == s case NotText(s) => x == s
  }

  /** An open local order of the venue carries the id of remote order k. */
  predicate Tracks(orders: Orders, venue: string, id: string, orderId: string) {
    && id in orders && orders[id].status in OPEN
    && Venue(orders[id].symbol) == venue && orders[id].venueOrderId == Some(orderId)
  }

  /** Remote order k of the feed is one that no open local order of the venue tracks, and it reads. */
  ghost predicate ToImport(orders: Orders, f: Feed, k: nat) {
    && f.remotes.Some? && k < |f.remotes.value| && k < |f.ids|
    && (forall id :: !Tracks(orders, f.venue, id, f.remotes.value[k].orderId))
    && forall n :: 0 <= n < |Readings(f.remotes.value[k])| ==> Readings(f.remotes.value[k])[n].Imported?
  }

  lemma OpenStatus(status: string)
    ensures IsOpen(status) <==> status in OPEN
  {
  }

  lemma KnownIff(orders: Orders, venue: string, x: string)
    ensures x in Known(OpenOrders(orders), venue) <==> exists id :: Tracks(orders, venue, id, x)
  {
    hide Venue, IsOpen;
    var local := OpenOrders(orders);
    forall id
      ensures Tracks(orders, venue, id, x)
        <==> id in local && Venue(local[id].symbol) == venue && local[id].venueOrderId == Some(x)
    {
      if id in orders {
        OpenStatus(orders[id].status);
      }
    }
  }

  lemma ToImportIff(orders: Orders, f: Feed, k: nat)
    ensures Imports(OpenOrders(orders), f, k) <==> ToImport(orders, f, k)
  {
    hide ImportOf, Readings, Known, Tracks;
    if f.remotes.Some? && k < |f.remotes.value| {
      KnownIff(orders, f.venue, f.remotes.value[k].orderId);
      FirstFailureDecides(f.remotes.value[k]);
    }
  }

  lemma RecordFields(r: Remote, venue: string, id: string)
    requires Importable(r)
    ensures !r.symbol.Missing?
    ensures var o := RecordOf(r, venue, id);
      && o.id == id && o.clientKey == "imported" && o.venueOrderId == Some(r.orderId)
      && Reads(o.quantity, Ordered(r)) && Reads(o.filledQty, r.executed)
      && ReadsOrNone(o.price, r.price) && ReadsOrNone(o.stopPrice, r.stopPrice)
      && ReadsOrNone(o.avgFillPrice, r.avgFillPrice)
      && ReadsUpper(o.side, r.side, "BUY") && ReadsUpper(o.status, r.status, "NEW")
  {
    hide OrderType;
    UpperWords();
  }

  lemma UpperWords()
    ensures Upper("BUY") == "BUY" && Upper("NEW") == "NEW" && Upper("LIMIT") == "LIMIT"
  {
  }

  /** How the type, the time in force and the symbol of an imported record read. */
  lemma RecordTexts(r: Remote, venue: string, id: string)
    requires Importable(r)
    ensures !r.symbol.Missing?
    ensures var o := RecordOf(r, venue, id);
      && ReadsType(o.orderType, r.kind)
      && ReadsShown(o.tif, r.tif, "GTC")
      && (match r.symbol
          case Word(s) => o.symbol == s + "." + venue
          case NotText(s) => o.symbol == s + "." + venue
          case Missing => false)
  {
    UpperWords();
  }

  /**
   * A pass stores a record under a drawn id exactly when the remote order it was drawn for
   * is not tracked by an open order of its venue and all of its fields read.
   */
  lemma ImportedIff(orders: Orders, feeds: seq<Feed>, i: nat, k: nat)
    requires UniqueIds(orders, feeds) && i < |feeds| && k < |feeds[i].ids|
    ensures feeds[i].ids[k] in Pass(orders, feeds) <==> ToImport(orders, feeds[i], k)
  {
    hide Imports, ToImport, PassFrom;
    PassAdds(orders, OpenOrders(orders), feeds, i, k);
    ToImportIff(orders, feeds[i], k);
  }

  /** What the record of an imported order contains, one clause for each of its fields. */
  lemma ImportedRecord(orders: Orders, feeds: seq<Feed>, i: nat, k: nat)
    requires UniqueIds(orders, feeds) && i < |feeds| && k < |feeds[i].ids| && ToImport(orders, feeds[i], k)
    ensures feeds[i].ids[k] in Pass(orders, feeds)
    ensures var o, r := Pass(orders, feeds)[feeds[i].ids[k]], feeds[i].remotes.value[k];
      && o.id == feeds[i].ids[k] && o.clientKey == "imported" && o.venueOrderId == Some(r.orderId)
      && Reads(o.quantity, Ordered(r)) && Reads(o.filledQty, r.executed)
      && ReadsOrNone(o.price, r.price) && ReadsOrNone(o.stopPrice, r.stopPrice)
      && ReadsOrNone(o.avgFillPrice, r.avgFillPrice)
      && ReadsUpper(o.side, r.side, "BUY") && ReadsUpper(o.status, r.status, "NEW")
      && ReadsType(o.orderType, r.kind)
      && ReadsShown(o.tif, r.tif, "GTC")
      && (match r.symbol
          case Word(s) => o.symbol == s + "." + feeds[i].venue
          case NotText(s) => o.symbol == s + "." + feeds[i].venue
          case Missing => false)
  {
    hide PassFrom, RecordOf, Reads, ReadsOrNone, ReadsUpper, ReadsType, ReadsShown, Ordered, ImportOf, Known,
      Tracks, Readings;
    ToImportIff(orders, feeds[i], k);
    PassAdds(orders, OpenOrders(orders), feeds, i, k);
    RecordFields(feeds[i].remotes.value[k], feeds[i].venue, feeds[i].ids[k]);
    RecordTexts(feeds[i].remotes.value[k], feeds[i].venue, feeds[i].ids[k]);
  }

  /** Every record of the store after a pass was there before or was imported for a remote order. */
  lemma NothingElse(orders: Orders, feeds: seq<Feed>, id: string)
    requires UniqueIds(orders, feeds) && id in Pass(orders, feeds) && id !in orders
    ensures exists i, k: nat :: (
      0 <= i < |feeds| && k < |feeds[i].ids| && feeds[i].ids[k] == id && ToImport(orders, feeds[i], k))
  {
    hide PassFrom, Imports, ToImport;
    var drawn, i, k := Origin(orders, feeds, id);
    ToImportIff(orders, feeds[i], k);
  }

  /** A remote order answers to a local one: it has its id, or its base symbol and its side as spelled. */
  predicate Answers(r: Remote, o: Record) {
    || (o.venueOrderId.Some? && o.venueOrderId.value == r.orderId)
    || (r.symbol.Word? && r.symbol.text == Base(o.symbol) && r.side.Word? && r.side.text == o.side)
  }

  /** The order's venue answered, and none of its remote orders answers to it. */
  predicate Unanswered(o: Record, f: Feed) {
    && f.venue == Venue(o.symbol) && f.remotes.Some?
    && forall k :: 0 <= k < |f.remotes.value| ==> !Answers(f.remotes.value[k], o)
  }

  /**
   * What becomes of an order the store had: its status turns FILLED when it was open and
   * its venue answered without it, and nothing else about it ever changes.
   */
  lemma ClosedIff(orders: Orders, feeds: seq<Feed>, id: string)
    requires WellShaped(orders, feeds) && id in orders
    ensures id in Pass(orders, feeds)
    ensures Pass(orders, feeds)[id] ==
      if orders[id].status in OPEN && exists i :: 0 <= i < |feeds| && Unanswered(orders[id], feeds[i])
      then orders[id].(status := "FILLED") else orders[id]
  {
    hide PassFrom, Closes, IsOpen, Unanswered;
    TouchedIff(orders, feeds, id);
    OpenStatus(orders[id].status);
    forall i | 0 <= i < |feeds|
      ensures Closes(orders[id], feeds[i]) <==> Unanswered(orders[id], feeds[i])
    {
      UnansweredIff(orders[id], feeds[i]);
    }
  }

  lemma UnansweredIff(o: Record, f: Feed)
    ensures Closes(o, f) <==> Unanswered(o, f)
  {
    hide Base, Venue;
    if f.remotes.Some? {
      forall k | 0 <= k < |f.remotes.value|
        ensures Answers(f.remotes.value[k], o)
          <==> SameId(o, f.remotes.value[k]) || SameSymbolAndSide(o, f.remotes.value[k])
      {
      }
      hide Answers, SameId, SameSymbolAndSide;
    }
  }

  /** Field n raises an error that is not caught, and all before it read. */
  predicate EscapesAt(r: Remote, n: int) {
    0 <= n < |Readings(r)| && Readings(r)[n].Escapes? && forall m :: 0 <= m < n ==> Readings(r)[m].Imported?
  }

  /** Remote order k is tracked by no open order of its venue, and its first field that does not read escapes. */
  ghost predicate EndsPass(orders: Orders, f: Feed, k: nat)
    requires f.remotes.Some? && k < |f.remotes.value|
  {
    var r := f.remotes.value[k];
    && (forall id :: !Tracks(orders, f.venue, id, r.orderId))
    && exists n :: EscapesAt(r, n)
  }

  lemma EscapesIff(r: Remote)
    ensures ImportOf(r).Escapes? <==> exists n :: EscapesAt(r, n)
  {
    hide ImportOf, Readings;
    FirstFailureDecides(r);
    if ImportOf(r).Escapes? {
      var n :| 0 <= n < |Readings(r)| && Readings(r)[n] == ImportOf(r)
        && forall m :: 0 <= m < n ==> Readings(r)[m].Imported?;
      assert EscapesAt(r, n);
    }
  }

  lemma StopsIff(orders: Orders, f: Feed, k: nat)
    requires f.remotes.Some? && k < |f.remotes.value|
    ensures Stops(OpenOrders(orders), f, k) <==> EndsPass(orders, f, k)
  {
    hide ImportOf, Readings, Known, Tracks;
    KnownIff(orders, f.venue, f.remotes.value[k].orderId);
    EscapesIff(f.remotes.value[k]);
  }

  /**
   * A pass completes exactly when no venue's listing fails with an error it does not catch
   * and, at every venue that answers, each open order's symbol has a dot and no untracked
   * remote order ends the pass.
   */
  lemma CompletesIff(orders: Orders, feeds: seq<Feed>)
    ensures Completes(orders, feeds) <==> forall i :: 0 <= i < |feeds| ==>
      if feeds[i].remotes.None? then !feeds[i].uncaught
      else (forall id :: id in orders && orders[id].status in OPEN ==> '.' in orders[id].symbol)
           && forall k: nat :: k < |feeds[i].remotes.value| ==> !EndsPass(orders, feeds[i], k)
  {
    hide Stops, EndsPass;
    assert AllDotted(OpenOrders(orders)) <==>
      forall id :: id in orders && orders[id].status in OPEN ==> '.' in orders[id].symbol by { DottedIff(orders); }
    forall i | 0 <= i < |feeds| && feeds[i].remotes.Some?
      ensures (forall k :: !Stops(OpenOrders(orders), feeds[i], k))
        <==> forall k: nat :: k < |feeds[i].remotes.value| ==> !EndsPass(orders, feeds[i], k)
    {
      NoneStopsIff(orders, feeds[i]);
    }
  }

  lemma DottedIff(orders: Orders)
    ensures AllDotted(OpenOrders(orders)) <==>
      forall id :: id in orders && orders[id].status in OPEN ==> '.' in orders[id].symbol
  {
    DottedIsQualified(orders);
  }

  lemma NoneStopsIff(orders: Orders, f: Feed)
    requires f.remotes.Some?
    ensures (forall k :: !Stops(OpenOrders(orders), f, k))
      <==> forall k: nat :: k < |f.remotes.value| ==> !EndsPass(orders, f, k)
  {
    hide Stops, EndsPass, Known, ImportOf;
    NoStopBeyond(OpenOrders(orders), f);
    forall k: nat | k < |f.remotes.value|
      ensures Stops(OpenOrders(orders), f, k) <==> EndsPass(orders, f, k)
    {
      StopsIff(orders, f, k);
    }
  }
}
