/**
 * Shipment intake and the two read-only endpoints
 * (app/Http/Controllers/Api/V1/ShipmentsController.php).
 */
module ShipmentsController {
  import opened Wrappers
  import opened PhpStrings
  import opened StatusMachine
  import opened Models
  import opened Queries

  // ---------------------------------------------------------------------
  // store

  /** The validated intake payload. */
  datatype ShipmentRequest = ShipmentRequest(
    serviceCode: string,
    reference: Option<string>,
    receiver: Party,
    sender: Party,
    parcel: Parcel,
    pickupPointId: Option<string>,
    codAmountPln: Option<Decimal>,
    insuranceAmountPln: Option<Decimal>)

  /** The 201 body of `store`. */
  datatype StoreReply = StoreReply(
    id: ShipmentId,
    status: string,
    carrier: Option<string>,
    trackingNumber: Option<string>,
    pricePln: Option<Decimal>)

  /** An address block as intake stores it: the country code upper-cased, the rest as given. */
  function NormalizedParty(p: Party): (r: Party)
    ensures IsUpper(r.countryCode) && |r.countryCode| == |p.countryCode|
    ensures Upper(r.countryCode) == Upper(p.countryCode)
    ensures r.(countryCode := p.countryCode) == p
  {
    UpperIdempotent(p.countryCode);
    p.(countryCode := Upper(p.countryCode))
  }

  /** Normalising an address block twice is normalising it once. */
  lemma NormalizedPartyIdempotent(p: Party)
    ensures NormalizedParty(NormalizedParty(p)) == NormalizedParty(p)
  {
    UpperIdempotent(p.countryCode);
  }

  /**
   * `store`: a new shipment in DRAFT, country codes upper-cased, optional
   * fields null when absent, the COD and insurance amounts in `metadata`.
   * The primary key comes from the persistence layer.
   */
  method Store(db: Database, req: ShipmentRequest, newId: ShipmentId) returns (reply: StoreReply)
    requires db.Valid() && newId !in db.shipments
    modifies db
    ensures db.Valid()
    ensures db.shipments.Keys == old(db.shipments.Keys) + {newId}
    ensures forall k | k in old(db.shipments) :: db.shipments[k] == old(db.shipments[k])
    ensures fresh(db.shipments[newId])
    ensures var s := db.shipments[newId];
      && s.status == Draft
      && s.serviceCode == req.serviceCode && s.reference == req.reference
      && s.receiver == NormalizedParty(req.receiver) && s.sender == NormalizedParty(req.sender)
      && s.parcel == req.parcel && s.pickupPointId == req.pickupPointId
      && s.metadata == Metadata(req.codAmountPln, req.insuranceAmountPln)
      && s.carrier == None && s.carrierShipmentId == None && s.trackingNumber == None
    ensures reply == StoreReply(newId, "DRAFT", None, None, None)
    ensures db.payments == old(db.payments) && db.nextPaymentId == old(db.nextPaymentId)
    ensures db.labels == old(db.labels) && db.events == old(db.events) && db.files == old(db.files)
  {
    var s := new Shipment(newId, req.reference, req.serviceCode,
                          NormalizedParty(req.receiver), NormalizedParty(req.sender),
                          req.parcel, req.pickupPointId,
                          Metadata(req.codAmountPln, req.insuranceAmountPln), Draft);
    db.shipments := db.shipments[newId := s];
    reply := StoreReply(s.id, Value(s.status), s.carrier, s.trackingNumber, s.pricePln);
  }

  // ---------------------------------------------------------------------
  // label

  /** 422 Invalid format, 404 for an unknown shipment, 404 Label not ready, 200 with the file. */
  datatype LabelReply =
    | InvalidFormat
    | ShipmentNotFound
    | LabelNotReady
    | LabelServed(content: string, contentType: string, disposition: string)

  /**
   * `label`: the format query (default A6) is upper-cased and checked first;
   * then the most recently created label of the shipment is served if its
   * file exists. The format plays no further part.
   */
  function ServeLabel(db: Database, id: ShipmentId, formatQuery: Option<string>): (r: LabelReply)
    reads db
    ensures Upper(formatQuery.GetOr("A6")) !in LabelFormats <==> r == InvalidFormat
    ensures r == ShipmentNotFound <==> Upper(formatQuery.GetOr("A6")) in LabelFormats && id !in db.shipments
    ensures r.LabelServed? ==>
      && LastMatch(db.labels, LabelOf(id)).Some?
      && var l := db.labels[LastMatch(db.labels, LabelOf(id)).value];
      && l.shipmentId == id
      && l.storagePath in db.files
      && r.content == db.files[l.storagePath]
      && r.contentType == l.mimeType.GetOr("application/pdf")
    ensures r == LabelNotReady ==>
      LastMatch(db.labels, LabelOf(id)).None?
      || db.labels[LastMatch(db.labels, LabelOf(id)).value].storagePath !in db.files
  {
    var format := Upper(formatQuery.GetOr("A6"));
    if format !in LabelFormats then InvalidFormat
    else if id !in db.shipments then ShipmentNotFound
    else match LastMatch(db.labels, LabelOf(id))
      case None => LabelNotReady
      case Some(k) =>
        var newest := db.labels[k];
        if newest.storagePath !in db.files then LabelNotReady
        else LabelServed(db.files[newest.storagePath], newest.mimeType.GetOr("application/pdf"),
                         "inline; filename=\"label_" + id + ".pdf\"")
  }

  /** Any accepted format gets the same reply: the latest label, whatever its own format. */
  lemma ServeLabelIgnoresValidFormat(db: Database, id: ShipmentId, f1: string, f2: string)
    requires Upper(f1) in LabelFormats && Upper(f2) in LabelFormats
    ensures ServeLabel(db, id, Some(f1)) == ServeLabel(db, id, Some(f2))
  {
  }

  /**
   * A label appended for the shipment, with its file stored, is the one
   * served, even if earlier labels exist.
   */
  lemma ServesNewestLabel(db: Database, id: ShipmentId, l: Label)
    requires id in db.shipments && l.shipmentId == id && l.storagePath in db.files
    requires |db.labels| > 0 && db.labels[|db.labels| - 1] == l
    ensures ServeLabel(db, id, None) ==
      LabelServed(db.files[l.storagePath], l.mimeType.GetOr("application/pdf"),
                  "inline; filename=\"label_" + id + ".pdf\"")
  {
    assert Upper("A6") == "A6";
    assert db.labels == db.labels[..|db.labels| - 1] + [l];
    LastMatchOfAppended(db.labels[..|db.labels| - 1], l, LabelOf(id));
  }

  // ---------------------------------------------------------------------
  // tracking

  /** The per-event fields `tracking` returns. */
  datatype EventView = EventView(code: string, description: Option<string>,
                                 occurredAt: Option<Time>, location: Option<string>)

  datatype TrackingReply = TrackingReply(shipmentId: ShipmentId, trackingNumber: Option<string>,
                                         events: seq<EventView>)

  function View(e: TrackingEvent): EventView
  {
    EventView(e.code, e.description, e.occurredAt, e.location)
  }

  /** Ascending `occurred_at`; a null timestamp sorts before every timestamp. */
  predicate NoLater(a: Option<Time>, b: Option<Time>)
  {
    a.None? || (b.Some? && a.value <= b.value)
  }

  predicate SortedByOccurrence(es: seq<TrackingEvent>)
  {
    forall i, j :: 0 <= i < j < |es| ==> NoLater(es[i].occurredAt, es[j].occurredAt)
  }

  /** `where('shipment_id', $id)`: exactly the events of shipment `sid`, with their multiplicities. */
  function EventsOf(es: seq<TrackingEvent>, sid: ShipmentId): (r: seq<TrackingEvent>)
    ensures forall e :: multiset(r)[e] == if e.shipmentId == sid then multiset(es)[e] else 0
  {
    if es == [] then []
    else
      assert es == [es[0]] + es[1..];
      (if es[0].shipmentId == sid then [es[0]] else []) + EventsOf(es[1..], sid)
  }

  /** Inserts `e` after every leading event not later than it. */
  function Insert(e: TrackingEvent, es: seq<TrackingEvent>): (r: seq<TrackingEvent>)
    ensures multiset(r) == multiset(es) + multiset{e}
  {
    if es == [] then [e]
    else if NoLater(es[0].occurredAt, e.occurredAt) then
      assert es == [es[0]] + es[1..];
      [es[0]] + Insert(e, es[1..])
    else
      [e] + es
  }

  /** Inserting into an ordered sequence keeps it ordered. */
  lemma {:induction false} InsertKeepsOrder(e: TrackingEvent, es: seq<TrackingEvent>)
    requires SortedByOccurrence(es)
    ensures SortedByOccurrence(Insert(e, es))
  {
    if es != [] && NoLater(es[0].occurredAt, e.occurredAt) {
      var rest := Insert(e, es[1..]);
      InsertKeepsOrder(e, es[1..]);
      forall j | 0 <= j < |rest|
        ensures NoLater(es[0].occurredAt, rest[j].occurredAt)
      {
        assert rest[j] in multiset(rest);
        if rest[j] != e {
          assert rest[j] in multiset(es[1..]);
          var k :| 0 <= k < |es[1..]| && es[1..][k] == rest[j];
          assert es[k + 1] == rest[j];
        }
      }
      assert Insert(e, es) == [es[0]] + rest;
    }
  }

  /** `orderBy('occurred_at')`: the same events, in ascending order. */
  function OrderByOccurrence(es: seq<TrackingEvent>): (r: seq<TrackingEvent>)
    ensures SortedByOccurrence(r)
    ensures multiset(r) == multiset(es)
  {
    if es == [] then []
    else
      assert es == [es[0]] + es[1..];
      var rest := OrderByOccurrence(es[1..]);
      InsertKeepsOrder(es[0], rest);
      Insert(es[0], rest)
  }

  /**
   * `tracking`: 404 for an unknown shipment, otherwise its tracking number
   * and only its events, ordered by `occurred_at`.
   */
  function Tracking(db: Database, id: ShipmentId): (r: Option<TrackingReply>)
    reads db, db.Lookup(id)
    ensures r.Some? <==> id in db.shipments
    ensures r.Some? ==>
      && r.value.shipmentId == id
      && r.value.trackingNumber == db.shipments[id].trackingNumber
      && var ordered := OrderByOccurrence(EventsOf(db.events, id));
      && SortedByOccurrence(ordered)
      && (forall e :: multiset(ordered)[e] == if e.shipmentId == id then multiset(db.events)[e] else 0)
      && r.value.events == seq(|ordered|, i requires 0 <= i < |ordered| => View(ordered[i]))
  {
    if id !in db.shipments then None
    else
      var ordered := OrderByOccurrence(EventsOf(db.events, id));
      Some(TrackingReply(id, db.shipments[id].trackingNumber,
                         seq(|ordered|, i requires 0 <= i < |ordered| => View(ordered[i]))))
  }
}
