/**
 * The inbound payment webhook (app/Http/Controllers/Api/V1/WebhooksController.php).
 */
module WebhooksController {
  import opened Wrappers
  import opened PhpStrings
  import opened StatusMachine
  import opened Models
  import opened Queries
  import FetchLabelJob
  import PaymentsController

  const WebhookProvider: string := "provider"

  /**
   * The validated payload: `event`, `data.payment_id` (nullable),
   * `data.shipment_id`, `data.status`. A payment id that names no payment
   * row behaves like null.
   */
  datatype WebhookRequest = WebhookRequest(
    event: string,
    paymentId: Option<PaymentId>,
    shipmentId: ShipmentId,
    status: string)

  /** 401 Unauthorized, 422 from the `exists:shipments,id` rule, 204 No Content. */
  datatype WebhookReply = Unauthorized | Unprocessable | NoContent

  /** The only request that has an effect: a `payment.paid` event whose status is PAID in any case. */
  predicate IsPaidEvent(req: WebhookRequest)
  {
    req.event == "payment.paid" && Upper(req.status) == "PAID"
  }

  /** The row `$shipment->payments()->where('id', $paymentId)`: scoped to shipment `sid`. */
  function NamedPayment(sid: ShipmentId, pid: Option<PaymentId>): Payment -> bool
  {
    (p: Payment) => p.shipmentId == sid && pid == Some(p.id)
  }

  /**
   * The payments table after a PAID event for shipment `sid`: the named
   * payment of that shipment is marked PAID, or, when there is none, a new
   * PAID payment from provider 'provider' is appended.
   */
  function WebhookPayments(ps: seq<Payment>, sid: ShipmentId, pid: Option<PaymentId>,
                           newId: PaymentId, now: Time): (r: seq<Payment>)
    ensures FirstMatch(ps, NamedPayment(sid, pid)).Some? ==>
      var k := FirstMatch(ps, NamedPayment(sid, pid)).value;
      r == ps[k := MarkedPaid(ps[k], now)]
    ensures FirstMatch(ps, NamedPayment(sid, pid)).None? ==>
      |r| == |ps| + 1 && r[..|ps|] == ps
      && r[|ps|] == Payment(newId, sid, WebhookProvider, PaymentStatus.Paid, 0, "PLN", now, Some(now))
    ensures forall i | 0 <= i < |ps| ::
      r[i] == ps[i] || (NamedPayment(sid, pid)(ps[i]) && r[i] == MarkedPaid(ps[i], now))
    ensures forall i | 0 <= i < |ps| && ps[i].shipmentId != sid :: r[i] == ps[i]
  {
    match FirstMatch(ps, NamedPayment(sid, pid))
    case Some(k) => ps[k := MarkedPaid(ps[k], now)]
    case None => ps + [NewPayment(newId, sid, WebhookProvider, PaymentStatus.Paid, now, Some(now))]
  }

  /**
   * With unique payment ids, the named payment is the only one that
   * can change.
   */
  lemma OnlyNamedPaymentChanges(ps: seq<Payment>, sid: ShipmentId, pid: PaymentId, newId: PaymentId, now: Time, i: nat)
    requires forall a, b | 0 <= a < b < |ps| :: ps[a].id < ps[b].id
    requires i < |ps| && ps[i].id != pid
    ensures WebhookPayments(ps, sid, Some(pid), newId, now)[i] == ps[i]
  {
  }

  /**
   * A delivery that names no payment of the shipment appends a PAID
   * payment, so delivering it twice leaves two new PAID payments.
   */
  lemma UnnamedDeliveryTwiceAppendsTwo(ps: seq<Payment>, sid: ShipmentId, newId: PaymentId, now1: Time, now2: Time)
    requires forall i | 0 <= i < |ps| :: ps[i].id < newId
    ensures var once := WebhookPayments(ps, sid, None, newId, now1);
      var twice := WebhookPayments(once, sid, None, newId + 1, now2);
      |twice| == |ps| + 2 && twice[..|ps|] == ps
      && twice[|ps|].status == PaymentStatus.Paid && twice[|ps| + 1].status == PaymentStatus.Paid
  {
    var once := WebhookPayments(ps, sid, None, newId, now1);
    assert FirstMatch(once, NamedPayment(sid, None)).None?;
    var twice := WebhookPayments(once, sid, None, newId + 1, now2);
    assert twice[..|ps|] == once[..|once|][..|ps|];
  }

  /**
   * `payments`: the key check, the shipment existence check, the event
   * filter, the payment upsert, the guarded PAID write and the label job.
   */
  method Payments(db: Database, apiKey: Option<string>, configuredKey: Option<string>,
                  req: WebhookRequest, now: Time, stamp: string) returns (reply: WebhookReply)
    requires db.Valid()
    modifies db, db.Lookup(req.shipmentId)`status
    ensures db.Valid() && db.shipments == old(db.shipments)
    ensures apiKey != configuredKey ==>
      && reply == Unauthorized && unchanged(db)
      && (req.shipmentId in old(db.shipments) ==> unchanged(db.shipments[req.shipmentId]))
    ensures apiKey == configuredKey && req.shipmentId !in old(db.shipments) ==>
      reply == Unprocessable && unchanged(db) && db.Lookup(req.shipmentId) == {}
    ensures apiKey == configuredKey && req.shipmentId in old(db.shipments) && !IsPaidEvent(req) ==>
      reply == NoContent && unchanged(db) && unchanged(db.shipments[req.shipmentId])
    ensures apiKey == configuredKey && req.shipmentId in old(db.shipments) && IsPaidEvent(req) ==>
      var sid := req.shipmentId;
      && reply == NoContent
      && db.payments == WebhookPayments(old(db.payments), sid, req.paymentId, old(db.nextPaymentId), now)
      && db.nextPaymentId == old(db.nextPaymentId) + (|db.payments| - |old(db.payments)|)
      && db.shipments[sid].status == PaymentsController.PaidThenLabelReady(old(db.shipments[sid].status))
      && db.labels == old(db.labels) + [FetchLabelJob.JobLabel(sid, FetchLabelJob.DefaultFormat, stamp)]
      && db.files == old(db.files)[FetchLabelJob.LabelPath(sid, stamp) := FetchLabelJob.Placeholder]
    ensures db.events == old(db.events)
  {
    if apiKey != configuredKey {
      return Unauthorized;
    }
    var sid := req.shipmentId;
    if sid !in db.shipments {
      return Unprocessable;
    }
    if IsPaidEvent(req) {
      var shipment := db.shipments[sid];
      UpsertPaidPayment(db, sid, req.paymentId, now);
      if CanTransitionTo(shipment.status, ShipmentStatus.Paid) {
        shipment.status := ShipmentStatus.Paid;
      }
      var _ := FetchLabelJob.Handle(db, sid, FetchLabelJob.DefaultFormat, stamp);
    }
    reply := NoContent;
  }

  /** The payment half of `payments`: update the named payment or create a PAID one. */
  method UpsertPaidPayment(db: Database, sid: ShipmentId, pid: Option<PaymentId>, now: Time)
    requires db.Valid() && sid in db.shipments
    modifies db`payments, db`nextPaymentId
    ensures db.Valid()
    ensures db.payments == WebhookPayments(old(db.payments), sid, pid, old(db.nextPaymentId), now)
    ensures db.nextPaymentId == old(db.nextPaymentId) + (|db.payments| - |old(db.payments)|)
  {
    var found := FirstMatch(db.payments, NamedPayment(sid, pid));
    if found.None? {
      var created := NewPayment(db.nextPaymentId, sid, WebhookProvider, PaymentStatus.Paid, now, Some(now));
      db.payments := db.payments + [created];
      db.nextPaymentId := db.nextPaymentId + 1;
    } else {
      var k := found.value;
      db.payments := db.payments[k := MarkedPaid(db.payments[k], now)];
    }
  }
}
