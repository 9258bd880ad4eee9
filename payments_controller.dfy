/**
 * Payment start and simulation (app/Http/Controllers/Api/V1/PaymentsController.php).
 */
module PaymentsController {
  import opened Wrappers
  import opened StatusMachine
  import opened Models
  import opened Queries
  import FetchLabelJob

  const SimulatorProvider: string := "simulator"

  /** The JSON body of `start`; its `redirect_url` is always null. */
  datatype StartReply = StartReply(paymentId: PaymentId, provider: string)

  /** 404 from `findOrFail`; 422 from the `exists:shipments,id` validation rule. */
  datatype ApiError = NotFound | Unprocessable

  /**
   * The status a payment confirmation leaves: the guarded PAID write
   * followed by the label job's guarded LABEL_READY write.
   */
  function PaidThenLabelReady(s: ShipmentStatus): (r: ShipmentStatus)
    ensures s == PendingPayment || s == ShipmentStatus.Paid ==> r == LabelReady
    ensures s != PendingPayment && s != ShipmentStatus.Paid ==> r == s
  {
    GuardedStep(GuardedStep(s, ShipmentStatus.Paid), LabelReady)
  }

  /** A repeated confirmation leaves the status the first one left. */
  lemma PaidThenLabelReadyIdempotent(s: ShipmentStatus)
    ensures PaidThenLabelReady(PaidThenLabelReady(s)) == PaidThenLabelReady(s)
  {
  }

  /**
   * The payments table after `simulate` for shipment `sid`: the latest
   * payment of the shipment is marked PAID; when it has none, a PENDING
   * simulator payment is created first and then marked.
   */
  function SimulatedPayments(ps: seq<Payment>, sid: ShipmentId, newId: PaymentId, now: Time): (r: seq<Payment>)
    ensures LastMatch(ps, PaymentOf(sid)).Some? ==> |r| == |ps|
    ensures LastMatch(ps, PaymentOf(sid)).None? ==>
      |r| == |ps| + 1 && r[..|ps|] == ps
      && r[|ps|] == Payment(newId, sid, SimulatorProvider, PaymentStatus.Paid, 0, "PLN", now, Some(now))
    ensures forall i | 0 <= i < |ps| ::
      r[i] == ps[i] || (LastMatch(ps, PaymentOf(sid)) == Some(i) && r[i] == MarkedPaid(ps[i], now))
    ensures forall i | 0 <= i < |ps| && ps[i].shipmentId != sid :: r[i] == ps[i]
    ensures LastMatch(r, PaymentOf(sid)).Some?
    ensures var k := LastMatch(r, PaymentOf(sid)).value;
      r[k].status == PaymentStatus.Paid && r[k].paidAt == Some(now)
  {
    match LastMatch(ps, PaymentOf(sid))
    case Some(k) => ps[k := MarkedPaid(ps[k], now)]
    case None => ps + [MarkedPaid(NewPayment(newId, sid, SimulatorProvider, Pending, now, None), now)]
  }

  /**
   * `start`: always appends a new PENDING simulator payment, then moves the
   * shipment to PENDING_PAYMENT if the table allows it (only from DRAFT).
   */
  method Start(db: Database, sid: ShipmentId, now: Time) returns (r: Result<StartReply, ApiError>)
    requires db.Valid()
    modifies db, db.Lookup(sid)`status
    ensures db.Valid() && db.shipments == old(db.shipments)
    ensures sid !in old(db.shipments) ==> r == Failure(NotFound) && unchanged(db)
    ensures sid in old(db.shipments) ==>
      && r == Success(StartReply(old(db.nextPaymentId), SimulatorProvider))
      && db.payments == old(db.payments) + [NewPayment(old(db.nextPaymentId), sid, SimulatorProvider, Pending, now, None)]
      && db.nextPaymentId == old(db.nextPaymentId) + 1
      && db.shipments[sid].status == GuardedStep(old(db.shipments[sid].status), PendingPayment)
    ensures db.labels == old(db.labels) && db.files == old(db.files) && db.events == old(db.events)
  {
    if sid !in db.shipments {
      return Failure(NotFound);
    }
    var shipment := db.shipments[sid];
    var payment := NewPayment(db.nextPaymentId, sid, SimulatorProvider, Pending, now, None);
    db.payments := db.payments + [payment];
    db.nextPaymentId := db.nextPaymentId + 1;
    if CanTransitionTo(shipment.status, PendingPayment) {
      shipment.status := PendingPayment;
    }
    r := Success(StartReply(payment.id, payment.provider));
  }

  /**
   * The payment half of `simulate`: take the shipment's latest payment,
   * creating a PENDING one if it has none, and mark it PAID.
   */
  method PayLatest(db: Database, sid: ShipmentId, now: Time)
    requires db.Valid() && sid in db.shipments
    modifies db`payments, db`nextPaymentId
    ensures db.Valid()
    ensures db.payments == SimulatedPayments(old(db.payments), sid, old(db.nextPaymentId), now)
    ensures db.nextPaymentId == old(db.nextPaymentId) + (|db.payments| - |old(db.payments)|)
  {
    var latest := LastMatch(db.payments, PaymentOf(sid));
    var k: nat;
    if latest.None? {
      var created := NewPayment(db.nextPaymentId, sid, SimulatorProvider, Pending, now, None);
      db.payments := db.payments + [created];
      db.nextPaymentId := db.nextPaymentId + 1;
      k := |db.payments| - 1;
    } else {
      k := latest.value;
    }
    var marked := db.payments[k := MarkedPaid(db.payments[k], now)];
    assert forall i | 0 <= i < |marked| ::
      marked[i].id == db.payments[i].id && marked[i].shipmentId == db.payments[i].shipmentId;
    db.payments := marked;
  }

  /**
   * `simulate`: marks the latest payment PAID (creating one if there is
   * none), applies the guarded PAID write, then runs the label job with
   * format A6 whether or not the status changed.
   */
  method Simulate(db: Database, sid: ShipmentId, now: Time, stamp: string) returns (r: Outcome<ApiError>)
    requires db.Valid()
    modifies db, db.Lookup(sid)`status
    ensures db.Valid() && db.shipments == old(db.shipments)
    ensures sid !in old(db.shipments) ==> r == Fail(Unprocessable) && unchanged(db)
    ensures sid in old(db.shipments) ==>
      && r == Pass
      && db.payments == SimulatedPayments(old(db.payments), sid, old(db.nextPaymentId), now)
      && db.nextPaymentId == old(db.nextPaymentId) + (|db.payments| - |old(db.payments)|)
      && db.shipments[sid].status == PaidThenLabelReady(old(db.shipments[sid].status))
      && db.labels == old(db.labels) + [FetchLabelJob.JobLabel(sid, FetchLabelJob.DefaultFormat, stamp)]
      && db.files == old(db.files)[FetchLabelJob.LabelPath(sid, stamp) := FetchLabelJob.Placeholder]
    ensures db.events == old(db.events)
  {
    if sid !in db.shipments {
      return Fail(Unprocessable);
    }
    var shipment := db.shipments[sid];
    PayLatest(db, sid, now);
    if CanTransitionTo(shipment.status, ShipmentStatus.Paid) {
      shipment.status := ShipmentStatus.Paid;
    }
    var _ := FetchLabelJob.Handle(db, sid, FetchLabelJob.DefaultFormat, stamp);
    r := Pass;
  }
}
