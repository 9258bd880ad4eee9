/**
 * The persisted entities the core reads and writes: shipments, payments,
 * labels, tracking events, and the label files on the local disk.
 * Decimal columns (weights, amounts, prices) are carried as opaque values.
 */
module Models {
  import opened Wrappers
  import opened StatusMachine

  type ShipmentId = string
  /** Payment keys: unique and increasing in creation order, as time-sortable ULIDs are. */
  type PaymentId = nat
  /** A point in time, as returned by `now()`. */
  type Time = int

  /** A decimal column's value, never computed with. */
  datatype Decimal = Decimal(text: string)

  /** One of the two address blocks of a shipment (receiver_* or sender_* columns). */
  datatype Party = Party(
    name: string,
    phone: string,
    email: Option<string>,
    street: string,
    buildingNumber: Option<string>,
    apartmentNumber: Option<string>,
    city: string,
    postalCode: string,
    countryCode: string)

  datatype Parcel = Parcel(
    lengthCm: Option<Decimal>,
    widthCm: Option<Decimal>,
    heightCm: Option<Decimal>,
    weightKg: Decimal)

  /** The `metadata` JSON column as intake writes it. */
  datatype Metadata = Metadata(codAmountPln: Option<Decimal>, insuranceAmountPln: Option<Decimal>)

  /** app/Enums/PaymentStatus.php */
  datatype PaymentStatus = Pending | Paid | Failed

  datatype Payment = Payment(
    id: PaymentId,
    shipmentId: ShipmentId,
    provider: string,
    status: PaymentStatus,
    amountPln: int,
    currency: string,
    initiatedAt: Time,
    paidAt: Option<Time>)

  /** A payment row as the core creates it: amount 0 PLN, initiated now. */
  function NewPayment(id: PaymentId, sid: ShipmentId, provider: string, status: PaymentStatus,
                      now: Time, paidAt: Option<Time>): Payment
  {
    Payment(id, sid, provider, status, 0, "PLN", now, paidAt)
  }

  /** The in-place update `status = PAID; paid_at = now` of one payment row. */
  function MarkedPaid(p: Payment, now: Time): Payment
  {
    p.(status := PaymentStatus.Paid, paidAt := Some(now))
  }

  /** The label formats the carrier and the label endpoint accept. */
  const LabelFormats: set<string> := {"A6", "A4", "ZPL"}

  /** A `shipment_labels` row. */
  datatype Label = Label(
    shipmentId: ShipmentId,
    format: string,
    storagePath: string,
    mimeType: Option<string>,
    sizeBytes: nat)

  /** A `tracking_events` row; `raw` is the carrier payload, kept as text. */
  datatype TrackingEvent = TrackingEvent(
    shipmentId: ShipmentId,
    trackingNumber: string,
    code: string,
    description: Option<string>,
    occurredAt: Option<Time>,
    location: Option<string>,
    raw: Option<string>)

  /**
   * A shipment. The fields the core changes after intake are mutable; the
   * ones only intake writes are constants.
   */
  class Shipment {
    const id: ShipmentId
    const reference: Option<string>
    const serviceCode: string
    const receiver: Party
    const sender: Party
    const parcel: Parcel
    const pickupPointId: Option<string>
    const metadata: Metadata
    const pricePln: Option<Decimal>
    var status: ShipmentStatus
    var carrier: Option<string>
    var carrierShipmentId: Option<string>
    var trackingNumber: Option<string>

    constructor (id: ShipmentId, reference: Option<string>, serviceCode: string,
                 receiver: Party, sender: Party, parcel: Parcel,
                 pickupPointId: Option<string>, metadata: Metadata, status: ShipmentStatus)
      ensures this.id == id && this.reference == reference && this.serviceCode == serviceCode
      ensures this.receiver == receiver && this.sender == sender && this.parcel == parcel
      ensures this.pickupPointId == pickupPointId && this.metadata == metadata
      ensures this.status == status
      ensures pricePln == None && carrier == None && carrierShipmentId == None && trackingNumber == None
    {
      this.id := id;
      this.reference := reference;
      this.serviceCode := serviceCode;
      this.receiver := receiver;
      this.sender := sender;
      this.parcel := parcel;
      this.pickupPointId := pickupPointId;
      this.metadata := metadata;
      this.pricePln := None;
      this.status := status;
      this.carrier := None;
      this.carrierShipmentId := None;
      this.trackingNumber := None;
    }
  }

  /**
   * The database tables and the local label disk. Payment and label rows
   * are kept in creation order.
   */
  class Database {
    var shipments: map<ShipmentId, Shipment>
    var payments: seq<Payment>
    var nextPaymentId: PaymentId
    var labels: seq<Label>
    var events: seq<TrackingEvent>
    var files: map<string, string>

    /** Keys match ids, payment ids are unique and increasing, and foreign keys hold. */
    ghost predicate Valid()
      reads this
    {
      && (forall k | k in shipments :: shipments[k].id == k)
      && (forall i | 0 <= i < |payments| ::
            payments[i].id < nextPaymentId && payments[i].shipmentId in shipments)
      && (forall i, j | 0 <= i < j < |payments| :: payments[i].id < payments[j].id)
      && (forall i | 0 <= i < |labels| :: labels[i].shipmentId in shipments)
    }

    constructor ()
      ensures Valid()
      ensures shipments == map[] && payments == [] && labels == [] && events == [] && files == map[]
    {
      shipments := map[];
      payments := [];
      nextPaymentId := 0;
      labels := [];
      events := [];
      files := map[];
    }

    /** The shipment object with key `sid`, as a frame: empty when there is none. */
    function Lookup(sid: ShipmentId): set<Shipment>
      reads this
    {
      if sid in shipments then {shipments[sid]} else {}
    }
  }

  /** Rows of the payments table that belong to shipment `sid`. */
  function PaymentOf(sid: ShipmentId): Payment -> bool
  {
    (p: Payment) => p.shipmentId == sid
  }

  /** Rows of the labels table that belong to shipment `sid`. */
  function LabelOf(sid: ShipmentId): Label -> bool
  {
    (l: Label) => l.shipmentId == sid
  }
}
