/**
 * The label job (app/Jobs/FetchLabelJob.php): it stores a placeholder PDF,
 * records a label row for it, and moves a PAID shipment to LABEL_READY.
 * It consults no carrier and needs no carrier identifier.
 */
module FetchLabelJob {
  import opened Wrappers
  import opened StatusMachine
  import opened Models

  /** The job's format when none is given. */
  const DefaultFormat: string := "A6"

  const PdfMime: string := "application/pdf"

  /** The fixed placeholder document the job stores, whatever the format. */
  const Placeholder: string :=
    "%PDF-1.4\n% SkyBroker Placeholder Label\n1 0 obj <<>> endobj\ntrailer<<>>\n%%EOF\n"

  /**
   * The storage key `labels/<id>-<timestamp>.pdf`; `stamp` is the decimal
   * rendering of the current Unix timestamp.
   */
  function LabelPath(sid: ShipmentId, stamp: string): (path: string)
    ensures |path| >= 12 + |sid| && path[..7] == "labels/" && path[|path| - 4..] == ".pdf"
    ensures path[7..7 + |sid|] == sid && path[7 + |sid|] == '-'
    ensures |path| == 12 + |sid| + |stamp| && path[8 + |sid|..|path| - 4] == stamp
  {
    "labels/" + sid + "-" + stamp + ".pdf"
  }

  /** The label row one run of the job creates. */
  function JobLabel(sid: ShipmentId, format: string, stamp: string): (l: Label)
    ensures l.shipmentId == sid && l.format == format
    ensures l.mimeType == Some(PdfMime) && l.sizeBytes == 77
    ensures |l.storagePath| >= 4 && l.storagePath[|l.storagePath| - 4..] == ".pdf"
  {
    Label(sid, format, LabelPath(sid, stamp), Some(PdfMime), |Placeholder|)
  }

  datatype JobError = ShipmentNotFound

  /** `handle`: `findOrFail`, store the file, append the row, guarded LABEL_READY. */
  method Handle(db: Database, sid: ShipmentId, format: string, stamp: string) returns (r: Outcome<JobError>)
    requires db.Valid()
    modifies db, db.Lookup(sid)`status
    ensures db.Valid() && db.shipments == old(db.shipments)
    ensures sid !in old(db.shipments) ==> r == Fail(ShipmentNotFound) && unchanged(db)
    ensures sid in old(db.shipments) ==>
      && r == Pass
      && db.labels == old(db.labels) + [JobLabel(sid, format, stamp)]
      && db.files == old(db.files)[LabelPath(sid, stamp) := Placeholder]
      && db.shipments[sid].status == GuardedStep(old(db.shipments[sid].status), LabelReady)
    ensures db.events == old(db.events)
    ensures db.payments == old(db.payments) && db.nextPaymentId == old(db.nextPaymentId)
  {
    if sid !in db.shipments {
      return Fail(ShipmentNotFound);
    }
    var shipment := db.shipments[sid];
    var path := LabelPath(sid, stamp);
    db.files := db.files[path := Placeholder];
    db.labels := db.labels + [Label(sid, format, path, Some(PdfMime), |Placeholder|)];
    if CanTransitionTo(shipment.status, LabelReady) {
      shipment.status := LabelReady;
    }
    r := Pass;
  }

  /**
   * At-least-once delivery: two runs leave two label rows and the status one
   * run leaves.
   */
  method HandleTwice(db: Database, sid: ShipmentId, format: string, stamp1: string, stamp2: string)
    requires db.Valid() && sid in db.shipments
    modifies db, db.Lookup(sid)`status
    ensures db.Valid() && db.shipments == old(db.shipments)
    ensures db.labels == old(db.labels) + [JobLabel(sid, format, stamp1), JobLabel(sid, format, stamp2)]
    ensures db.shipments[sid].status == GuardedStep(old(db.shipments[sid].status), LabelReady)
  {
    var _ := Handle(db, sid, format, stamp1);
    var _ := Handle(db, sid, format, stamp2);
    GuardedStepIdempotent(old(db.shipments[sid].status), LabelReady);
  }
}
