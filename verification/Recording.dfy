/**
 internal/storage/payment_recording.go and payment_ingress.go: a provider-confirmed
 capture that cannot be applied becomes a quarantined attempt or an anomaly.
 */
module Recording {
  import opened Wrappers
  import opened Ledger
  import opened Tables
  import opened Anomalies

  function CaptureEvent(a: Attempt, id: nat, disp: Disposition): Event {
    Event(a.order, Some(id), a.provider, Captured, a.ext, a.amount, a.currency, a.scale, disp, a.at)
  }

  /** The attempt row and its captured event, written together. */
  function InsertCapture(db: DB, a: Attempt, disp: Disposition): DB {
    db.(attempts := db.attempts + [a], events := db.events + [CaptureEvent(a, |db.attempts|, disp)])
  }

  function AttemptOf(id: int, f: Fact, status: AttemptStatus, entitlement: Option<int>, now: int): Attempt {
    Attempt(id, f.provider, f.ext, f.payer, f.amount, f.currency, f.scale, status, entitlement, f.at.GetOr(now))
  }

  predicate ResolvedCaptureBy(db: DB, i: nat, e: nat)
    requires e < |db.events|
  {
    && db.events[e].attempt == Some(i) && db.events[e].kind == Captured
    && db.events[e].disp == EventNeedsReview && EventTarget(e) in db.resolutions
  }

  /** An operator has disposed of this quarantined capture. */
  predicate ResolvedCapture(db: DB, i: nat) {
    exists e: nat | e < |db.events| :: ResolvedCaptureBy(db, i, e)
  }

  /** The redelivered fact agrees with the stored row wherever it says anything. */
  predicate ExactFact(a: Attempt, id: int, f: Fact) {
    && a.order == id && a.amount == f.amount && a.currency == f.currency && a.scale == f.scale
    && (f.payer == 0 || a.payer == f.payer)
    && a.entitlement == f.entitlement
    && (f.at.None? || a.at == f.at.value)
  }

  /** recordUnexpectedPayment with a provider fact (payment_recording.go:449). */
  function RecordCapture(db: DB, id: int, f: Fact, reason: Reason, now: int): (DB, Errs)
    requires db.HasOrder(id)
  {
    match FindAttempt(db.attempts, f.provider, f.ext)
    case Some(i) =>
      var a := db.attempts[i];
      if ExactFact(a, id, f) && a.status == Succeeded then (db, {})
      else if ExactFact(a, id, f) && a.status == Quarantined then
        if ResolvedCapture(db, i) then (db, {}) else (db, {PaymentNeedsReview})
      else
        var (db', errs) := RecordAnomaly(db, AnomalyFromFact(id, f, if a.order != id then IdentityConflict else reason), now);
        (db', {PaymentIdentityConflict} + errs)
    case None =>
      (InsertCapture(db, AttemptOf(id, f, Quarantined, f.entitlement, now), EventNeedsReview).SetPay(id, NeedsReview),
       {PaymentNeedsReview})
  }

  /** The stored capture of this order that an operator has already disposed of. */
  predicate ReplaysResolved(db: DB, id: int, f: Fact) {
    var i := FindAttempt(db.attempts, f.provider, f.ext);
    && f.ext != "" && i.Some?
    && db.attempts[i.value].order == id && db.attempts[i.value].status == Quarantined
    && ResolvedCapture(db, i.value)
  }

  /** RecordUnexpectedPaymentFact (payment_recording.go:38). */
  function RecordUnexpected(db: DB, id: int, f: Fact, reason: Reason, now: int): (DB, Errs) {
    if !db.HasOrder(id) then (db, {NotFound})
    else
      var i := FindAttempt(db.attempts, f.provider, f.ext);
      if ReplaysResolved(db, id, f) then
        if ExactFact(db.attempts[i.value], id, f) then (db, {})
        else
          var (db', errs) := RecordAnomaly(db, AnomalyFromFact(id, f, FactMismatch), now);
          (db', {PaymentIdentityConflict, PaymentReceiptMismatch} + errs)
      else
        var invalid := ValidateFact(db.Ord(id), f);
        if invalid == {} then RecordCapture(db, id, f, reason, now)
        else if i.Some? && db.attempts[i.value].order == id then
          var (db', errs) := RecordAnomaly(db, AnomalyFromFact(id, f, FactMismatch), now);
          (db', invalid + errs)
        else (db, invalid)
  }

  // ----- operator ingress -----

  /** The authoritative row is already in the ledger, payer and time included. */
  predicate IngestReplay(a: Attempt, id: int, f: Fact) {
    && a.order == id && a.payer == f.payer && a.amount == f.amount && a.currency == f.currency
    && a.scale == f.scale && f.at == Some(a.at) && a.status != Observed
  }

  /** The conflict row of an ingested capture (payment_ingress.go:145-156). */
  function IngestAnomaly(id: int, f: Fact): AnomalyFact {
    AnomalyFact(id, Some(f.provider), Captured, f.ext, "", f.payer, f.amount, f.currency, f.scale,
                false, NoPayload, OperatorIngestConflict, f.at)
  }

  /** IngestProviderCapture (payment_ingress.go:118), without its audit row. */
  function IngestCapture(db: DB, id: int, f: Fact, now: int): (DB, Errs) {
    if !db.HasOrder(id) then (db, {NotFound})
    else if f.payer <= 0 || f.payer != db.Ord(id).user || f.at.None? then (db, {PaymentReceiptMismatch})
    else if ValidateFact(db.Ord(id), f) != {} then (db, ValidateFact(db.Ord(id), f))
    else match FindAttempt(db.attempts, f.provider, f.ext)
      case Some(i) =>
        if IngestReplay(db.attempts[i], id, f) then (db, {})
        else
          var (db', errs) := RecordAnomaly(db, IngestAnomaly(id, f), now);
          (db', {PaymentIdentityConflict} + if PaymentNeedsReview in errs then {} else errs)
      case None => RecordCapture(db, id, f, OtherReason("operator_ingested_provider_capture"), now)
  }

  datatype IngressOutcome = IngressReplay | IngressQuarantine | IngressApply

  /** PreviewProviderCaptureIngress (payment_ingress.go:17): None is an error. */
  function PreviewCapture(db: DB, id: int, f: Fact): Option<IngressOutcome> {
    if !db.HasOrder(id) then None
    else if f.payer <= 0 || f.payer != db.Ord(id).user || f.at.None? then None
    else if ValidateFact(db.Ord(id), f) != {} then None
    else match FindAttempt(db.attempts, f.provider, f.ext)
      case None => Some(IngressQuarantine)
      case Some(i) => if IngestReplay(db.attempts[i], id, f) then Some(IngressReplay) else Some(IngressQuarantine)
  }
}
