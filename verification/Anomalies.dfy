/** internal/storage/payment_anomalies.go: the idempotent quarantine inbox. */
module Anomalies {
  import opened Wrappers
  import opened Ledger

  /** A signed provider fact on its way into the inbox. */
  datatype AnomalyFact = AnomalyFact(
    order: int,
    provider: Option<Provider>,
    kind: EventKind,
    ext: string,
    related: string,
    payer: int,
    amount: int,
    currency: Currency,
    scale: int,
    hasRawAmount: bool,
    payload: Payload,
    reason: Reason,
    at: Option<int>)

  predicate Acceptable(f: AnomalyFact) {
    && f.provider.Some?
    && f.amount >= 0
    && 0 <= f.scale <= 9
    && (f.amount == 0 ==> f.hasRawAmount || !f.payload.IsEmpty())
    && (Blank(f.ext) ==> !f.payload.IsEmpty())
    && !f.reason.IsBlank()
  }

  /** Agreement on every provider field of the fingerprint except the time. The proposed
      order and the reason are not part of it. */
  predicate SameFact(a: Anomaly, f: AnomalyFact) {
    && f.provider == Some(a.provider) && a.kind == f.kind && a.ext == f.ext
    && a.related == f.related && a.payer == f.payer && a.amount == f.amount
    && a.currency == f.currency && a.scale == f.scale && a.payload == f.payload
  }

  /** A retry meets the row with its own fingerprint; without a time it meets the
      oldest row that agrees on everything else. */
  predicate RetryOf(a: Anomaly, f: AnomalyFact) {
    SameFact(a, f) && (f.at.None? || a.stamp == f.at)
  }

  function FindAnomaly(rows: seq<Anomaly>, f: AnomalyFact): (r: Option<nat>)
    ensures r.Some? ==> r.value < |rows| && RetryOf(rows[r.value], f)
    ensures r.None? ==> forall i :: 0 <= i < |rows| ==> !RetryOf(rows[i], f)
  {
    if |rows| == 0 then None
    else
      var older := FindAnomaly(rows[..|rows| - 1], f);
      if older.Some? then older
      else if RetryOf(rows[|rows| - 1], f) then Some(|rows| - 1)
      else None
  }

  function AnomalyRow(db: DB, f: AnomalyFact, now: int): Anomaly
    requires f.provider.Some?
  {
    Anomaly(f.order, f.provider.value, f.kind, f.ext, f.related, f.payer, f.amount, f.currency, f.scale,
            f.payload, f.reason, f.at, f.at.GetOr(now), db.HasOrder(f.order))
  }

  /** Puts a known order into needs_review. */
  function Flag(db: DB, id: int): DB {
    if db.HasOrder(id) then db.SetPay(id, NeedsReview) else db
  }

  function RecordAnomaly(db: DB, f: AnomalyFact, now: int): (DB, Errs) {
    if !Acceptable(f) then (db, {PaymentReceiptMismatch})
    else match FindAnomaly(db.anomalies, f)
      case Some(i) =>
        if f.at.Some? && db.anomalies[i].at != f.at.value then (db, {PaymentIdentityConflict})
        else if AnomalyTarget(i) in db.resolutions then (db, {})
        else (Flag(db, f.order), {PaymentNeedsReview})
      case None =>
        (Flag(db.(anomalies := db.anomalies + [AnomalyRow(db, f, now)]), f.order), {PaymentNeedsReview})
  }

  /** A recorded anomaly is found again, and recording it touches no capture or refund. */
  lemma AnomalyIsKept(db: DB, f: AnomalyFact, now: int)
    requires Acceptable(f)
    ensures var db' := RecordAnomaly(db, f, now).0;
      && FindAnomaly(db'.anomalies, f).Some?
      && db'.attempts == db.attempts && db'.events == db.events && db'.refunds == db.refunds
  {
    if FindAnomaly(db.anomalies, f).None? {
      var rows := db.anomalies + [AnomalyRow(db, f, now)];
      assert RecordAnomaly(db, f, now).0.anomalies == rows;
      assert RetryOf(rows[|db.anomalies|], f);
    }
  }

  /** anomalyFromPaymentFact (payment_recording.go:430). */
  function AnomalyFromFact(order: int, f: Fact, reason: Reason): AnomalyFact {
    AnomalyFact(order, Some(f.provider), Captured, f.ext, "", f.payer, f.amount, f.currency, f.scale, false,
                if f.entitlement.Some? then EntitlementAt(f.entitlement.value) else NoPayload, reason, f.at)
  }
}
