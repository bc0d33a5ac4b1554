/**
 internal/storage/payment_ingress.go: an operator's preview against what the store then
 does with the same provider fact.
 */
module Ingress {
  import opened Wrappers
  import opened Ledger
  import opened Tables
  import opened Anomalies
  import opened Recording
  import opened Refunds

  /** PreviewProviderRefundIngress (payment_ingress.go:51): None is an error. */
  function PreviewRefund(db: DB, f: RefundFact): Option<IngressOutcome> {
    var p := f.name.Normalized();
    if f.amount <= 0 || f.ext == "" || f.parent == "" || p.None? || f.scale < 0 || f.scale > 9
       || f.currency == OtherCurrency("") || f.payer <= 0 || f.at.None? || (p == Some(Stars) && f.ext != f.parent) then None
    else if !db.HasOrder(f.order) || db.Ord(f.order).user != f.payer then None
    else match FindAttempt(db.attempts, p.value, f.parent)
      case None => Some(IngressQuarantine)
      case Some(i) =>
        var a := db.attempts[i];
        if a.status == Observed || a.order != f.order || a.payer != f.payer || a.currency != f.currency || a.scale != f.scale then
          Some(IngressQuarantine)
        else match FindRefund(db.refunds, p.value, f.ext)
          case Some(k) =>
            var r := db.refunds[k];
            if r.order == f.order && r.parent == f.parent && r.payer == f.payer && r.amount == f.amount
               && r.currency == f.currency && r.scale == f.scale && f.at == Some(r.at)
            then Some(IngressReplay) else Some(IngressQuarantine)
          case None =>
            if RefundedOf(db.refunds, a) + f.amount > a.amount then Some(IngressQuarantine) else Some(IngressApply)
  }

  /** A new row of an unknown capture, quarantined, and its order in review. */
  predicate Quarantines(db: DB, db': DB, id: int, f: Fact, now: int) {
    && FindAttempt(db.attempts, f.provider, f.ext).None?
    && db'.attempts == db.attempts + [AttemptOf(id, f, Quarantined, f.entitlement, now)]
    && db'.HasOrder(id) && db'.Ord(id).pay == NeedsReview && db'.anomalies == db.anomalies
  }

  /** A known capture is left as it is, and the fact is in the inbox. */
  predicate Disputes(db: DB, db': DB, id: int, f: Fact) {
    && FindAttempt(db.attempts, f.provider, f.ext).Some? && db'.attempts == db.attempts
    && FindAnomaly(db'.anomalies, IngestAnomaly(id, f)).Some?
  }

  /** A capture preview is exact: an error or a replay writes nothing, and an announced
      quarantine is a quarantined capture or, for a known capture, a row of the inbox
      unless the inbox refuses it. */
  lemma CapturePreviewIsExact(db: DB, id: int, f: Fact, now: int)
    ensures var (db', errs) := IngestCapture(db, id, f, now);
      && (PreviewCapture(db, id, f) == Some(IngressReplay) <==> errs == {})
      && (PreviewCapture(db, id, f) != Some(IngressQuarantine) ==> db' == db)
      && (PreviewCapture(db, id, f) == Some(IngressQuarantine) ==>
            if FindAttempt(db.attempts, f.provider, f.ext).None? then Quarantines(db, db', id, f, now) && errs == {PaymentNeedsReview}
            else if Acceptable(IngestAnomaly(id, f)) then Disputes(db, db', id, f) && errs == {PaymentIdentityConflict}
            else db' == db && errs == {PaymentIdentityConflict, PaymentReceiptMismatch})
  {
    if Acceptable(IngestAnomaly(id, f)) {
      AnomalyIsKept(db, IngestAnomaly(id, f), now);
    }
  }

  /** Ingested captures buy nothing: no goods, no promo use, no access, no order progress. */
  lemma IngestedCaptureBuysNothing(db: DB, id: int, f: Fact, now: int)
    ensures BuysNothing(db, IngestCapture(db, id, f, now).0)
  {
    AnomalyBuysNothing(db, IngestAnomaly(id, f), now);
    if FindAttempt(db.attempts, f.provider, f.ext).None? && db.HasOrder(id) {
      QuarantineBuysNothing(db, id, f, now);
    }
  }

  ghost predicate BuysNothing(db: DB, db': DB) {
    && db'.stock == db.stock && db'.promos == db.promos && db'.usages == db.usages && db'.subs == db.subs
    && |db'.orders| == |db.orders|
    && (forall k :: 0 <= k < |db.orders| ==> db'.orders[k] == db.orders[k] || db'.orders[k] == db.orders[k].(pay := NeedsReview))
    && (forall i :: |db.attempts| <= i < |db'.attempts| ==> db'.attempts[i].status == Quarantined)
    && db.attempts <= db'.attempts
  }

  lemma AnomalyBuysNothing(db: DB, f: AnomalyFact, now: int)
    ensures BuysNothing(db, RecordAnomaly(db, f, now).0)
  {
    FlagBuysNothing(db, db, f.order);
    if f.provider.Some? { FlagBuysNothing(db, db.(anomalies := db.anomalies + [AnomalyRow(db, f, now)]), f.order); }
  }

  lemma FlagBuysNothing(db: DB, db1: DB, id: int)
    requires db1 == db.(anomalies := db1.anomalies)
    ensures BuysNothing(db, db1) && BuysNothing(db, Flag(db1, id))
  {
  }

  lemma QuarantineBuysNothing(db: DB, id: int, f: Fact, now: int)
    requires db.HasOrder(id) && FindAttempt(db.attempts, f.provider, f.ext).None?
    ensures BuysNothing(db, RecordCapture(db, id, f, OtherReason("operator_ingested_provider_capture"), now).0)
  {
  }

  /** The recorded capture a refund names does not say who paid. */
  predicate UnknownPayer(db: DB, f: RefundFact) {
    f.name.Normalized().Some?
    && var i := FindAttempt(db.attempts, f.name.Normalized().value, f.parent);
       i.Some? && db.attempts[i.value].payer <= 0
  }

  lemma ReplayPreview(db: DB, f: RefundFact, now: int)
    requires !f.currency.IsBlank() && PreviewRefund(db, f) == Some(IngressReplay)
    ensures IngestRefund(db, f, now) == (db, {})
  {
  }

  lemma ApplyPreview(db: DB, f: RefundFact, now: int)
    requires !f.currency.IsBlank() && PreviewRefund(db, f) == Some(IngressApply)
    ensures RefundOnce(db, f, now).0.refunds == db.refunds + [RefundRow(f, f.name.Normalized().value, now)]
    ensures RefundOnce(db, f, now).1 <= {PaymentNeedsReview} && IngestRefund(db, f, now) == RefundOnce(db, f, now)
  {
  }

  /** A refund preview is exact as to what it announces will happen. */
  lemma RefundPreviewKeepsItsWord(db: DB, f: RefundFact, now: int)
    requires !f.currency.IsBlank()
    ensures PreviewRefund(db, f) == Some(IngressReplay) ==> IngestRefund(db, f, now) == (db, {})
    ensures PreviewRefund(db, f) == Some(IngressApply) ==>
      var (db', errs) := IngestRefund(db, f, now);
      db'.refunds == db.refunds + [RefundRow(f, f.name.Normalized().value, now)] && errs <= {PaymentNeedsReview}
    ensures PreviewRefund(db, f).None? && f.amount > 0 && f.ext != "" && f.parent != "" && f.name != Unsupported && 0 <= f.scale <= 9 ==>
      IngestRefund(db, f, now).0 == db
  {
    if PreviewRefund(db, f) == Some(IngressReplay) { ReplayPreview(db, f, now); }
    if PreviewRefund(db, f) == Some(IngressApply) { ApplyPreview(db, f, now); }
  }

  /** Where it announces a quarantine the store still applies the refund exactly when the
      capture's payer is unknown and everything else fits: the preview insists on the payer,
      the refund transaction only compares payers it knows. */
  lemma QuarantinePreviewIsExact(db: DB, f: RefundFact, now: int)
    requires PreviewRefund(db, f) == Some(IngressQuarantine)
    ensures IngestRefund(db, f, now).0.refunds != db.refunds <==> UnknownPayer(db, f) && Fits(db, f)
  {
    EnteredWhenFits(db, f, now);
    IngestIsRecord(db, f, now);
  }

  lemma IngestIsRecord(db: DB, f: RefundFact, now: int)
    requires PreviewRefund(db, f).Some?
    ensures IngestRefund(db, f, now) == RecordRefund(db, f, now)
    ensures RecordRefund(db, f, now).0.refunds == RefundOnce(db, f, now).0.refunds
  {
    var (once, errs) := RefundOnce(db, f, now);
    if RefusalReason(errs).Some? { AnomalyKeepsRefunds(once, RefundAnomaly(once, f, RefusalReason(errs).value), now); }
  }

  lemma AnomalyKeepsRefunds(db: DB, f: AnomalyFact, now: int)
    ensures RecordAnomaly(db, f, now).0.refunds == db.refunds
  {
  }

  /** A refund on a supported rail is entered exactly when it fits and names no other payer. */
  lemma EnteredWhenFits(db: DB, f: RefundFact, now: int)
    requires PreviewRefund(db, f) == Some(IngressQuarantine)
    ensures RefundOnce(db, f, now).0.refunds != db.refunds <==> UnknownPayer(db, f) && Fits(db, f)
  {
  }

  /** A new refund within what is left of a capture of the same order and currency. */
  predicate Fits(db: DB, f: RefundFact) {
    f.name.Normalized().Some? && !f.currency.IsBlank()
    && var p := f.name.Normalized().value;
       var i := FindAttempt(db.attempts, p, f.parent);
       && i.Some? && FindRefund(db.refunds, p, f.ext).None?
       && var a := db.attempts[i.value];
          && a.status != Observed && a.order == f.order && a.currency == f.currency && a.scale == f.scale
          && RefundedOf(db.refunds, a) + f.amount <= a.amount
  }
}
