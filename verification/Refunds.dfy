/** internal/storage/ledger.go: provider-confirmed refunds. */
module Refunds {
  import opened Wrappers
  import opened Ledger
  import opened Tables
  import opened Anomalies

  datatype RefundFact = RefundFact(
    order: int,
    name: ProviderName,
    ext: string,
    parent: string,
    payer: int,
    amount: int,
    currency: Currency,
    scale: int,
    at: Option<int>)

  // ----- entitlement rollback -----

  /** A paid period the order still holds: recorded, settled and not refunded in full. */
  predicate OpenPeriod(a: Attempt, refunds: seq<Refund>, order: int, p: Provider) {
    a.order == order && a.provider == p && a.status == Succeeded && a.entitlement.Some? && RefundedOf(refunds, a) < a.amount
  }

  /** ORDER BY entitlement_expires_at DESC LIMIT 1. */
  function LatestOpenPeriod(rows: seq<Attempt>, refunds: seq<Refund>, order: int, p: Provider): (r: Option<int>)
    ensures r.None? ==> forall i :: 0 <= i < |rows| ==> !OpenPeriod(rows[i], refunds, order, p)
    ensures r.Some? ==> exists i :: 0 <= i < |rows| && OpenPeriod(rows[i], refunds, order, p) && rows[i].entitlement == r
    ensures r.Some? ==> forall i :: 0 <= i < |rows| && OpenPeriod(rows[i], refunds, order, p) ==> rows[i].entitlement.value <= r.value
  {
    if |rows| == 0 then None
    else
      var rest := LatestOpenPeriod(rows[..|rows| - 1], refunds, order, p);
      var last := rows[|rows| - 1];
      if !OpenPeriod(last, refunds, order, p) then rest
      else if rest.None? || rest.value < last.entitlement.value then last.entitlement
      else rest
  }

  /** The subscriptions table after a rollback, and whether the order needs review. */
  datatype Rollback = Rollback(subs: map<(int, int), Subscription>, suspicious: bool)

  /** reconcileRefundedSubscriptionEntitlement, run after the refund row is in. */
  function RollBack(db: DB, order: int, p: Provider, entitlement: Option<int>, full: bool, now: int): Rollback
    requires db.HasOrder(order)
  {
    var o := db.Ord(order);
    var key := (o.user, o.subProduct);
    if !full || o.subProduct <= 0 then Rollback(db.subs, false)
    else if key !in db.subs then Rollback(db.subs, true)
    else
      var s := db.subs[key];
      match LatestOpenPeriod(db.attempts, db.refunds, order, p)
      case Some(t) =>
        Rollback(db.subs[key := s.(expires := t,
                                   status := if s.status == Canceled then Canceled else if t > now then Active else Expired)],
                 false)
      case None =>
        Rollback(db.subs[key := s.(expires := if s.expires < now then s.expires else now,
                                   status := if s.status == Canceled then Canceled else Expired)],
                 entitlement.None?)
  }

  // ----- the refund transaction -----

  predicate SameRefund(r: Refund, f: RefundFact) {
    && r.order == f.order && r.parent == f.parent && r.amount == f.amount
    && r.currency == f.currency && r.scale == f.scale
    && !(f.payer > 0 && r.payer > 0 && f.payer != r.payer)
    && (f.at.None? || r.at == f.at.value)
  }

  function RefundEvent(r: Refund, disp: Disposition): Event {
    Event(r.order, None, r.provider, RefundedKind, r.ext, r.amount, r.currency, r.scale, disp, r.at)
  }

  /** The refund row of a fact on a supported rail. */
  function RefundRow(f: RefundFact, p: Provider, now: int): Refund {
    Refund(f.order, p, f.ext, f.parent, f.payer, f.amount, f.currency, f.scale, f.at.GetOr(now))
  }

  function RefundedState(db: DB, order: int, p: Provider): PayState {
    if OrderRefunded(db.refunds, order, p) == OrderCaptured(db.attempts, order, p) then Refunded else PartiallyRefunded
  }

  /** What the refund transaction does to the subscription. */
  function RefundRollback(db: DB, i: nat, r: Refund, now: int): Rollback
    requires i < |db.attempts| && db.HasOrder(r.order)
  {
    var a := db.attempts[i];
    RollBack(db.(refunds := db.refunds + [r]), r.order, r.provider, a.entitlement,
             RefundedOf(db.refunds, a) + r.amount == a.amount, now)
  }

  /** The rows of the refund transaction, given what it did to the subscription. */
  function EnterRefund(db: DB, i: nat, r: Refund, rolled: Rollback): DB
    requires i < |db.attempts| && db.HasOrder(r.order)
  {
    var disp := if db.attempts[i].status == Quarantined || rolled.suspicious then EventNeedsReview else EventSettled;
    var db' := db.(refunds := db.refunds + [r], events := db.events + [RefundEvent(r, disp)], subs := rolled.subs);
    db'.SetPay(r.order, if db.Ord(r.order).pay == NeedsReview || rolled.suspicious then NeedsReview
                        else RefundedState(db', r.order, r.provider))
  }

  /** The committing tail of recordRefundOnce (ledger.go:300-383). */
  function ApplyRefund(db: DB, i: nat, r: Refund, now: int): (DB, Errs)
    requires i < |db.attempts| && db.HasOrder(r.order)
  {
    var rolled := RefundRollback(db, i, r, now);
    (EnterRefund(db, i, r, rolled), if rolled.suspicious then {PaymentNeedsReview} else {})
  }

  function RefundOnce(db: DB, f: RefundFact, now: int): (DB, Errs) {
    var p := f.name.Normalized();
    if f.amount <= 0 || f.ext == "" || f.parent == "" then (db, {InvalidMoney})
    else if p.None? || f.scale < 0 || f.scale > 9 || f.currency.IsBlank() then (db, {PaymentReceiptMismatch})
    else match FindAttempt(db.attempts, p.value, f.parent)
      case None => (db, {NotFound})
      case Some(i) =>
        var a := db.attempts[i];
        if a.status == Observed then (db, {NotFound})
        else if a.order != f.order || a.currency != f.currency || a.scale != f.scale
                || (f.payer > 0 && a.payer > 0 && f.payer != a.payer) then (db, {PaymentIdentityConflict})
        else match FindRefund(db.refunds, p.value, f.ext)
          case Some(k) => (db, if SameRefund(db.refunds[k], f) then {} else {PaymentIdentityConflict})
          case None =>
            if RefundedOf(db.refunds, a) + f.amount > a.amount then (db, {RefundExceedsPayment})
            else if !db.HasOrder(f.order) then (db, {OtherError})
            else ApplyRefund(db, i, RefundRow(f, p.value, now), now)
  }

  /** recordRefundAnomaly (ledger.go:187). */
  function RefundAnomaly(db: DB, f: RefundFact, reason: Reason): AnomalyFact {
    var known := f.name.Normalized();
    var borrowed := known.None? && db.HasOrder(f.order);
    var badNumbers := f.amount <= 0 || f.scale < 0 || f.scale > 9;
    AnomalyFact(f.order, if borrowed then db.Ord(f.order).rail else known, RefundedKind,
                if Blank(f.ext) then "" else f.ext, f.parent, f.payer,
                if f.amount < 0 then 0 else f.amount, f.currency, if f.scale < 0 || f.scale > 9 then 0 else f.scale,
                badNumbers, RefundNote(borrowed, Blank(f.ext), Blank(f.parent)), reason, f.at)
  }

  /** The reason a refused refund is quarantined under, if it is. */
  function RefusalReason(errs: Errs): Option<Reason> {
    if PaymentIdentityConflict in errs then Some(RefundIdentityConflict)
    else if RefundExceedsPayment in errs then Some(RefundExceeds)
    else if InvalidMoney in errs || PaymentReceiptMismatch in errs then Some(RefundInvalidFact)
    else if NotFound in errs then Some(RefundParentNotFound)
    else None
  }

  /** recordRefund (ledger.go:148). */
  function RecordRefund(db: DB, f: RefundFact, now: int): (DB, Errs) {
    var (once, errs) := RefundOnce(db, f, now);
    match RefusalReason(errs)
    case None => (once, errs)
    case Some(reason) =>
      var (db', recordErrs) := RecordAnomaly(once, RefundAnomaly(once, f, reason), now);
      (db', errs + if PaymentNeedsReview in recordErrs then {} else recordErrs)
  }

  /** IngestProviderRefund (ledger.go:127), without its audit row. */
  function IngestRefund(db: DB, f: RefundFact, now: int): (DB, Errs) {
    if f.payer <= 0 || f.at.None? || (f.name.Normalized() == Some(Stars) && f.ext != f.parent) then
      (db, {PaymentReceiptMismatch})
    else if !db.HasOrder(f.order) then (db, {NotFound})
    else if db.Ord(f.order).user != f.payer then (db, {PaymentReceiptMismatch})
    else RecordRefund(db, f, now)
  }
}
