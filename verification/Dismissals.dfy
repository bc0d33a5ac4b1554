/**
 A cancelled order that was paid is not beyond reach: a refund of one of its captures
 moves its payment state, and nothing else but a review does.
 */
module Dismissals {
  import opened Wrappers
  import opened Ledger
  import opened Tables
  import opened Anomalies
  import opened Recording
  import opened Refunds
  import opened Reviews
  import opened Subscriptions
  import opened Orders
  import opened Shop
  import opened Invariant
  import opened OrderEffects
  import opened History
  import opened Runs
  import opened AccessBound

  /** Cancelled, with its money written off. */
  predicate WrittenOff(db: DB, id: int) {
    db.HasOrder(id) && db.Ord(id).status == Cancelled && db.Ord(id).pay == PayCancelled
  }

  /** Still written off, or waiting for an operator. */
  predicate StaysOff(db: DB, id: int) {
    db.HasOrder(id) && db.Ord(id).status == Cancelled && (db.Ord(id).pay == PayCancelled || db.Ord(id).pay == NeedsReview)
  }

  /** Neither written off nor waiting. */
  predicate Moved(db: DB, id: int) {
    db.HasOrder(id) && db.Ord(id).pay != PayCancelled && db.Ord(id).pay != NeedsReview
  }

  /** Some capture of the order is not refunded to its amount. */
  ghost predicate HoldsMoney(db: DB, id: int) {
    exists i :: 0 <= i < |db.attempts| && db.attempts[i].order == id && !Closed(db.refunds, db.attempts[i])
  }

  // ----- what leaves the order alone -----

  lemma RecordAnomalyStaysOff(db: DB, f: AnomalyFact, now: int, id: int)
    requires StaysOff(db, id)
    ensures StaysOff(RecordAnomaly(db, f, now).0, id)
  {
  }

  lemma RecordCaptureStaysOff(db: DB, order: int, f: Fact, reason: Reason, now: int, id: int)
    requires StaysOff(db, id) && db.HasOrder(order)
    ensures StaysOff(RecordCapture(db, order, f, reason, now).0, id)
  {
    var i := FindAttempt(db.attempts, f.provider, f.ext);
    if i.Some? { RecordAnomalyStaysOff(db, KnownCaptureAnomaly(db, order, i.value, f, reason), now, id); }
  }

  lemma RecordUnexpectedStaysOff(db: DB, order: int, f: Fact, reason: Reason, now: int, id: int)
    requires StaysOff(db, id)
    ensures StaysOff(RecordUnexpected(db, order, f, reason, now).0, id)
  {
    RecordUnexpectedEnds(db, order, f, reason, now);
    RecordAnomalyStaysOff(db, AnomalyFromFact(order, f, FactMismatch), now, id);
    if db.HasOrder(order) { RecordCaptureStaysOff(db, order, f, reason, now, id); }
  }

  lemma IngestCaptureStaysOff(db: DB, order: int, f: Fact, now: int, id: int)
    requires StaysOff(db, id)
    ensures StaysOff(IngestCapture(db, order, f, now).0, id)
  {
    if db.HasOrder(order) {
      RecordCaptureStaysOff(db, order, f, OtherReason("operator_ingested_provider_capture"), now, id);
      RecordAnomalyStaysOff(db, IngestAnomaly(order, f), now, id);
    }
  }

  lemma SettleReplayStaysOff(db: DB, order: int, f: Fact, c: Option<Contract>, now: int, id: int)
    requires Inv(db) && WrittenOff(db, id) && db.HasOrder(order) && f.ext != ""
    ensures StaysOff(SettleReplay(db, order, f, c, now).db, id)
  {
    SettlementFacts(db, order, f);
    SettleReplayRepairs(db, order, f, c, now);
  }

  lemma SettleFreshStaysOff(db: DB, order: int, f: Fact, c: Option<Contract>, now: int, id: int)
    requires WrittenOff(db, id) && db.HasOrder(order) && order != id
    ensures StaysOff(SettleFresh(db, order, f, c, now).0, id)
  {
    SettleFreshShape(db, order, f, c, now);
  }

  /** A settlement rewrites a payable order only. */
  lemma SettleOnceStaysOff(db: DB, order: int, f: Fact, c: Option<Contract>, now: int, id: int)
    requires Inv(db) && WrittenOff(db, id)
    ensures StaysOff(SettleOnce(db, order, f, c, now).db, id)
  {
    SettleOnceEnds(db, order, f, c, now);
    if db.HasOrder(order) && ValidateFact(db.Ord(order), f) == {} {
      ValidMoney(db.Ord(order), f);
      SettleReplayStaysOff(db, order, f, c, now, id);
      if order != id { SettleFreshStaysOff(db, order, f, c, now, id); }
    }
  }

  lemma SettleStaysOff(db: DB, order: int, f: Fact, c: Option<Contract>, now: int, id: int)
    requires Inv(db) && WrittenOff(db, id)
    ensures StaysOff(Settle(db, order, f, c, now).0, id)
  {
    SettleOnceStaysOff(db, order, f, c, now, id);
    var s := SettleOnce(db, order, f, c, now);
    RecordAnomalyStaysOff(s.db, AnomalyFromFact(order, s.fact, IdentityConflict), now, id);
    RecordUnexpectedStaysOff(s.db, order, s.fact, EntitlementConflict, now, id);
  }

  lemma RenewOnceStaysOff(db: DB, order: int, f: Fact, c: Contract, now: int, id: int)
    requires WrittenOff(db, id)
    ensures StaysOff(RenewOnce(db, order, f, c, now).0, id)
  {
  }

  lemma RenewStaysOff(db: DB, order: int, f: Fact, c: Contract, now: int, id: int)
    requires WrittenOff(db, id)
    ensures StaysOff(Renew(db, order, f, c, now).0, id)
  {
    RenewOnceStaysOff(db, order, f, c, now, id);
    var (once, errs) := RenewOnce(db, order, f, c, now);
    if RenewalReason(errs).Some? { RecordUnexpectedStaysOff(once, order, f, RenewalReason(errs).value, now, id); }
  }

  /** A refund takes from a capture that still holds money. */
  lemma RefundNeedsMoney(db: DB, f: RefundFact, now: int)
    requires RefundOnce(db, f, now).0 != db
    ensures HoldsMoney(db, f.order)
  {
    var i := FindAttempt(db.attempts, f.name.Normalized().value, f.parent).value;
    assert !Closed(db.refunds, db.attempts[i]);
  }

  lemma RefundOnceStaysOff(db: DB, f: RefundFact, now: int, id: int)
    requires WrittenOff(db, id) && !HoldsMoney(db, id)
    ensures StaysOff(RefundOnce(db, f, now).0, id)
  {
    if RefundOnce(db, f, now).0 != db { RefundNeedsMoney(db, f, now); }
  }

  lemma RecordRefundStaysOff(db: DB, f: RefundFact, now: int, id: int)
    requires WrittenOff(db, id) && !HoldsMoney(db, id)
    ensures StaysOff(RecordRefund(db, f, now).0, id)
  {
    RefundOnceStaysOff(db, f, now, id);
    var (once, errs) := RefundOnce(db, f, now);
    if RefusalReason(errs).Some? { RecordAnomalyStaysOff(once, RefundAnomaly(once, f, RefusalReason(errs).value), now, id); }
  }

  lemma CloseStaysOff(db: DB, r: ReviewRequest, targets: set<Target>, id: int)
    requires forall t :: t in targets ==> Decide(db, t, r.decision, r.result).Some?
    requires WrittenOff(db, id) && r.order != id
    ensures StaysOff(Close(db, r, targets).0, id)
  {
  }

  lemma ResolveStaysOff(db: DB, r: ReviewRequest, id: int)
    requires WrittenOff(db, id)
    ensures StaysOff(Resolve(db, r).0, id)
  {
    if Resolve(db, r).0 != db { CloseStaysOff(db, r, CaseTargets(db, r).value, id); }
  }

  lemma OrderStepStaysOff(db: DB, s: Step, id: int)
    requires WrittenOff(db, id) && (s.op.Create? || s.op.Cancel? || s.op.DeliverOrder?)
    ensures StaysOff(Apply(db, s), id)
  {
  }

  lemma SettleStepStaysOff(db: DB, s: Step, id: int)
    requires Inv(db) && WrittenOff(db, id) && s.op.SettleReceipt?
    ensures StaysOff(Apply(db, s), id)
  {
    var r := s.op.receipt;
    assert Apply(db, s) == SettleStep(db, r, s.now).0;
    if Requested(db, r, s.now) {
      var q := RequestOf(db.Ord(r.order), r, s.now).value;
      SettleStaysOff(db, r.order, q.fact, q.contract, s.now, id);
    }
  }

  lemma RefundStepStaysOff(db: DB, s: Step, id: int)
    requires WrittenOff(db, id) && !HoldsMoney(db, id) && (s.op.RecordRefundFact? || s.op.IngestRefundFact?)
    ensures StaysOff(Apply(db, s), id)
  {
    RecordRefundStaysOff(db, s.op.refund, s.now, id);
    if s.op.RecordRefundFact? { RefundIsOneStep(db, s); } else { IngestStays(db, s.op.refund, s.now, id); IngestIsOneStep(db, s); }
  }

  lemma IngestStays(db: DB, f: RefundFact, now: int, id: int)
    requires StaysOff(db, id) && StaysOff(RecordRefund(db, f, now).0, id)
    ensures StaysOff(IngestRefund(db, f, now).0, id)
  {
  }

  lemma CaptureStepStaysOff(db: DB, s: Step, id: int)
    requires WrittenOff(db, id) && (s.op.RecordUnexpectedCharge? || s.op.RecordFact? || s.op.IngestCaptureFact?)
    ensures StaysOff(Apply(db, s), id)
  {
    match s.op {
      case RecordUnexpectedCharge(order, f, reason) => RecordUnexpectedStaysOff(db, order, f, reason, s.now, id);
      case RecordFact(a) => RecordAnomalyStaysOff(db, a, s.now, id);
      case IngestCaptureFact(order, f) => IngestCaptureStaysOff(db, order, f, s.now, id);
    }
  }

  lemma RenewStepStaysOff(db: DB, s: Step, id: int)
    requires WrittenOff(db, id) && s.op.RenewCharge?
    ensures StaysOff(Apply(db, s), id)
  {
    RenewStaysOff(db, s.op.id, s.op.fact, s.op.contract, s.now, id);
  }

  lemma ResolveStepStaysOff(db: DB, s: Step, id: int)
    requires WrittenOff(db, id) && s.op.ResolveReview?
    ensures StaysOff(Apply(db, s), id)
  {
    ReviewIsOneStep(db, s);
    ResolveStaysOff(db, s.op.request, id);
  }

  /** With every capture refunded, no step moves a written-off order except into review. */
  lemma StepStaysOff(db: DB, s: Step, id: int)
    requires Inv(db) && WrittenOff(db, id) && !HoldsMoney(db, id)
    ensures StaysOff(Apply(db, s), id)
  {
    match s.op {
      case SettleReceipt(_) => SettleStepStaysOff(db, s, id);
      case RenewCharge(_, _, _) => RenewStepStaysOff(db, s, id);
      case RecordRefundFact(_) => RefundStepStaysOff(db, s, id);
      case IngestRefundFact(_) => RefundStepStaysOff(db, s, id);
      case ResolveReview(_) => ResolveStepStaysOff(db, s, id);
      case CancelSubscription(_, _) =>
      case ExpireOverdue =>
      case RecordUnexpectedCharge(_, _, _) => CaptureStepStaysOff(db, s, id);
      case RecordFact(_) => CaptureStepStaysOff(db, s, id);
      case IngestCaptureFact(_, _) => CaptureStepStaysOff(db, s, id);
      case _ => OrderStepStaysOff(db, s, id);
    }
  }

  // ----- the refund that moves it -----

  /** A refund identity no row carries yet. */
  function UnusedIdentity(rows: seq<Refund>): (ext: string)
    ensures ext != "" && forall k :: 0 <= k < |rows| ==> |rows[k].ext| < |ext|
  {
    if |rows| == 0 then "r"
    else
      var ext := UnusedIdentity(rows[..|rows| - 1]);
      if |rows[|rows| - 1].ext| < |ext| then ext else rows[|rows| - 1].ext + "r"
  }

  /** The provider refunds one minor unit of a capture. */
  function Unit(db: DB, i: nat): RefundFact
    requires i < |db.attempts|
  {
    var a := db.attempts[i];
    RefundFact(a.order, Canonical(a.provider), UnusedIdentity(db.refunds), a.ext, 0, 1, a.currency, a.scale, None)
  }

  lemma UnitIsEntered(db: DB, i: nat, now: int)
    requires Inv(db) && i < |db.attempts| && !Closed(db.refunds, db.attempts[i])
    ensures db.HasOrder(db.attempts[i].order)
    ensures var r := RefundRow(Unit(db, i), db.attempts[i].provider, now);
      RefundOnce(db, Unit(db, i), now) == ApplyRefund(db, i, r, now)
  {
    var a := db.attempts[i];
    assert AttemptOK(|db.orders|, a);
    assert FindAttempt(db.attempts, a.provider, a.ext) == Some(i);
    assert FindRefund(db.refunds, a.provider, Unit(db, i).ext).None?;
  }

  /** A settled capture recorded with its period gives the rollback nothing to doubt. */
  lemma NothingSuspicious(db: DB, i: nat, r: Refund, now: int)
    requires Entitled(db) && i < |db.attempts| && db.attempts[i].status == Succeeded
    requires db.attempts[i].order == r.order && db.HasOrder(r.order)
    ensures !RefundRollback(db, i, r, now).suspicious
  {
    assert Recorded(db, db.attempts[i]);
  }

  lemma UnitMovesOrder(db: DB, i: nat, now: int)
    requires Inv(db) && Entitled(db) && i < |db.attempts| && WrittenOff(db, db.attempts[i].order)
    requires !Closed(db.refunds, db.attempts[i])
    ensures Moved(RecordRefund(db, Unit(db, i), now).0, db.attempts[i].order)
  {
    if db.attempts[i].status == Quarantined { ClosedOutsideReview(db, i); }
    assert AttemptOK(|db.orders|, db.attempts[i]);
    UnitIsEntered(db, i, now);
    NothingSuspicious(db, i, RefundRow(Unit(db, i), db.attempts[i].provider, now), now);
  }

  lemma ReachableEntitled(db: DB)
    requires Reachable(db)
    ensures Inv(db) && Entitled(db)
  {
    var stock: map<int, int>, promos: map<string, int>, steps: seq<Step> :| db == Run(Genesis(stock, promos), steps);
    GenesisEntitled(stock, promos, steps);
  }

  /** In a reachable ledger some step takes a written-off order to a payment state other
      than `cancelled` and `needs_review` if and only if one of its captures is not fully
      refunded. */
  lemma WrittenOffMovesExactly(db: DB, id: int)
    requires Reachable(db) && WrittenOff(db, id)
    ensures (exists s: Step :: Moved(Apply(db, s), id)) <==> HoldsMoney(db, id)
  {
    ReachableEntitled(db);
    if HoldsMoney(db, id) {
      var i: nat :| i < |db.attempts| && db.attempts[i].order == id && !Closed(db.refunds, db.attempts[i]);
      var s := Step(RecordRefundFact(Unit(db, i)), 0);
      UnitMovesOrder(db, i, 0);
      RefundIsOneStep(db, s);
      assert Moved(Apply(db, s), id);
    } else if s: Step :| Moved(Apply(db, s), id) {
      StepStaysOff(db, s, id);
    }
  }
}
