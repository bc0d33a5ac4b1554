/** The order transactions keep the invariant (internal/storage/orders.go, payment_recording.go). */
module OrderEffects {
  import opened Wrappers
  import opened Ledger
  import opened Tables
  import opened Anomalies
  import opened Recording
  import opened Reviews
  import opened Subscriptions
  import opened Orders
  import opened Invariant
  import opened Effects

  // ----- create, cancel, deliver -----

  lemma NewOrderReviews(db: DB, o: Order)
    requires Quarantine(db) && Resolutions(db)
    ensures Quarantine(db.(orders := db.orders + [o])) && Resolutions(db.(orders := db.orders + [o]))
  {
    var db' := db.(orders := db.orders + [o]);
    forall e: nat | e < |db'.events| && OpenEvent(db', e) ensures Held(db', db'.events[e].order) {
      assert OpenEvent(db, e) && Held(db, db.events[e].order);
    }
    forall i: nat | i < |db'.anomalies| && db'.anomalies[i].attached && OpenAnomaly(db', i) ensures Held(db', db'.anomalies[i].order) {
      assert OpenAnomaly(db, i) && Held(db, db.anomalies[i].order);
    }
    forall t | t in db'.resolutions ensures TargetInRange(db', t) { assert TargetInRange(db, t); }
    forall e: nat | e < |db'.events| ensures ResolutionOK(db', e) { assert ResolutionOK(db, e); }
  }

  lemma NewOrderRows(db: DB, d: Draft)
    requires AttemptsOK(|db.orders|, db.attempts) && Projections(db)
    ensures AttemptsOK(|db.orders| + 1, db.attempts)
    ensures Projections(db.(orders := db.orders + [OrderOf(d)]))
  {
  }

  lemma CreateOrderInv(db: DB, d: Draft, now: int)
    requires Inv(db)
    ensures Inv(CreateOrder(db, d, now).0)
  {
    NewOrderReviews(db, OrderOf(d));
    NewOrderRows(db, d);
  }

  lemma CancelOrderInv(db: DB, id: int, user: int)
    requires Inv(db)
    ensures Inv(CancelOrder(db, id, user).0)
  {
    if CancelOrder(db, id, user).0 != db {
      assert OrderOK(db.attempts, db.refunds, id, db.orders[id - 1]);
      OrderRewrite(db, id, db.Ord(id).(status := Cancelled, axis := OrderCancelled, pay := PayCancelled, fulfillment := Unfulfilled));
    }
  }

  lemma DeliverInv(db: DB, id: int)
    requires Inv(db)
    ensures Inv(Deliver(db, id).0)
  {
    if Deliver(db, id).0 != db {
      assert OrderOK(db.attempts, db.refunds, id, db.orders[id - 1]);
      OrderRewrite(db, id, db.Ord(id).(status := Delivered, axis := Completed, fulfillment := Fulfilled));
    }
  }

  // ----- unexpected captures -----

  /** Valid facts carry money the ledger accepts. */
  lemma ValidMoney(o: Order, f: Fact)
    requires ValidateFact(o, f) == {}
    ensures f.amount >= 0 && f.ext != "" && (f.provider == Stars ==> f.amount > 0)
  {
  }

  lemma QuarantinedOrder(rows: seq<Attempt>, refunds: seq<Refund>, a: Attempt, o: Order)
    requires OrderOK(rows, refunds, a.order, o) && a.status == Quarantined
    ensures OrderOK(rows + [a], refunds, a.order, o.(pay := NeedsReview))
  {
    var rows' := rows + [a];
    assert forall i :: 0 <= i < |rows| ==> rows'[i] == rows[i];
    if EverSettled(o) {
      var i :| 0 <= i < |rows| && PaidWith(rows[i], a.order, o.rail.value, o.paymentID);
      assert PaidWith(rows'[i], a.order, o.rail.value, o.paymentID);
    }
  }

  lemma QuarantineCaptureInv(db: DB, a: Attempt)
    requires Inv(db) && db.HasOrder(a.order) && FreshCapture(db, a, EventNeedsReview)
    ensures Inv(InsertCapture(db, a, EventNeedsReview).SetPay(a.order, NeedsReview))
  {
    assert OrderOK(db.attempts, db.refunds, a.order, db.orders[a.order - 1]);
    QuarantinedOrder(db.attempts, db.refunds, a, db.Ord(a.order));
    CaptureInv(db, a, EventNeedsReview, db.Ord(a.order).(pay := NeedsReview));
  }

  lemma RecordCaptureInv(db: DB, id: int, f: Fact, reason: Reason, now: int)
    requires Inv(db) && db.HasOrder(id) && ValidateFact(db.Ord(id), f) == {}
    ensures Inv(RecordCapture(db, id, f, reason, now).0)
  {
    match FindAttempt(db.attempts, f.provider, f.ext) {
      case Some(i) => KnownCaptureInv(db, id, i, f, reason, now);
      case None => NewQuarantineInv(db, id, f, reason, now);
    }
  }

  lemma KnownCaptureInv(db: DB, id: int, i: nat, f: Fact, reason: Reason, now: int)
    requires Inv(db) && db.HasOrder(id) && FindAttempt(db.attempts, f.provider, f.ext) == Some(i)
    ensures Inv(RecordCapture(db, id, f, reason, now).0)
  {
    KnownCaptureEnds(db, id, i, f, reason, now);
    RecordAnomalyInv(db, KnownCaptureAnomaly(db, id, i, f, reason), now);
  }

  function KnownCaptureAnomaly(db: DB, id: int, i: nat, f: Fact, reason: Reason): AnomalyFact
    requires i < |db.attempts|
  {
    AnomalyFromFact(id, f, if db.attempts[i].order != id then IdentityConflict else reason)
  }

  /** A capture the ledger knows is left alone or becomes an anomaly. */
  lemma KnownCaptureEnds(db: DB, id: int, i: nat, f: Fact, reason: Reason, now: int)
    requires db.HasOrder(id) && FindAttempt(db.attempts, f.provider, f.ext) == Some(i)
    ensures var db' := RecordCapture(db, id, f, reason, now).0;
      db' == db || db' == RecordAnomaly(db, KnownCaptureAnomaly(db, id, i, f, reason), now).0
  {
  }

  lemma NewQuarantineInv(db: DB, id: int, f: Fact, reason: Reason, now: int)
    requires Inv(db) && db.HasOrder(id) && ValidateFact(db.Ord(id), f) == {} && FindAttempt(db.attempts, f.provider, f.ext).None?
    ensures Inv(RecordCapture(db, id, f, reason, now).0)
  {
    ValidMoney(db.Ord(id), f);
    var a := AttemptOf(id, f, Quarantined, f.entitlement, now);
    QuarantineCaptureInv(db, a);
    assert RecordCapture(db, id, f, reason, now).0 == InsertCapture(db, a, EventNeedsReview).SetPay(id, NeedsReview);
  }

  lemma RecordUnexpectedInv(db: DB, id: int, f: Fact, reason: Reason, now: int)
    requires Inv(db)
    ensures Inv(RecordUnexpected(db, id, f, reason, now).0)
  {
    RecordUnexpectedEnds(db, id, f, reason, now);
    if db.HasOrder(id) {
      RecordAnomalyInv(db, AnomalyFromFact(id, f, FactMismatch), now);
      if ValidateFact(db.Ord(id), f) == {} { RecordCaptureInv(db, id, f, reason, now); }
    }
  }

  /** Where recording an unexpected capture can leave the ledger. */
  lemma RecordUnexpectedEnds(db: DB, id: int, f: Fact, reason: Reason, now: int)
    ensures var db' := RecordUnexpected(db, id, f, reason, now).0;
      || db' == db
      || db' == RecordAnomaly(db, AnomalyFromFact(id, f, FactMismatch), now).0
      || (db.HasOrder(id) && ValidateFact(db.Ord(id), f) == {} && db' == RecordCapture(db, id, f, reason, now).0)
  {
  }

  /** Where ingesting a capture can leave the ledger. */
  lemma IngestCaptureEnds(db: DB, id: int, f: Fact, now: int)
    ensures var db' := IngestCapture(db, id, f, now).0;
      || db' == db
      || db' == RecordAnomaly(db, IngestAnomaly(id, f), now).0
      || (db.HasOrder(id) && ValidateFact(db.Ord(id), f) == {}
          && db' == RecordCapture(db, id, f, OtherReason("operator_ingested_provider_capture"), now).0)
  {
  }

  lemma IngestCaptureInv(db: DB, id: int, f: Fact, now: int)
    requires Inv(db)
    ensures Inv(IngestCapture(db, id, f, now).0)
  {
    IngestCaptureEnds(db, id, f, now);
    RecordAnomalyInv(db, IngestAnomaly(id, f), now);
    if db.HasOrder(id) && ValidateFact(db.Ord(id), f) == {} {
      RecordCaptureInv(db, id, f, OtherReason("operator_ingested_provider_capture"), now);
    }
  }

  // ----- settlement -----

  /** Observing and settling in one transaction writes a settled capture. */
  lemma ObservedThenSettled(db: DB, id: int, f: Fact, expiry: Option<int>, now: int)
    ensures MarkSettled(InsertCapture(db, AttemptOf(id, f, Observed, expiry, now), EventObserved))
         == InsertCapture(db, AttemptOf(id, f, Succeeded, expiry, now), EventSettled)
  {
  }

  /** What the shop guarantees before it asks for a settlement. */
  predicate SettlementRequest(db: DB, id: int, f: Fact, c: Option<Contract>) {
    f.amount > 0 && (db.HasOrder(id) && db.Ord(id).subProduct > 0 ==> c.Some?)
  }

  lemma NewlySettledOrder(rows: seq<Attempt>, refunds: seq<Refund>, a: Attempt, o: Order, f: Fact)
    requires OrderOK(rows, refunds, a.order, o) && o.pay == PayPending
    requires a.status == Succeeded && a.amount > 0 && RefundedOf(refunds, a) == 0
    requires a.provider == f.provider && a.ext == f.ext && f.ext != ""
    requires o.subProduct > 0 ==> f.provider == Stars
    ensures OrderOK(rows + [a], refunds, a.order, SettledOrder(o, f))
  {
    var rows' := rows + [a];
    assert PaidWith(rows'[|rows|], a.order, f.provider, f.ext);
    assert !Closed(refunds, rows'[|rows|]);
  }

  /** The rows a settlement writes to the six ledger tables. */
  function SettledRows(db: DB, id: int, f: Fact, expiry: Option<int>, now: int): DB
    requires db.HasOrder(id)
  {
    InsertCapture(db, AttemptOf(id, f, Succeeded, expiry, now), EventSettled).SetOrder(id, SettledOrder(db.Ord(id), f))
  }

  function ExpiryOf(c: Option<Contract>): Option<int> {
    if c.Some? then Some(c.value.expires) else None
  }

  lemma SettleFreshShape(db: DB, id: int, f: Fact, c: Option<Contract>, now: int)
    requires db.HasOrder(id)
    ensures SettleFresh(db, id, f, c, now).1 != {} ==> SettleFresh(db, id, f, c, now).0 == db
    ensures SettleFresh(db, id, f, c, now).1 == {} ==>
      && FindAttempt(db.attempts, f.provider, f.ext).None?
      && var db' := SettleFresh(db, id, f, c, now).0;
         db' == SettledRows(db, id, f, ExpiryOf(c), now).(stock := db'.stock, promos := db'.promos, usages := db'.usages, subs := db'.subs)
  {
    if SettleFresh(db, id, f, c, now).1 == {} {
      ObservedThenSettled(db, id, f, ExpiryOf(c), now);
    }
  }

  lemma SettledRowsInv(db: DB, id: int, f: Fact, expiry: Option<int>, now: int)
    requires Inv(db) && db.HasOrder(id) && f.amount > 0 && ValidateFact(db.Ord(id), f) == {}
    requires db.Ord(id).subProduct > 0 ==> f.provider == Stars
    requires db.Ord(id).pay == PayPending && FindAttempt(db.attempts, f.provider, f.ext).None?
    ensures Inv(SettledRows(db, id, f, expiry, now))
  {
    var a := AttemptOf(id, f, Succeeded, expiry, now);
    FreshUnrefunded(db, a, EventSettled);
    assert OrderOK(db.attempts, db.refunds, id, db.orders[id - 1]);
    NewlySettledOrder(db.attempts, db.refunds, a, db.Ord(id), f);
    CaptureInv(db, a, EventSettled, SettledOrder(db.Ord(id), f));
  }

  lemma SettleFreshInv(db: DB, id: int, f: Fact, c: Option<Contract>, now: int)
    requires Inv(db) && db.HasOrder(id) && SettlementRequest(db, id, f, c)
    requires ValidateFact(db.Ord(id), f) == {} && db.Ord(id).pay == PayPending
    requires c.Some? ==> Settles(db.Ord(id), id, f.provider, f.ext, c.value)
    ensures Inv(SettleFresh(db, id, f, c, now).0)
  {
    SettleFreshShape(db, id, f, c, now);
    ValidMoney(db.Ord(id), f);
    var (db', errs) := SettleFresh(db, id, f, c, now);
    if errs == {} {
      SettledRowsInv(db, id, f, ExpiryOf(c), now);
      OtherTables(SettledRows(db, id, f, ExpiryOf(c), now), db');
    }
  }

  /** The order's own charge is in the ledger, settled and for this order. */
  lemma OwnCharge(db: DB, id: int, p: Provider, ext: string)
    requires Inv(db) && db.HasOrder(id) && ext != ""
    requires db.Ord(id).rail == Some(p) && db.Ord(id).paymentID == ext
    ensures FindAttempt(db.attempts, p, ext).Some?
    ensures PaidWith(db.attempts[FindAttempt(db.attempts, p, ext).value], id, p, ext)
  {
  }

  /** A replay repairs at most the subscription and a missing entitlement expiry. */
  ghost predicate Repairs(db: DB, db': DB) {
    || db' == db.(subs := db'.subs)
    || exists i: nat, t: int :: i < |db.attempts| && db' == db.(subs := db'.subs, attempts := Filled(db.attempts, i, t))
  }

  lemma RepairsInv(db: DB, db': DB)
    requires Inv(db) && Repairs(db, db')
    ensures Inv(db')
  {
    var db1 := db.(subs := db'.subs);
    OtherTables(db, db1);
    if db' != db1 {
      var i: nat, t: int :| i < |db.attempts| && db' == db.(subs := db'.subs, attempts := Filled(db.attempts, i, t));
      EntitlementInv(db1, i, t);
    }
  }

  lemma ObserveRepairs(db: DB, subs: map<(int, int), Subscription>, id: int, f: Fact, expiry: Option<int>, now: int)
    requires FindAttempt(db.attempts, f.provider, f.ext).Some?
    ensures Repairs(db, Observe(db.(subs := subs), id, f, expiry, now).0)
  {
    var i := FindAttempt(db.attempts, f.provider, f.ext).value;
    var db' := Observe(db.(subs := subs), id, f, expiry, now).0;
    if expiry.Some? && db'.attempts != db.attempts {
      assert db' == db.(subs := db'.subs, attempts := Filled(db.attempts, i, expiry.value));
    }
  }

  lemma SettleReplayRepairs(db: DB, id: int, f: Fact, c: Option<Contract>, now: int)
    requires db.HasOrder(id)
    requires ReplaysSettlement(db.Ord(id), f) ==> FindAttempt(db.attempts, f.provider, f.ext).Some?
    ensures Repairs(db, SettleReplay(db, id, f, c, now).db)
  {
    if c.Some? && ReplaysSettlement(db.Ord(id), f) {
      var persisted := PersistedExpiry(db, id, f);
      var c' := if persisted.Some? then c.value.(expires := persisted.value) else c.value;
      var f' := if persisted.Some? then f.(entitlement := persisted) else f;
      if Activate(db.subs, c', now).Some? {
        ObserveRepairs(db, Activate(db.subs, c', now).value, id, f', Some(c'.expires), now);
      }
    }
  }

  lemma SettleReplayInv(db: DB, id: int, f: Fact, c: Option<Contract>, now: int)
    requires Inv(db) && db.HasOrder(id) && f.ext != ""
    ensures Inv(SettleReplay(db, id, f, c, now).db)
  {
    if ReplaysSettlement(db.Ord(id), f) { OwnCharge(db, id, f.provider, f.ext); }
    SettleReplayRepairs(db, id, f, c, now);
    RepairsInv(db, SettleReplay(db, id, f, c, now).db);
  }

  lemma SettleOnceInv(db: DB, id: int, f: Fact, c: Option<Contract>, now: int)
    requires Inv(db) && SettlementRequest(db, id, f, c)
    ensures Inv(SettleOnce(db, id, f, c, now).db)
  {
    if db.HasOrder(id) && ValidateFact(db.Ord(id), f) == {} && (c.Some? ==> Settles(db.Ord(id), id, f.provider, f.ext, c.value)) {
      ValidMoney(db.Ord(id), f);
      if db.Ord(id).status != Pending || db.Ord(id).pay != PayPending {
        SettleReplayInv(db, id, f, c, now);
      } else {
        SettleFreshInv(db, id, f, c, now);
      }
    }
  }

  lemma SettleInv(db: DB, id: int, f: Fact, c: Option<Contract>, now: int)
    requires Inv(db) && SettlementRequest(db, id, f, c)
    ensures Inv(Settle(db, id, f, c, now).0)
  {
    SettleOnceInv(db, id, f, c, now);
    SettleRecords(SettleOnce(db, id, f, c, now), db, id, f, c, now);
  }

  lemma SettleRecords(s: Settlement, db: DB, id: int, f: Fact, c: Option<Contract>, now: int)
    requires Inv(s.db) && s == SettleOnce(db, id, f, c, now)
    ensures Inv(Settle(db, id, f, c, now).0)
  {
    if PaymentIdentityConflict in s.errs {
      RecordAnomalyInv(s.db, AnomalyFromFact(id, s.fact, IdentityConflict), now);
    } else if SubscriptionOrderConflict in s.errs {
      RecordUnexpectedInv(s.db, id, s.fact, EntitlementConflict, now);
    }
  }

  // ----- renewal -----

  lemma RenewedOrder(rows: seq<Attempt>, refunds: seq<Refund>, a: Attempt, o: Order)
    requires UniqueCaptures(rows) && RefundsOK(rows, refunds)
    requires OrderOK(rows, refunds, a.order, o) && o.pay != NeedsReview
    requires (o.status == Paid || o.status == Delivered) && o.subProduct > 0
    requires a.status == Succeeded && a.provider == Stars && a.amount > 0 && RefundedOf(refunds, a) == 0
    ensures OrderOK(rows + [a], refunds, a.order,
                    o.(pay := if OrderRefunded(refunds, a.order, Stars) > 0 then PartiallyRefunded else Settled))
  {
    var rows' := rows + [a];
    assert forall i :: 0 <= i < |rows| ==> rows'[i] == rows[i];
    var k :| 0 <= k < |rows| && PaidWith(rows[k], a.order, o.rail.value, o.paymentID);
    assert PaidWith(rows'[k], a.order, o.rail.value, o.paymentID);
    assert rows'[|rows|] == a && !Closed(refunds, a);
    ExchangeLaw(rows, refunds, a.order, Stars);
    PositiveSums(rows, refunds, a.order, Stars);
    if OrderRefunded(refunds, a.order, Stars) > 0 {
      var i :| 0 <= i < |rows| && OfOrder(rows[i], a.order, Stars) && RefundedOf(refunds, rows[i]) > 0;
      assert rows'[i].order == a.order;
    } else {
      forall i | 0 <= i < |rows'| && CapturedFor(rows'[i], a.order) ensures RefundedOf(refunds, rows'[i]) == 0 {
        if i < |rows| { assert OfOrder(rows[i], a.order, Stars) && RefundedOf(refunds, rows[i]) >= 0; }
      }
    }
  }

  /** The order row and the capture a first renewal writes. */
  function RenewedRow(db: DB, id: int): Order
    requires db.HasOrder(id)
  {
    db.Ord(id).(pay := if OrderRefunded(db.refunds, id, Stars) > 0 then PartiallyRefunded else Settled)
  }

  lemma RenewFreshShape(db: DB, id: int, f: Fact, c: Contract, now: int)
    requires db.HasOrder(id) && f.provider == Stars
    ensures var (db', errs) := RenewFresh(db, id, f, c, now);
      var a := AttemptOf(id, f, Succeeded, Some(c.expires), now);
      if errs == {} then db' == InsertCapture(db, a, EventSettled).SetOrder(id, RenewedRow(db, id)).(subs := db'.subs) else db' == db
  {
  }

  lemma RenewedCaptureInv(db: DB, id: int, a: Attempt)
    requires Inv(db) && db.HasOrder(id) && a.order == id && FreshCapture(db, a, EventSettled) && RefundedOf(db.refunds, a) == 0
    requires a.status == Succeeded && a.provider == Stars && a.amount > 0
    requires db.Ord(id).status == Paid || db.Ord(id).status == Delivered
    requires db.Ord(id).pay != NeedsReview && db.Ord(id).subProduct > 0
    ensures Inv(InsertCapture(db, a, EventSettled).SetOrder(id, RenewedRow(db, id)))
  {
    assert OrderOK(db.attempts, db.refunds, id, db.orders[id - 1]);
    RenewedOrder(db.attempts, db.refunds, a, db.Ord(id));
    CaptureInv(db, a, EventSettled, RenewedRow(db, id));
  }

  lemma RenewFreshInv(db: DB, id: int, f: Fact, c: Contract, now: int)
    requires Inv(db) && db.HasOrder(id) && f.provider == Stars && ValidateFact(db.Ord(id), f) == {}
    requires FindAttempt(db.attempts, f.provider, f.ext).None?
    requires Settles(db.Ord(id), id, f.provider, f.ext, c)
    requires db.Ord(id).status == Paid || db.Ord(id).status == Delivered
    requires db.Ord(id).pay != NeedsReview
    ensures Inv(RenewFresh(db, id, f, c, now).0)
  {
    var (db', errs) := RenewFresh(db, id, f, c, now);
    RenewFreshShape(db, id, f, c, now);
    if errs == {} {
      ValidMoney(db.Ord(id), f);
      var a := AttemptOf(id, f, Succeeded, Some(c.expires), now);
      FreshUnrefunded(db, a, EventSettled);
      RenewedCaptureInv(db, id, a);
      OtherTables(InsertCapture(db, a, EventSettled).SetOrder(id, RenewedRow(db, id)), db');
    }
  }

  lemma RenewExistingRepairs(db: DB, id: int, i: nat, f: Fact, c: Contract, now: int)
    requires db.HasOrder(id) && i < |db.attempts| && f.entitlement.Some?
    ensures Repairs(db, RenewExisting(db, id, i, f, c, now).0)
  {
    var db' := RenewExisting(db, id, i, f, c, now).0;
    if db'.attempts != db.attempts {
      assert db' == db.(subs := db'.subs, attempts := Filled(db.attempts, i, db'.attempts[i].entitlement.value));
    }
  }

  lemma RenewOnceInv(db: DB, id: int, f: Fact, c: Contract, now: int)
    requires Inv(db)
    ensures Inv(RenewOnce(db, id, f, c, now).0)
  {
    if RenewOnce(db, id, f, c, now).0 != db {
      match FindAttempt(db.attempts, f.provider, f.ext)
      case Some(i) =>
        RenewExistingRepairs(db, id, i, f, c, now);
        RepairsInv(db, RenewExisting(db, id, i, f, c, now).0);
      case None => RenewFreshInv(db, id, f, c, now);
    }
  }

  lemma RenewInv(db: DB, id: int, f: Fact, c: Contract, now: int)
    requires Inv(db)
    ensures Inv(Renew(db, id, f, c, now).0)
  {
    RenewOnceInv(db, id, f, c, now);
    var (once, errs) := RenewOnce(db, id, f, c, now);
    RenewEnds(db, id, f, c, now);
    if RenewalReason(errs).Some? {
      RecordUnexpectedInv(once, id, f, RenewalReason(errs).value, now);
    }
  }

  /** Where a renewal can leave the ledger. */
  lemma RenewEnds(db: DB, id: int, f: Fact, c: Contract, now: int)
    ensures var (once, errs) := RenewOnce(db, id, f, c, now);
      var db' := Renew(db, id, f, c, now).0;
      || db' == db
      || (RenewalReason(errs).None? && db' == once)
      || (RenewalReason(errs).Some? && db' == RecordUnexpected(once, id, f, RenewalReason(errs).value, now).0)
  {
  }
}
