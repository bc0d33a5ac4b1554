/**
 Nothing the ledger has once said is ever taken back: rows are only appended, an
 attempt only gains a missing entitlement expiry, an order keeps its terms and, once
 settled, its charge (the triggers of migration 017 and the absence of deletes).
 */
module History {
  import opened Wrappers
  import opened Ledger
  import opened Tables
  import opened Anomalies
  import opened Recording
  import opened Refunds
  import opened Reviews
  import opened Subscriptions
  import opened Orders
  import opened Invariant
  import opened Effects
  import opened OrderEffects

  predicate KeepsAttempt(a: Attempt, a': Attempt) {
    a' == a || (a.entitlement.None? && a' == a.(entitlement := a'.entitlement))
  }

  ghost predicate KeepsAttempts(rows: seq<Attempt>, rows': seq<Attempt>) {
    |rows| <= |rows'| && forall i :: 0 <= i < |rows| ==> KeepsAttempt(rows[i], rows'[i])
  }

  /** The terms of an order never change; a settled order keeps its charge, and an order
      that has left the unpaid state never becomes payable again. */
  predicate KeepsOrder(o: Order, o': Order) {
    && o'.user == o.user && o'.totalUSD == o.totalUSD && o'.totalStars == o.totalStars
    && o'.promo == o.promo && o'.subProduct == o.subProduct && o'.subDays == o.subDays && o'.items == o.items
    && (EverSettled(o) ==> o'.rail == o.rail && o'.paymentID == o.paymentID)
    && (o.pay != PayPending ==> o'.pay != PayPending && o'.rail == o.rail && o'.paymentID == o.paymentID)
    && (o.status != Pending ==> o'.status != Pending)
  }

  ghost predicate KeepsOrders(rows: seq<Order>, rows': seq<Order>) {
    |rows| <= |rows'| && forall i :: 0 <= i < |rows| ==> KeepsOrder(rows[i], rows'[i])
  }

  ghost predicate KeepsResolutions(m: map<Target, Resolution>, m': map<Target, Resolution>) {
    forall t :: t in m ==> t in m' && m'[t] == m[t]
  }

  ghost predicate Extends(db: DB, db': DB) {
    && KeepsOrders(db.orders, db'.orders)
    && KeepsAttempts(db.attempts, db'.attempts)
    && db.events <= db'.events
    && db.refunds <= db'.refunds
    && db.anomalies <= db'.anomalies
    && KeepsResolutions(db.resolutions, db'.resolutions)
  }

  lemma ExtendsTransitive(a: DB, b: DB, c: DB)
    requires Extends(a, b) && Extends(b, c)
    ensures Extends(a, c)
  {
  }

  // ----- writes -----

  lemma SetOrderExtends(db: DB, id: int, o: Order)
    requires db.HasOrder(id) && KeepsOrder(db.Ord(id), o)
    ensures Extends(db, db.SetOrder(id, o))
  {
  }

  lemma FlagExtends(db: DB, id: int)
    ensures Extends(db, Flag(db, id))
  {
    if db.HasOrder(id) { SetOrderExtends(db, id, db.Ord(id).(pay := NeedsReview)); }
  }

  lemma RecordAnomalyExtends(db: DB, f: AnomalyFact, now: int)
    ensures Extends(db, RecordAnomaly(db, f, now).0)
  {
    FlagExtends(db, f.order);
    if f.provider.Some? {
      var db1 := db.(anomalies := db.anomalies + [AnomalyRow(db, f, now)]);
      FlagExtends(db1, f.order);
      ExtendsTransitive(db, db1, Flag(db1, f.order));
    }
  }

  lemma InsertExtends(db: DB, a: Attempt, disp: Disposition, o: Order)
    requires db.HasOrder(a.order) && KeepsOrder(db.Ord(a.order), o)
    ensures Extends(db, InsertCapture(db, a, disp).SetOrder(a.order, o))
  {
  }

  lemma RecordCaptureExtends(db: DB, id: int, f: Fact, reason: Reason, now: int)
    requires db.HasOrder(id)
    ensures Extends(db, RecordCapture(db, id, f, reason, now).0)
  {
    match FindAttempt(db.attempts, f.provider, f.ext)
    case Some(i) =>
      RecordAnomalyExtends(db, AnomalyFromFact(id, f, if db.attempts[i].order != id then IdentityConflict else reason), now);
    case None =>
      InsertExtends(db, AttemptOf(id, f, Quarantined, f.entitlement, now), EventNeedsReview, db.Ord(id).(pay := NeedsReview));
  }

  lemma RecordUnexpectedExtends(db: DB, id: int, f: Fact, reason: Reason, now: int)
    ensures Extends(db, RecordUnexpected(db, id, f, reason, now).0)
  {
    if db.HasOrder(id) {
      RecordAnomalyExtends(db, AnomalyFromFact(id, f, FactMismatch), now);
      RecordCaptureExtends(db, id, f, reason, now);
    }
  }

  lemma IngestCaptureExtends(db: DB, id: int, f: Fact, now: int)
    ensures Extends(db, IngestCapture(db, id, f, now).0)
  {
    IngestCaptureEnds(db, id, f, now);
    RecordAnomalyExtends(db, IngestAnomaly(id, f), now);
    if db.HasOrder(id) { RecordCaptureExtends(db, id, f, OtherReason("operator_ingested_provider_capture"), now); }
  }

  // ----- order transactions -----

  /** A repair fills an expiry that is missing. */
  ghost predicate RepairsMissing(db: DB, db': DB) {
    || db' == db.(subs := db'.subs)
    || exists i: nat, t: int :: i < |db.attempts| && db.attempts[i].entitlement.None?
                             && db' == db.(subs := db'.subs, attempts := Filled(db.attempts, i, t))
  }

  lemma RepairExtends(db: DB, db': DB)
    requires RepairsMissing(db, db')
    ensures Extends(db, db')
  {
  }

  lemma ObserveExistingRepairs(db: DB, subs: map<(int, int), Subscription>, id: int, i: nat, f: Fact, expiry: Option<int>)
    requires i < |db.attempts|
    ensures RepairsMissing(db, ObserveExisting(db.(subs := subs), id, i, f, expiry).0)
  {
    var db' := ObserveExisting(db.(subs := subs), id, i, f, expiry).0;
    if expiry.Some? && db'.attempts != db.attempts {
      assert db' == db.(subs := db'.subs, attempts := Filled(db.attempts, i, expiry.value));
    }
  }

  /** A replayed settlement installs the recorded period and repairs at most its expiry. */
  lemma InstalledExtends(db: DB, id: int, f: Fact, c: Contract, now: int)
    requires FindAttempt(db.attempts, f.provider, f.ext).Some? && Activate(db.subs, c, now).Some?
    ensures Extends(db, Observe(db.(subs := Activate(db.subs, c, now).value), id, f, Some(c.expires), now).0)
  {
    var subs := Activate(db.subs, c, now).value;
    var i := FindAttempt(db.attempts, f.provider, f.ext).value;
    ObserveExistingRepairs(db, subs, id, i, f, Some(c.expires));
    RepairExtends(db, ObserveExisting(db.(subs := subs), id, i, f, Some(c.expires)).0);
  }

  /** What a replayed settlement writes, if it writes: the recorded period, on its contract. */
  lemma SettleReplayEnds(db: DB, id: int, f: Fact, c: Option<Contract>, now: int)
    requires db.HasOrder(id)
    ensures var db' := SettleReplay(db, id, f, c, now).db;
      db' == db || (c.Some? && ReplaysSettlement(db.Ord(id), f) && var persisted := PersistedExpiry(db, id, f);
                    var c' := if persisted.Some? then c.value.(expires := persisted.value) else c.value;
                    var f' := if persisted.Some? then f.(entitlement := persisted) else f;
                    Activate(db.subs, c', now).Some?
                    && db' == Observe(db.(subs := Activate(db.subs, c', now).value), id, f', Some(c'.expires), now).0)
  {
  }

  lemma SettleReplayExtends(db: DB, id: int, f: Fact, c: Option<Contract>, now: int)
    requires db.HasOrder(id)
    requires ReplaysSettlement(db.Ord(id), f) ==> FindAttempt(db.attempts, f.provider, f.ext).Some?
    ensures Extends(db, SettleReplay(db, id, f, c, now).db)
  {
    SettleReplayEnds(db, id, f, c, now);
    if SettleReplay(db, id, f, c, now).db != db {
      var persisted := PersistedExpiry(db, id, f);
      InstalledExtends(db, id, if persisted.Some? then f.(entitlement := persisted) else f,
                       if persisted.Some? then c.value.(expires := persisted.value) else c.value, now);
    }
  }

  lemma SettleFreshExtends(db: DB, id: int, f: Fact, c: Option<Contract>, now: int)
    requires db.HasOrder(id) && db.Ord(id).pay == PayPending && !EverSettled(db.Ord(id))
    ensures Extends(db, SettleFresh(db, id, f, c, now).0)
  {
    SettleFreshShape(db, id, f, c, now);
    InsertExtends(db, AttemptOf(id, f, Succeeded, ExpiryOf(c), now), EventSettled, SettledOrder(db.Ord(id), f));
  }

  /** What a settlement may rely on about the order it finds. */
  lemma SettlementFacts(db: DB, id: int, f: Fact)
    requires Inv(db) && db.HasOrder(id) && f.ext != ""
    ensures db.Ord(id).pay == PayPending ==> !EverSettled(db.Ord(id))
    ensures ReplaysSettlement(db.Ord(id), f) ==> FindAttempt(db.attempts, f.provider, f.ext).Some?
  {
  }

  lemma SettleOnceExtends(db: DB, id: int, f: Fact, c: Option<Contract>, now: int)
    requires Inv(db)
    ensures Extends(db, SettleOnce(db, id, f, c, now).db)
  {
    SettleOnceEnds(db, id, f, c, now);
    if db.HasOrder(id) && ValidateFact(db.Ord(id), f) == {} {
      ValidMoney(db.Ord(id), f);
      SettlementFacts(db, id, f);
      SettleReplayExtends(db, id, f, c, now);
      if db.Ord(id).pay == PayPending { SettleFreshExtends(db, id, f, c, now); }
    }
  }

  /** Where one settlement attempt can leave the ledger. */
  lemma SettleOnceEnds(db: DB, id: int, f: Fact, c: Option<Contract>, now: int)
    ensures var db' := SettleOnce(db, id, f, c, now).db;
      || db' == db
      || (db.HasOrder(id) && ValidateFact(db.Ord(id), f) == {}
          && (db' == SettleReplay(db, id, f, c, now).db
              || (db.Ord(id).pay == PayPending && db' == SettleFresh(db, id, f, c, now).0)))
  {
  }

  lemma SettleExtends(db: DB, id: int, f: Fact, c: Option<Contract>, now: int)
    requires Inv(db)
    ensures Extends(db, Settle(db, id, f, c, now).0)
  {
    SettleOnceExtends(db, id, f, c, now);
    var s := SettleOnce(db, id, f, c, now);
    if PaymentIdentityConflict in s.errs {
      RecordAnomalyExtends(s.db, AnomalyFromFact(id, s.fact, IdentityConflict), now);
      ExtendsTransitive(db, s.db, Settle(db, id, f, c, now).0);
    } else if SubscriptionOrderConflict in s.errs && c.Some? {
      RecordUnexpectedExtends(s.db, id, s.fact, EntitlementConflict, now);
      ExtendsTransitive(db, s.db, Settle(db, id, f, c, now).0);
    }
  }

  lemma RenewExistingExtends(db: DB, id: int, i: nat, f: Fact, c: Contract, now: int)
    requires db.HasOrder(id) && i < |db.attempts| && f.entitlement.Some?
    ensures Extends(db, RenewExisting(db, id, i, f, c, now).0)
  {
    var db' := RenewExisting(db, id, i, f, c, now).0;
    if db'.attempts != db.attempts {
      assert db' == db.(subs := db'.subs, attempts := Filled(db.attempts, i, db'.attempts[i].entitlement.value));
    }
    RepairExtends(db, db');
  }

  lemma RenewOnceExtends(db: DB, id: int, f: Fact, c: Contract, now: int)
    ensures Extends(db, RenewOnce(db, id, f, c, now).0)
  {
    var db' := RenewOnce(db, id, f, c, now).0;
    if db' != db {
      match FindAttempt(db.attempts, f.provider, f.ext)
      case Some(i) => RenewExistingExtends(db, id, i, f, c, now);
      case None => InsertExtends(db, AttemptOf(id, f, Succeeded, Some(c.expires), now), EventSettled, db'.Ord(id));
    }
  }

  lemma RenewExtends(db: DB, id: int, f: Fact, c: Contract, now: int)
    ensures Extends(db, Renew(db, id, f, c, now).0)
  {
    RenewOnceExtends(db, id, f, c, now);
    RenewEnds(db, id, f, c, now);
    var (once, errs) := RenewOnce(db, id, f, c, now);
    if RenewalReason(errs).Some? {
      RecordUnexpectedExtends(once, id, f, RenewalReason(errs).value, now);
      ExtendsTransitive(db, once, RecordUnexpected(once, id, f, RenewalReason(errs).value, now).0);
    }
  }

  // ----- refunds and reviews -----

  lemma EnterRefundExtends(db: DB, i: nat, r: Refund, rolled: Rollback)
    requires i < |db.attempts| && db.HasOrder(r.order) && db.Ord(r.order).pay != PayPending
    ensures Extends(db, EnterRefund(db, i, r, rolled))
  {
  }

  lemma RecordRefundExtends(db: DB, f: RefundFact, now: int)
    requires Inv(db)
    ensures Extends(db, RecordRefund(db, f, now).0)
  {
    var (once, errs) := RefundOnce(db, f, now);
    if once != db {
      var i := FindAttempt(db.attempts, f.name.Normalized().value, f.parent).value;
      var r := RefundRow(f, f.name.Normalized().value, now);
      assert OrderOK(db.attempts, db.refunds, r.order, db.orders[r.order - 1]);
      EnterRefundExtends(db, i, r, RefundRollback(db, i, r, now));
    }
    if RefusalReason(errs).Some? {
      RecordAnomalyExtends(once, RefundAnomaly(once, f, RefusalReason(errs).value), now);
      ExtendsTransitive(db, once, RecordAnomaly(once, RefundAnomaly(once, f, RefusalReason(errs).value), now).0);
    }
  }

  /** A case only names unresolved targets, so a decision overwrites none. */
  lemma CaseTargetsOpen(db: DB, r: ReviewRequest)
    requires CaseTargets(db, r).Some?
    ensures forall t :: t in CaseTargets(db, r).value ==> t !in db.resolutions
  {
  }

  lemma ResolutionsGrow(db: DB, r: ReviewRequest, targets: set<Target>)
    requires forall t :: t in targets ==> t !in db.resolutions && Decide(db, t, r.decision, r.result).Some?
    ensures Extends(db, WithResolutions(db, r, targets))
  {
  }

  /** Rewriting at most the state of an order that has left the unpaid state. */
  predicate Restated(db: DB, db1: DB, db': DB, id: int) {
    && db.HasOrder(id) && db'.HasOrder(id) && db1.orders == db.orders && db' == db1.SetOrder(id, db'.Ord(id))
    && db'.Ord(id).pay != PayPending && (db.Ord(id).status != Pending ==> db'.Ord(id).status != Pending)
    && var o, o' := db.Ord(id), db'.Ord(id); o' == o.(status := o'.status, axis := o'.axis, pay := o'.pay)
  }

  lemma AnyEndExtends(db: DB, db1: DB, db': DB, id: int)
    requires Extends(db, db1) && (db' == db || db' == db1 || (Restated(db, db1, db', id) && db.Ord(id).pay != PayPending))
    ensures Extends(db, db')
  {
    if db' != db && db' != db1 {
      SetOrderExtends(db1, id, db'.Ord(id));
      ExtendsTransitive(db, db1, db');
    }
  }

  /** Where a decision can leave the ledger. */
  lemma CloseEnds(db: DB, r: ReviewRequest, targets: set<Target>)
    requires forall t :: t in targets ==> Decide(db, t, r.decision, r.result).Some?
    ensures var db', db1 := Close(db, r, targets).0, WithResolutions(db, r, targets);
      || db' == db
      || db' == db1
      || Restated(db, db1, db', r.order)
  {
  }

  lemma CloseExtends(db: DB, r: ReviewRequest, targets: set<Target>)
    requires forall t :: t in targets ==> t !in db.resolutions && Decide(db, t, r.decision, r.result).Some?
    requires db.HasOrder(r.order) ==> db.Ord(r.order).pay == NeedsReview
    ensures Extends(db, Close(db, r, targets).0)
  {
    CloseEnds(db, r, targets);
    ResolutionsGrow(db, r, targets);
    AnyEndExtends(db, WithResolutions(db, r, targets), Close(db, r, targets).0, r.order);
  }

  lemma ResolveExtends(db: DB, r: ReviewRequest)
    ensures Extends(db, Resolve(db, r).0)
  {
    if Resolve(db, r).0 != db {
      CaseTargetsOpen(db, r);
      CloseExtends(db, r, CaseTargets(db, r).value);
    }
  }
}
