/**
 Access never outruns payment: a subscription's expiry is bounded by what its renewal
 charges bought, and a contract changes hands only after it has lapsed.
 */
module AccessBound {
  import opened Wrappers
  import opened Ledger
  import opened Tables
  import opened Anomalies
  import opened Recording
  import opened Refunds
  import opened Reviews
  import opened Subscriptions
  import opened Orders
  import opened Shop
  import opened Invariant
  import opened OrderEffects
  import opened RefundEffects
  import opened History
  import opened Runs

  function Max(a: int, b: int): int { if a < b then b else a }

  /** A settled capture of an order for this user and product. */
  predicate Concerns(db: DB, a: Attempt, user: int, product: int) {
    a.status == Succeeded && db.HasOrder(a.order) && db.Ord(a.order).user == user && db.Ord(a.order).subProduct == product
  }

  predicate ExpiryWithin(subs: map<(int, int), Subscription>, user: int, product: int, bound: int) {
    (user, product) in subs ==> subs[(user, product)].expires <= bound
  }

  ghost predicate PeriodsWithin(db: DB, user: int, product: int, bound: int) {
    forall i :: 0 <= i < |db.attempts| && Concerns(db, db.attempts[i], user, product) && db.attempts[i].entitlement.Some? ==>
      db.attempts[i].entitlement.value <= bound
  }

  /** Neither the subscription nor any recorded period reaches beyond `bound`. */
  ghost predicate Within(db: DB, user: int, product: int, bound: int) {
    ExpiryWithin(db.subs, user, product, bound) && PeriodsWithin(db, user, product, bound)
  }

  predicate Recorded(db: DB, a: Attempt) {
    a.status == Succeeded && db.HasOrder(a.order) && db.Ord(a.order).subProduct > 0 ==>
      a.entitlement.Some? && (db.Ord(a.order).user, db.Ord(a.order).subProduct) in db.subs
  }

  /** Every settled subscription capture records the period it bought, and its contract has
      a row. */
  ghost predicate Entitled(db: DB) {
    forall i :: 0 <= i < |db.attempts| ==> Recorded(db, db.attempts[i])
  }

  /** A contract is replaced only once it grants nothing. */
  ghost predicate OwnersKept(subs: map<(int, int), Subscription>, subs': map<(int, int), Subscription>, now: int) {
    forall k :: k in subs ==>
      k in subs' && ((subs'[k].order == subs[k].order && subs'[k].charge == subs[k].charge) || !Grants(subs[k], now))
  }

  /** What a step may do to access: the bound moves from `bound` to `bound'`. */
  ghost predicate Lawful(db: DB, db': DB, user: int, product: int, bound: int, bound': int, now: int) {
    && (Within(db, user, product, bound) ==> Within(db', user, product, bound'))
    && Entitled(db')
    && OwnersKept(db.subs, db'.subs, now)
  }

  // ----- steps without access -----

  /** Subscriptions are as they were and no settled capture was added or touched. */
  ghost predicate Plain(db: DB, db': DB) {
    && db'.subs == db.subs
    && KeepsOrders(db.orders, db'.orders)
    && |db.attempts| <= |db'.attempts|
    && (forall i :: 0 <= i < |db.attempts| ==>
          db'.attempts[i] == db.attempts[i] || (db.attempts[i].status == Quarantined && db'.attempts[i].status == Quarantined))
    && (forall i :: |db.attempts| <= i < |db'.attempts| ==> db'.attempts[i].status == Quarantined)
  }

  lemma PlainAccess(db: DB, db': DB, user: int, product: int, bound: int, now: int)
    requires Plain(db, db') && Books(db) && Entitled(db)
    ensures Lawful(db, db', user, product, bound, bound, now)
  {
    forall i | 0 <= i < |db.attempts| && db'.attempts[i].status == Succeeded
      ensures db'.attempts[i] == db.attempts[i] && db.HasOrder(db.attempts[i].order)
      ensures KeepsOrder(db.Ord(db.attempts[i].order), db'.Ord(db.attempts[i].order))
    {
      assert AttemptOK(|db.orders|, db.attempts[i]);
      assert KeepsOrder(db.orders[db.attempts[i].order - 1], db'.orders[db.attempts[i].order - 1]);
    }
  }

  lemma OrdersPlain(db: DB, db': DB)
    requires db'.subs == db.subs && db'.attempts == db.attempts && KeepsOrders(db.orders, db'.orders)
    ensures Plain(db, db')
  {
  }

  lemma RecordAnomalyPlain(db: DB, f: AnomalyFact, now: int)
    ensures Plain(db, RecordAnomaly(db, f, now).0)
  {
    RecordAnomalyExtends(db, f, now);
    OrdersPlain(db, RecordAnomaly(db, f, now).0);
  }

  lemma RecordCapturePlain(db: DB, id: int, f: Fact, reason: Reason, now: int)
    requires db.HasOrder(id)
    ensures Plain(db, RecordCapture(db, id, f, reason, now).0)
  {
    match FindAttempt(db.attempts, f.provider, f.ext) {
      case Some(i) =>
        OrdersPlain(db, db);
        RecordAnomalyPlain(db, AnomalyFromFact(id, f, if db.attempts[i].order != id then IdentityConflict else reason), now);
      case None => RecordCaptureExtends(db, id, f, reason, now);
    }
  }

  lemma RecordUnexpectedPlain(db: DB, id: int, f: Fact, reason: Reason, now: int)
    ensures Plain(db, RecordUnexpected(db, id, f, reason, now).0)
  {
    OrdersPlain(db, db);
    if db.HasOrder(id) {
      RecordAnomalyPlain(db, AnomalyFromFact(id, f, FactMismatch), now);
      RecordCapturePlain(db, id, f, reason, now);
    }
  }

  lemma IngestCapturePlain(db: DB, id: int, f: Fact, now: int)
    ensures Plain(db, IngestCapture(db, id, f, now).0)
  {
    OrdersPlain(db, db);
    if db.HasOrder(id) {
      RecordCapturePlain(db, id, f, OtherReason("operator_ingested_provider_capture"), now);
      RecordAnomalyPlain(db, IngestAnomaly(id, f), now);
    }
  }

  lemma CloseTables(db: DB, r: ReviewRequest, targets: set<Target>)
    requires forall t :: t in targets ==> Decide(db, t, r.decision, r.result).Some?
    ensures Close(db, r, targets).0.attempts == db.attempts && Close(db, r, targets).0.subs == db.subs
  {
  }

  lemma ResolvePlain(db: DB, r: ReviewRequest)
    ensures Plain(db, Resolve(db, r).0)
  {
    ResolveExtends(db, r);
    if Resolve(db, r).0 != db { CloseTables(db, r, CaseTargets(db, r).value); }
    OrdersPlain(db, Resolve(db, r).0);
  }

  // ----- settlements -----

  /** What a settlement request can add. */
  function SettleBound(c: Option<Contract>, user: int, product: int, bound: int): int {
    if c.Some? && c.value.Key() == (user, product) then Max(bound, c.value.expires) else bound
  }

  /** Activating keeps owners and stays within the new bound. */
  lemma ActivateLawful(subs: map<(int, int), Subscription>, c: Contract, user: int, product: int, bound: int, now: int)
    requires Activate(subs, c, now).Some?
    ensures OwnersKept(subs, Activate(subs, c, now).value, now)
    ensures ExpiryWithin(subs, user, product, bound) ==>
      ExpiryWithin(Activate(subs, c, now).value, user, product, SettleBound(Some(c), user, product, bound))
  {
  }

  /** A first settlement opens at most the contract it asked for. */
  lemma FreshContract(db: DB, id: int, f: Fact, c: Option<Contract>, user: int, product: int, bound: int, now: int)
    requires db.HasOrder(id)
    ensures var db' := SettleFresh(db, id, f, c, now).0;
      && OwnersKept(db.subs, db'.subs, now)
      && (ExpiryWithin(db.subs, user, product, bound) ==> ExpiryWithin(db'.subs, user, product, SettleBound(c, user, product, bound)))
  {
    if SettleFresh(db, id, f, c, now).1 == {} {
      FreshSubs(db, id, f, c, now);
      if c.Some? { ActivateLawful(db.subs, c.value, user, product, bound, now); }
    } else {
      SettleFreshShape(db, id, f, c, now);
    }
  }

  /** The rows of a first settlement that went through. */
  lemma FreshRows(db: DB, id: int, f: Fact, c: Option<Contract>, now: int)
    requires db.HasOrder(id) && db.Ord(id).pay == PayPending && !EverSettled(db.Ord(id)) && SettleFresh(db, id, f, c, now).1 == {}
    ensures var db' := SettleFresh(db, id, f, c, now).0;
      && db'.attempts == db.attempts + [AttemptOf(id, f, Succeeded, ExpiryOf(c), now)] && KeepsOrders(db.orders, db'.orders)
      && db.subs.Keys <= db'.subs.Keys && (c.Some? ==> c.value.Key() in db'.subs)
  {
    SettleFreshShape(db, id, f, c, now);
    SettleFreshExtends(db, id, f, c, now);
    FreshSubs(db, id, f, c, now);
  }

  lemma FreshAccess(db: DB, id: int, f: Fact, c: Option<Contract>, user: int, product: int, bound: int, now: int)
    requires Books(db) && Entitled(db) && db.HasOrder(id) && SettlementRequest(db, id, f, c)
    requires c.Some? ==> Settles(db.Ord(id), id, f.provider, f.ext, c.value)
    requires db.Ord(id).pay == PayPending && !EverSettled(db.Ord(id)) && SettleFresh(db, id, f, c, now).1 == {}
    ensures Lawful(db, SettleFresh(db, id, f, c, now).0, user, product, bound, SettleBound(c, user, product, bound), now)
  {
    FreshRows(db, id, f, c, now);
    FreshContract(db, id, f, c, user, product, bound, now);
    SettledPeriods(db, SettleFresh(db, id, f, c, now).0, AttemptOf(id, f, Succeeded, ExpiryOf(c), now),
                   user, product, bound, SettleBound(c, user, product, bound));
  }

  lemma FreshSubs(db: DB, id: int, f: Fact, c: Option<Contract>, now: int)
    requires db.HasOrder(id) && SettleFresh(db, id, f, c, now).1 == {}
    ensures c.None? ==> SettleFresh(db, id, f, c, now).0.subs == db.subs
    ensures c.Some? ==> Activate(db.subs, c.value, now) == Some(SettleFresh(db, id, f, c, now).0.subs)
  {
  }

  /** One settled capture more, within the new bound. */
  lemma SettledPeriods(db: DB, db': DB, a: Attempt, user: int, product: int, bound: int, bound': int)
    requires AttemptsOK(|db.orders|, db.attempts) && Entitled(db) && db.HasOrder(a.order) && bound <= bound'
    requires db'.attempts == db.attempts + [a] && KeepsOrders(db.orders, db'.orders) && db.subs.Keys <= db'.subs.Keys
    requires db.Ord(a.order).subProduct > 0 ==>
      a.entitlement.Some? && (db.Ord(a.order).user, db.Ord(a.order).subProduct) in db'.subs
    requires a.entitlement.Some? && db.Ord(a.order).user == user && db.Ord(a.order).subProduct == product ==> a.entitlement.value <= bound'
    ensures PeriodsWithin(db, user, product, bound) ==> PeriodsWithin(db', user, product, bound')
    ensures Entitled(db')
  {
  }

  /** The charge on a settled order was recorded with its period, if it bought one. */
  lemma PersistedPeriod(db: DB, id: int, f: Fact, c: Contract)
    requires Inv(db) && Entitled(db) && db.HasOrder(id) && f.ext != "" && ReplaysSettlement(db.Ord(id), f)
    requires Settles(db.Ord(id), id, f.provider, f.ext, c)
    ensures var i := FindAttempt(db.attempts, f.provider, f.ext);
      && i.Some? && PaidWith(db.attempts[i.value], id, f.provider, f.ext)
      && db.attempts[i.value].entitlement.Some? && PersistedExpiry(db, id, f) == db.attempts[i.value].entitlement
  {
  }

  lemma ReplayAccess(db: DB, id: int, f: Fact, c: Option<Contract>, user: int, product: int, bound: int, now: int)
    requires Inv(db) && Entitled(db) && db.HasOrder(id) && f.ext != ""
    requires c.Some? ==> Settles(db.Ord(id), id, f.provider, f.ext, c.value)
    ensures Lawful(db, SettleReplay(db, id, f, c, now).db, user, product, bound, bound, now)
  {
    if c.Some? && ReplaysSettlement(db.Ord(id), f) {
      PersistedPeriod(db, id, f, c.value);
      ReplaySubs(db, id, f, c.value, now);
      ReplayWithin(db, id, f, c.value, user, product, bound, now);
      SameTablesPeriods(db, SettleReplay(db, id, f, c, now).db, user, product, bound);
    }
  }

  lemma SameTablesPeriods(db: DB, db': DB, user: int, product: int, bound: int)
    requires db'.attempts == db.attempts && db'.orders == db.orders && db.subs.Keys <= db'.subs.Keys
    ensures PeriodsWithin(db, user, product, bound) ==> PeriodsWithin(db', user, product, bound)
    ensures Entitled(db) ==> Entitled(db')
  {
  }

  lemma ReplayWithin(db: DB, id: int, f: Fact, c: Contract, user: int, product: int, bound: int, now: int)
    requires db.HasOrder(id) && Settles(db.Ord(id), id, f.provider, f.ext, c)
    requires FindAttempt(db.attempts, f.provider, f.ext).Some?
    requires var i := FindAttempt(db.attempts, f.provider, f.ext).value;
      PaidWith(db.attempts[i], id, f.provider, f.ext) && PersistedExpiry(db, id, f) == db.attempts[i].entitlement != None
    requires var db' := SettleReplay(db, id, f, Some(c), now).db;
      db'.subs == db.subs || Activate(db.subs, c.(expires := PersistedExpiry(db, id, f).value), now) == Some(db'.subs)
    ensures var db' := SettleReplay(db, id, f, Some(c), now).db;
      OwnersKept(db.subs, db'.subs, now) && (Within(db, user, product, bound) ==> ExpiryWithin(db'.subs, user, product, bound))
  {
  }

  /** A settlement replay re-installs at most the recorded period. */
  lemma ReplaySubs(db: DB, id: int, f: Fact, c: Contract, now: int)
    requires db.HasOrder(id) && ReplaysSettlement(db.Ord(id), f) && PersistedExpiry(db, id, f).Some?
    requires FindAttempt(db.attempts, f.provider, f.ext).Some?
    ensures var db' := SettleReplay(db, id, f, Some(c), now).db;
      && db'.attempts == db.attempts && db'.orders == db.orders
      && (db'.subs == db.subs
          || Activate(db.subs, c.(expires := PersistedExpiry(db, id, f).value), now) == Some(db'.subs))
  {
  }

  lemma Still(db: DB, user: int, product: int, bound: int, bound': int, now: int)
    requires Entitled(db) && bound <= bound'
    ensures Lawful(db, db, user, product, bound, bound', now)
  {
  }

  /** The settlement goes through on a payable order: it opens the contract it asks for. */
  predicate Opens(db: DB, id: int, f: Fact, c: Option<Contract>, now: int) {
    db.HasOrder(id) && db.Ord(id).status == Pending && db.Ord(id).pay == PayPending && SettleOnce(db, id, f, c, now).errs == {}
  }

  function SettlementBound(db: DB, id: int, f: Fact, c: Option<Contract>, user: int, product: int, bound: int, now: int): (r: int)
    ensures r >= bound
  {
    if Opens(db, id, f, c, now) then SettleBound(c, user, product, bound) else bound
  }

  lemma FreshOrRefused(db: DB, id: int, f: Fact, c: Option<Contract>, user: int, product: int, bound: int, now: int)
    requires Inv(db) && Entitled(db) && SettlementRequest(db, id, f, c) && db.HasOrder(id) && ValidateFact(db.Ord(id), f) == {}
    requires c.Some? ==> Settles(db.Ord(id), id, f.provider, f.ext, c.value)
    requires db.Ord(id).status == Pending && db.Ord(id).pay == PayPending
    ensures Lawful(db, SettleOnce(db, id, f, c, now).db, user, product, bound, SettlementBound(db, id, f, c, user, product, bound, now), now)
  {
    ValidMoney(db.Ord(id), f);
    SettlementFacts(db, id, f);
    if SettleOnce(db, id, f, c, now).errs == {} {
      FreshAccess(db, id, f, c, user, product, bound, now);
    } else {
      SettleFreshShape(db, id, f, c, now);
      Still(db, user, product, bound, bound, now);
    }
  }

  lemma SettleOnceAccess(db: DB, id: int, f: Fact, c: Option<Contract>, user: int, product: int, bound: int, now: int)
    requires Inv(db) && Entitled(db) && SettlementRequest(db, id, f, c)
    ensures Lawful(db, SettleOnce(db, id, f, c, now).db, user, product, bound, SettlementBound(db, id, f, c, user, product, bound, now), now)
  {
    if !(db.HasOrder(id) && ValidateFact(db.Ord(id), f) == {} && (c.Some? ==> Settles(db.Ord(id), id, f.provider, f.ext, c.value))) {
      Still(db, user, product, bound, bound, now);
    } else if db.Ord(id).status != Pending || db.Ord(id).pay != PayPending {
      ValidMoney(db.Ord(id), f);
      ReplayAccess(db, id, f, c, user, product, bound, now);
    } else {
      FreshOrRefused(db, id, f, c, user, product, bound, now);
    }
  }

  /** Recording after a refused settlement adds no access. */
  lemma SettleTail(db: DB, id: int, f: Fact, c: Option<Contract>, now: int)
    ensures Plain(SettleOnce(db, id, f, c, now).db, Settle(db, id, f, c, now).0)
  {
    var s := SettleOnce(db, id, f, c, now);
    OrdersPlain(s.db, s.db);
    if PaymentIdentityConflict in s.errs {
      RecordAnomalyPlain(s.db, AnomalyFromFact(id, s.fact, IdentityConflict), now);
    } else if SubscriptionOrderConflict in s.errs && c.Some? {
      RecordUnexpectedPlain(s.db, id, s.fact, EntitlementConflict, now);
    }
  }

  lemma SettleAccess(db: DB, id: int, f: Fact, c: Option<Contract>, user: int, product: int, bound: int, now: int)
    requires Inv(db) && Entitled(db) && SettlementRequest(db, id, f, c)
    ensures Lawful(db, Settle(db, id, f, c, now).0, user, product, bound, SettlementBound(db, id, f, c, user, product, bound, now), now)
  {
    var s := SettleOnce(db, id, f, c, now);
    SettleOnceAccess(db, id, f, c, user, product, bound, now);
    SettleOnceInv(db, id, f, c, now);
    SettleTail(db, id, f, c, now);
    PlainAccess(s.db, Settle(db, id, f, c, now).0, user, product, SettlementBound(db, id, f, c, user, product, bound, now), now);
  }

  // ----- renewals -----

  /** A renewal charge accepted for the first time. */
  predicate Renews(db: DB, id: int, f: Fact, c: Contract, now: int) {
    FindAttempt(db.attempts, f.provider, f.ext).None? && RenewOnce(db, id, f, c, now).1 == {}
  }

  function Period(db: DB, id: int): int {
    if db.HasOrder(id) then db.Ord(id).subDays * DAY + DAY else 0
  }

  function RenewBound(db: DB, id: int, f: Fact, c: Contract, user: int, product: int, bound: int, now: int): int {
    if Renews(db, id, f, c, now) && c.Key() == (user, product) then Max(bound, now) + Period(db, id) else bound
  }

  /** Each first-time renewal strictly extends the contract it belongs to, by at most one
      period and a day past the later of now and the old expiry, and changes nothing else
      about it. */
  lemma RenewalsExtend(db: DB, id: int, f: Fact, c: Contract, now: int)
    requires Renews(db, id, f, c, now)
    ensures db.HasOrder(id) && db.Ord(id).subDays > 0
    ensures var key := (db.Ord(id).user, db.Ord(id).subProduct);
      var db' := RenewOnce(db, id, f, c, now).0;
      && c.Key() == key && key in db.subs && key in db'.subs
      && db.subs[key].order == id
      && db'.subs[key] == db.subs[key].(expires := c.expires)
      && db.subs[key].expires < c.expires <= Max(db.subs[key].expires, now) + Period(db, id)
      && (forall k :: k in db.subs && k != key ==> k in db'.subs && db'.subs[k] == db.subs[k])
      && db'.subs.Keys == db.subs.Keys
      && db'.attempts == db.attempts + [AttemptOf(id, f, Succeeded, Some(c.expires), now)]
  {
  }

  /** A renewal replay re-installs at most the recorded period. */
  lemma ExistingSubs(db: DB, id: int, i: nat, f: Fact, c: Contract, user: int, product: int, bound: int, now: int)
    requires db.HasOrder(id) && i < |db.attempts| && f.entitlement == Some(c.expires)
    ensures var db' := RenewExisting(db, id, i, f, c, now).0;
      && OwnersKept(db.subs, db'.subs, now) && db'.orders == db.orders
      && (ExpiryWithin(db.subs, user, product, bound) && (c.Key() == (user, product) ==> db'.subs == db.subs || c.expires <= bound) ==>
            ExpiryWithin(db'.subs, user, product, bound))
      && (db'.subs != db.subs && db.attempts[i].entitlement.Some? ==> db.attempts[i].entitlement == f.entitlement)
  {
  }

  lemma ExistingAccess(db: DB, id: int, i: nat, f: Fact, c: Contract, user: int, product: int, bound: int, now: int)
    requires Books(db) && Entitled(db) && db.HasOrder(id) && i < |db.attempts| && f.entitlement == Some(c.expires)
    requires Settles(db.Ord(id), id, f.provider, f.ext, c)
    ensures Lawful(db, RenewExisting(db, id, i, f, c, now).0, user, product, bound, bound, now)
  {
    var db' := RenewExisting(db, id, i, f, c, now).0;
    var a := db.attempts[i];
    assert Recorded(db, a);
    if a.status == Succeeded && a.order == id {
      ExistingSubs(db, id, i, f, c, user, product, bound, now);
      assert db'.attempts == db.attempts;
      SameTablesPeriods(db, db', user, product, bound);
      if (user, product) == c.Key() { assert Concerns(db, a, user, product); }
    } else {
      QuarantinedRenewal(db, id, i, f, c, now);
      PlainAccess(db, db', user, product, bound, now);
    }
  }

  lemma QuarantinedRenewal(db: DB, id: int, i: nat, f: Fact, c: Contract, now: int)
    requires db.HasOrder(id) && i < |db.attempts| && f.entitlement.Some?
    requires db.attempts[i].status != Succeeded || db.attempts[i].order != id
    ensures Plain(db, RenewExisting(db, id, i, f, c, now).0)
  {
  }

  lemma FreshRenewal(db: DB, id: int, f: Fact, c: Contract, user: int, product: int, bound: int, now: int)
    requires Books(db) && Entitled(db) && Renews(db, id, f, c, now)
    ensures Lawful(db, RenewOnce(db, id, f, c, now).0, user, product, bound, RenewBound(db, id, f, c, user, product, bound, now), now)
  {
    RenewalsExtend(db, id, f, c, now);
    RenewOnceExtends(db, id, f, c, now);
    var db' := RenewOnce(db, id, f, c, now).0;
    var bound' := RenewBound(db, id, f, c, user, product, bound, now);
    if ExpiryWithin(db.subs, user, product, bound) {
      SettledPeriods(db, db', AttemptOf(id, f, Succeeded, Some(c.expires), now), user, product, bound, bound');
    } else {
      SettledPeriods(db, db', AttemptOf(id, f, Succeeded, Some(c.expires), now), user, product, bound, Max(bound', c.expires));
    }
  }

  lemma RenewOnceShape(db: DB, id: int, f: Fact, c: Contract, now: int)
    requires RenewOnce(db, id, f, c, now).0 != db && !Renews(db, id, f, c, now)
    ensures FindAttempt(db.attempts, f.provider, f.ext).Some? && db.HasOrder(id) && f.entitlement == Some(c.expires)
    ensures Settles(db.Ord(id), id, f.provider, f.ext, c)
    ensures RenewOnce(db, id, f, c, now)
         == RenewExisting(db, id, FindAttempt(db.attempts, f.provider, f.ext).value, f, c, now)
  {
  }

  lemma RenewOnceAccess(db: DB, id: int, f: Fact, c: Contract, user: int, product: int, bound: int, now: int)
    requires Inv(db) && Entitled(db)
    ensures Lawful(db, RenewOnce(db, id, f, c, now).0, user, product, bound, RenewBound(db, id, f, c, user, product, bound, now), now)
  {
    if Renews(db, id, f, c, now) {
      FreshRenewal(db, id, f, c, user, product, bound, now);
    } else if RenewOnce(db, id, f, c, now).0 == db {
      Still(db, user, product, bound, bound, now);
    } else {
      RenewOnceShape(db, id, f, c, now);
      ExistingAccess(db, id, FindAttempt(db.attempts, f.provider, f.ext).value, f, c, user, product, bound, now);
    }
  }

  lemma RenewTail(db: DB, id: int, f: Fact, c: Contract, now: int)
    ensures Renew(db, id, f, c, now).0 == db || Plain(RenewOnce(db, id, f, c, now).0, Renew(db, id, f, c, now).0)
  {
    var (once, errs) := RenewOnce(db, id, f, c, now);
    OrdersPlain(once, once);
    if RenewalReason(errs).Some? { RecordUnexpectedPlain(once, id, f, RenewalReason(errs).value, now); }
  }

  lemma RenewAccess(db: DB, id: int, f: Fact, c: Contract, user: int, product: int, bound: int, now: int)
    requires Inv(db) && Entitled(db)
    ensures Lawful(db, Renew(db, id, f, c, now).0, user, product, bound, RenewBound(db, id, f, c, user, product, bound, now), now)
  {
    RenewTail(db, id, f, c, now);
    if Renew(db, id, f, c, now).0 != db {
      var once := RenewOnce(db, id, f, c, now).0;
      RenewOnceAccess(db, id, f, c, user, product, bound, now);
      RenewOnceInv(db, id, f, c, now);
      PlainAccess(once, Renew(db, id, f, c, now).0, user, product, RenewBound(db, id, f, c, user, product, bound, now), now);
    }
  }

  // ----- refunds and the subscription's own life -----

  lemma RollBackLawful(db: DB, order: int, p: Provider, entitlement: Option<int>, full: bool, user: int, product: int, bound: int, now: int)
    requires db.HasOrder(order) && Within(db, user, product, bound)
    ensures ExpiryWithin(RollBack(db, order, p, entitlement, full, now).subs, user, product, bound)
  {
  }

  lemma RollBackOwners(db: DB, order: int, p: Provider, entitlement: Option<int>, full: bool, now: int)
    requires db.HasOrder(order)
    ensures OwnersKept(db.subs, RollBack(db, order, p, entitlement, full, now).subs, now)
  {
  }

  lemma RefundAccess(db: DB, i: nat, r: Refund, user: int, product: int, bound: int, now: int)
    requires Books(db) && Entitled(db) && i < |db.attempts| && db.HasOrder(r.order)
    ensures Lawful(db, EnterRefund(db, i, r, RefundRollback(db, i, r, now)), user, product, bound, bound, now)
  {
    var db' := EnterRefund(db, i, r, RefundRollback(db, i, r, now));
    var db1 := db.(refunds := db.refunds + [r]);
    var a := db.attempts[i];
    var full := RefundedOf(db.refunds, a) + r.amount == a.amount;
    RollBackOwners(db1, r.order, r.provider, a.entitlement, full, now);
    SameTablesPeriods(db, db1, user, product, bound);
    if Within(db, user, product, bound) { RollBackLawful(db1, r.order, r.provider, a.entitlement, full, user, product, bound, now); }
    OrderRowPeriods(db, db', r.order, user, product, bound);
  }

  /** Rewriting an order's payment state moves no period. */
  lemma OrderRowPeriods(db: DB, db': DB, id: int, user: int, product: int, bound: int)
    requires db'.attempts == db.attempts && db.HasOrder(id) && |db'.orders| == |db.orders| && db.subs.Keys <= db'.subs.Keys
    requires forall k :: 0 <= k < |db.orders| ==> db'.orders[k].user == db.orders[k].user && db'.orders[k].subProduct == db.orders[k].subProduct
    ensures PeriodsWithin(db, user, product, bound) ==> PeriodsWithin(db', user, product, bound)
    ensures Entitled(db) ==> Entitled(db')
  {
  }

  lemma RefundOnceAccess(db: DB, f: RefundFact, user: int, product: int, bound: int, now: int)
    requires Inv(db) && Entitled(db)
    ensures Lawful(db, RefundOnce(db, f, now).0, user, product, bound, bound, now)
  {
    if RefundOnce(db, f, now).0 == db {
      Still(db, user, product, bound, bound, now);
    } else {
      var p := f.name.Normalized().value;
      RefundAccess(db, FindAttempt(db.attempts, p, f.parent).value, RefundRow(f, p, now), user, product, bound, now);
    }
  }

  lemma RefusedRefund(db: DB, f: RefundFact, now: int)
    ensures var (once, errs) := RefundOnce(db, f, now);
      RecordRefund(db, f, now).0
        == if RefusalReason(errs).None? then once
           else RecordAnomaly(once, RefundAnomaly(once, f, RefusalReason(errs).value), now).0
  {
  }

  lemma RecordRefundAccess(db: DB, f: RefundFact, user: int, product: int, bound: int, now: int)
    requires Inv(db) && Entitled(db)
    ensures Lawful(db, RecordRefund(db, f, now).0, user, product, bound, bound, now)
  {
    RefundOnceAccess(db, f, user, product, bound, now);
    RefundOnceInv(db, f, now);
    RefusedRefund(db, f, now);
    var (once, errs) := RefundOnce(db, f, now);
    if RefusalReason(errs).Some? {
      var a := RefundAnomaly(once, f, RefusalReason(errs).value);
      RecordAnomalyPlain(once, a, now);
      PlainAccess(once, RecordAnomaly(once, a, now).0, user, product, bound, now);
    }
  }

  lemma IngestRefundAccess(db: DB, f: RefundFact, user: int, product: int, bound: int, now: int)
    requires Entitled(db) && Lawful(db, RecordRefund(db, f, now).0, user, product, bound, bound, now)
    ensures Lawful(db, IngestRefund(db, f, now).0, user, product, bound, bound, now)
  {
  }

  /** Cancelling and expiring move no expiry and no owner. */
  lemma LifecycleAccess(db: DB, s: Step, user: int, product: int, bound: int)
    requires Entitled(db) && (s.op.CancelSubscription? || s.op.ExpireOverdue?)
    ensures Lawful(db, Apply(db, s), user, product, bound, bound, s.now)
  {
    SameTablesPeriods(db, Apply(db, s), user, product, bound);
  }

  // ----- steps and runs -----

  /** The settlement transaction of an acceptable receipt. */
  predicate Requested(db: DB, r: Receipt, now: int) {
    db.HasOrder(r.order) && RequestOf(db.Ord(r.order), r, now).Some?
  }

  function RequestedBound(db: DB, r: Receipt, user: int, product: int, bound: int, now: int): int
    requires Requested(db, r, now)
  {
    var q := RequestOf(db.Ord(r.order), r, now).value;
    SettlementBound(db, r.order, q.fact, q.contract, user, product, bound, now)
  }

  /** The bound after a step. */
  function StepBound(db: DB, s: Step, user: int, product: int, bound: int): int {
    match s.op
    case SettleReceipt(r) => if Requested(db, r, s.now) then RequestedBound(db, r, user, product, bound, s.now) else bound
    case RenewCharge(id, f, c) => RenewBound(db, id, f, c, user, product, bound, s.now)
    case _ => bound
  }

  lemma SettleStepAccess(db: DB, s: Step, user: int, product: int, bound: int)
    requires Inv(db) && Entitled(db) && s.op.SettleReceipt?
    ensures Lawful(db, Apply(db, s), user, product, bound, StepBound(db, s, user, product, bound), s.now)
  {
    var r := s.op.receipt;
    assert Apply(db, s) == SettleStep(db, r, s.now).0;
    if Requested(db, r, s.now) {
      var q := RequestOf(db.Ord(r.order), r, s.now).value;
      RequestIsSettlement(db, r, s.now);
      SettleAccess(db, r.order, q.fact, q.contract, user, product, bound, s.now);
    } else {
      Still(db, user, product, bound, bound, s.now);
    }
  }

  lemma RenewStepAccess(db: DB, s: Step, user: int, product: int, bound: int)
    requires Inv(db) && Entitled(db) && s.op.RenewCharge?
    ensures Lawful(db, Apply(db, s), user, product, bound, StepBound(db, s, user, product, bound), s.now)
  {
    assert Apply(db, s) == Renew(db, s.op.id, s.op.fact, s.op.contract, s.now).0;
    RenewAccess(db, s.op.id, s.op.fact, s.op.contract, user, product, bound, s.now);
  }

  lemma RefundStepAccess(db: DB, s: Step, user: int, product: int, bound: int)
    requires Inv(db) && Entitled(db) && s.op.RecordRefundFact?
    ensures Lawful(db, Apply(db, s), user, product, bound, bound, s.now)
  {
    RefundIsOneStep(db, s);
    RecordRefundAccess(db, s.op.refund, user, product, bound, s.now);
  }

  lemma IngestStepAccess(db: DB, s: Step, user: int, product: int, bound: int)
    requires Inv(db) && Entitled(db) && s.op.IngestRefundFact?
    ensures Lawful(db, Apply(db, s), user, product, bound, bound, s.now)
  {
    IngestIsOneStep(db, s);
    RecordRefundAccess(db, s.op.refund, user, product, bound, s.now);
    IngestRefundAccess(db, s.op.refund, user, product, bound, s.now);
  }

  lemma CreatePlain(db: DB, d: Draft, now: int)
    ensures Plain(db, CreateOrder(db, d, now).0)
  {
  }

  lemma CancelPlain(db: DB, id: int, user: int)
    ensures Plain(db, CancelOrder(db, id, user).0)
  {
  }

  lemma DeliverPlain(db: DB, id: int)
    ensures Plain(db, Deliver(db, id).0)
  {
  }

  lemma OrderStepPlain(db: DB, s: Step)
    requires s.op.Create? || s.op.Cancel? || s.op.DeliverOrder?
    ensures Plain(db, Apply(db, s))
  {
    match s.op {
      case Create(d) => CreatePlain(db, d, s.now);
      case Cancel(id, user) => CancelPlain(db, id, user);
      case DeliverOrder(id) => DeliverPlain(db, id);
    }
  }

  lemma CaptureStepPlain(db: DB, s: Step)
    requires s.op.RecordUnexpectedCharge? || s.op.RecordFact? || s.op.IngestCaptureFact?
    ensures Plain(db, Apply(db, s))
  {
    match s.op {
      case RecordUnexpectedCharge(id, f, reason) => RecordUnexpectedPlain(db, id, f, reason, s.now);
      case RecordFact(a) => RecordAnomalyPlain(db, a, s.now);
      case IngestCaptureFact(id, f) => IngestCapturePlain(db, id, f, s.now);
    }
  }

  lemma ResolveStepPlain(db: DB, s: Step)
    requires s.op.ResolveReview?
    ensures Plain(db, Apply(db, s))
  {
    assert Apply(db, s) == Resolve(db, s.op.request).0;
    ResolvePlain(db, s.op.request);
  }

  /** The steps that neither settle, renew nor refund, and leave subscriptions alone. */
  predicate IsPlain(op: Op) {
    op.Create? || op.Cancel? || op.DeliverOrder? || op.RecordUnexpectedCharge? || op.RecordFact? || op.IngestCaptureFact? || op.ResolveReview?
  }

  lemma PlainStep(db: DB, s: Step)
    requires IsPlain(s.op)
    ensures Plain(db, Apply(db, s))
  {
    match s.op {
      case ResolveReview(_) => ResolveStepPlain(db, s);
      case Create(_) => OrderStepPlain(db, s);
      case Cancel(_, _) => OrderStepPlain(db, s);
      case DeliverOrder(_) => OrderStepPlain(db, s);
      case _ => CaptureStepPlain(db, s);
    }
  }

  lemma PlainStepAccess(db: DB, s: Step, user: int, product: int, bound: int)
    requires Inv(db) && Entitled(db) && IsPlain(s.op)
    ensures Lawful(db, Apply(db, s), user, product, bound, bound, s.now)
  {
    PlainStep(db, s);
    PlainAccess(db, Apply(db, s), user, product, bound, s.now);
  }

  lemma StepAccess(db: DB, s: Step, user: int, product: int, bound: int)
    requires Inv(db) && Entitled(db)
    ensures Lawful(db, Apply(db, s), user, product, bound, StepBound(db, s, user, product, bound), s.now)
  {
    match s.op {
      case SettleReceipt(_) => SettleStepAccess(db, s, user, product, bound);
      case RenewCharge(_, _, _) => RenewStepAccess(db, s, user, product, bound);
      case RecordRefundFact(_) => RefundStepAccess(db, s, user, product, bound);
      case IngestRefundFact(_) => IngestStepAccess(db, s, user, product, bound);
      case CancelSubscription(_, _) => LifecycleAccess(db, s, user, product, bound);
      case ExpireOverdue => LifecycleAccess(db, s, user, product, bound);
      case _ => PlainStepAccess(db, s, user, product, bound);
    }
  }

  lemma {:induction false} RunEntitled(db: DB, steps: seq<Step>)
    requires Inv(db) && Entitled(db)
    ensures Entitled(Run(db, steps))
  {
    if |steps| > 0 {
      RunKeeps(db, steps[..|steps| - 1]);
      RunEntitled(db, steps[..|steps| - 1]);
      StepAccess(Run(db, steps[..|steps| - 1]), steps[|steps| - 1], 0, 0, 0);
    }
  }

  /** A contract changes hands only after it has lapsed, in every reachable state. */
  lemma ContractsChangeAfterLapse(stock: map<int, int>, promos: map<string, int>, steps: seq<Step>, s: Step, user: int, product: int)
    requires (user, product) in Run(Genesis(stock, promos), steps).subs
    ensures var db := Run(Genesis(stock, promos), steps);
      var db' := Apply(db, s);
      && (user, product) in db'.subs
      && (db'.subs[(user, product)].order != db.subs[(user, product)].order
          || db'.subs[(user, product)].charge != db.subs[(user, product)].charge
          ==> !Grants(db.subs[(user, product)], s.now))
  {
    GenesisInv(stock, promos);
    RunKeeps(Genesis(stock, promos), steps);
    RunEntitled(Genesis(stock, promos), steps);
    StepAccess(Run(Genesis(stock, promos), steps), s, user, product, 0);
  }

  /** First-time renewals of this user and product in a run. */
  predicate IsRenewal(db: DB, s: Step, user: int, product: int) {
    s.op.RenewCharge? && s.op.contract.Key() == (user, product) && Renews(db, s.op.id, s.op.fact, s.op.contract, s.now)
  }

  function Renewals(db: DB, steps: seq<Step>, user: int, product: int): nat {
    if |steps| == 0 then 0
    else
      Renewals(db, steps[..|steps| - 1], user, product)
      + if IsRenewal(Run(db, steps[..|steps| - 1]), steps[|steps| - 1], user, product) then 1 else 0
  }

  /** The step settles an order for this user and product and so opens a contract. A
      redelivered or refused settlement opens none. */
  predicate OpensContract(db: DB, s: Step, user: int, product: int) {
    s.op.SettleReceipt? && Requested(db, s.op.receipt, s.now)
    && db.Ord(s.op.receipt.order).user == user && db.Ord(s.op.receipt.order).subProduct == product
    && var q := RequestOf(db.Ord(s.op.receipt.order), s.op.receipt, s.now).value;
       Opens(db, s.op.receipt.order, q.fact, q.contract, s.now)
  }

  /** No step of the run opens a contract for this user and product. */
  predicate OneContract(db: DB, steps: seq<Step>, user: int, product: int) {
    |steps| == 0
    || (OneContract(db, steps[..|steps| - 1], user, product)
        && !OpensContract(Run(db, steps[..|steps| - 1]), steps[|steps| - 1], user, product))
  }

  /** A period and a day, for every order of this user and product. */
  ghost predicate TermsAtMost(db: DB, user: int, product: int, term: int) {
    forall i :: 0 <= i < |db.orders| && db.orders[i].user == user && db.orders[i].subProduct == product ==>
      db.orders[i].subDays * DAY + DAY <= term
  }

  /** How far ahead of `latest` a receipt may open a contract: two periods and a day. */
  function Reach(latest: int, term: int): int {
    latest + 2 * term - DAY
  }

  lemma OpeningReaches(db: DB, s: Step, user: int, product: int, bound: int, latest: int, term: int)
    requires OpensContract(db, s, user, product) && s.now <= latest && Reach(latest, term) <= bound
    requires TermsAtMost(db, user, product, term)
    ensures StepBound(db, s, user, product, bound) <= bound
  {
    var o := db.Ord(s.op.receipt.order);
    assert db.orders[s.op.receipt.order - 1] == o;
  }

  lemma RenewalReaches(db: DB, s: Step, user: int, product: int, bound: int, latest: int, term: int)
    requires IsRenewal(db, s, user, product) && s.now <= latest <= bound && TermsAtMost(db, user, product, term)
    ensures StepBound(db, s, user, product, bound) <= bound + term
  {
    RenewalsExtend(db, s.op.id, s.op.fact, s.op.contract, s.now);
    assert db.orders[s.op.id - 1].subDays * DAY + DAY <= term;
  }

  lemma OthersReachNothing(db: DB, s: Step, user: int, product: int, bound: int)
    requires !OpensContract(db, s, user, product) && !IsRenewal(db, s, user, product)
    ensures StepBound(db, s, user, product, bound) == bound
  {
  }

  /** What a step adds to the bound: a term for a renewal, nothing otherwise. */
  function Added(db: DB, s: Step, user: int, product: int, term: nat): nat {
    if IsRenewal(db, s, user, product) then term else 0
  }

  lemma StepReaches(db: DB, s: Step, user: int, product: int, bound: int, latest: int, term: nat)
    requires s.now <= latest <= bound && TermsAtMost(db, user, product, term)
    requires !OpensContract(db, s, user, product) || Reach(latest, term) <= bound
    ensures StepBound(db, s, user, product, bound) <= bound + Added(db, s, user, product, term)
  {
    if OpensContract(db, s, user, product) {
      OpeningReaches(db, s, user, product, bound, latest, term);
    } else if IsRenewal(db, s, user, product) {
      RenewalReaches(db, s, user, product, bound, latest, term);
    } else {
      OthersReachNothing(db, s, user, product, bound);
    }
  }

  lemma TermsStay(db: DB, db': DB, user: int, product: int, term: int)
    requires KeepsOrders(db.orders, db'.orders) && TermsAtMost(db', user, product, term)
    ensures TermsAtMost(db, user, product, term)
  {
    forall i | 0 <= i < |db.orders| && db.orders[i].user == user && db.orders[i].subProduct == product
      ensures db.orders[i].subDays * DAY + DAY <= term
    {
      assert KeepsOrder(db.orders[i], db'.orders[i]);
    }
  }

  lemma BoundedStep(db: DB, s: Step, user: int, product: int, bound: int, latest: int, term: nat)
    requires Inv(db) && Entitled(db) && Within(db, user, product, bound) && s.now <= latest <= bound
    requires !OpensContract(db, s, user, product) || Reach(latest, term) <= bound
    requires TermsAtMost(db, user, product, term)
    ensures Within(Apply(db, s), user, product, bound + Added(db, s, user, product, term))
  {
    StepAccess(db, s, user, product, bound);
    StepReaches(db, s, user, product, bound, latest, term);
    WithinWider(Apply(db, s), user, product, StepBound(db, s, user, product, bound), bound + Added(db, s, user, product, term));
  }

  /** What the renewals of a run add to `start`. */
  function PaidUntil(db: DB, steps: seq<Step>, user: int, product: int, start: int, term: nat): (r: int)
    ensures r >= start
  {
    if |steps| == 0 then start
    else
      PaidUntil(db, steps[..|steps| - 1], user, product, start, term)
      + Added(Run(db, steps[..|steps| - 1]), steps[|steps| - 1], user, product, term)
  }

  /** n terms, one at a time. */
  function Terms(n: nat, term: nat): nat {
    if n == 0 then 0 else Terms(n - 1, term) + term
  }

  lemma {:induction false} TermsMultiply(n: nat, term: nat)
    ensures Terms(n, term) == n * term
  {
    if n > 0 { TermsMultiply(n - 1, term); }
  }

  lemma {:induction false} PaidUntilClosed(db: DB, steps: seq<Step>, user: int, product: int, start: int, term: nat)
    ensures PaidUntil(db, steps, user, product, start, term) == start + Terms(Renewals(db, steps, user, product), term)
  {
    if |steps| > 0 {
      PaidUntilClosed(db, steps[..|steps| - 1], user, product, start, term);
    }
  }

  lemma EarlierTerms(db: DB, s: Step, user: int, product: int, term: int)
    requires Inv(db) && TermsAtMost(Apply(db, s), user, product, term)
    ensures TermsAtMost(db, user, product, term)
  {
    StepKeeps(db, s);
    TermsStay(db, Apply(db, s), user, product, term);
  }

  lemma RunBefore(db: DB, steps: seq<Step>, user: int, product: int, term: int)
    requires |steps| > 0 && Inv(db) && Entitled(db) && TermsAtMost(Run(db, steps), user, product, term)
    ensures var before := Run(db, steps[..|steps| - 1]);
      && Inv(before) && Entitled(before) && TermsAtMost(before, user, product, term)
      && Run(db, steps) == Apply(before, steps[|steps| - 1])
  {
    RunKeeps(db, steps[..|steps| - 1]);
    RunEntitled(db, steps[..|steps| - 1]);
    EarlierTerms(Run(db, steps[..|steps| - 1]), steps[|steps| - 1], user, product, term);
  }

  predicate NoLaterThan(steps: seq<Step>, latest: int) {
    |steps| == 0 || (steps[|steps| - 1].now <= latest && NoLaterThan(steps[..|steps| - 1], latest))
  }

  /** The bound after a run, as a statement about its last state. */
  ghost predicate BoundedAfter(db: DB, steps: seq<Step>, user: int, product: int, start: int, term: nat) {
    Within(Run(db, steps), user, product, PaidUntil(db, steps, user, product, start, term))
  }

  lemma BoundedFrom(db: DB, steps: seq<Step>, user: int, product: int, start: int, latest: int, term: nat)
    requires |steps| > 0 && Inv(db) && Entitled(db) && steps[|steps| - 1].now <= latest <= start
    requires OneContract(db, steps, user, product) || Reach(latest, term) <= start
    requires TermsAtMost(Run(db, steps), user, product, term)
    requires BoundedAfter(db, steps[..|steps| - 1], user, product, start, term)
    ensures BoundedAfter(db, steps, user, product, start, term)
  {
    var front := steps[..|steps| - 1];
    RunBefore(db, steps, user, product, term);
    BoundedStep(Run(db, front), steps[|steps| - 1], user, product, PaidUntil(db, front, user, product, start, term), latest, term);
  }

  lemma {:induction false} BoundedRun(db: DB, steps: seq<Step>, user: int, product: int, start: int, latest: int, term: nat)
    requires Inv(db) && Entitled(db) && Within(db, user, product, start) && latest <= start && NoLaterThan(steps, latest)
    requires OneContract(db, steps, user, product) || Reach(latest, term) <= start
    requires TermsAtMost(Run(db, steps), user, product, term)
    ensures BoundedAfter(db, steps, user, product, start, term)
  {
    if |steps| > 0 {
      RunBefore(db, steps, user, product, term);
      BoundedRun(db, steps[..|steps| - 1], user, product, start, latest, term);
      BoundedFrom(db, steps, user, product, start, latest, term);
    }
  }

  lemma GenesisEntitled(stock: map<int, int>, promos: map<string, int>, past: seq<Step>)
    ensures Inv(Run(Genesis(stock, promos), past)) && Entitled(Run(Genesis(stock, promos), past))
  {
    GenesisInv(stock, promos);
    RunKeeps(Genesis(stock, promos), past);
    RunEntitled(Genesis(stock, promos), past);
  }

  /** What access starts from: `initial`, or the clock, or, when the run opens a contract, the
      furthest a receipt may open one. */
  function Starting(db: DB, steps: seq<Step>, user: int, product: int, initial: int, latest: int, term: nat): int {
    Max(initial, if OneContract(db, steps, user, product) then latest else Max(latest, Reach(latest, term)))
  }

  /** Access is bounded by paid periods. Start from any reachable ledger in which neither
      the subscription nor a recorded period passes `initial`, and let `term` be the longest
      period of the user's orders for the product and a day. After any run, whatever
      settlements, refunds, redeliveries and decisions it holds, n first-time renewal charges
      have bought at most n terms past the later of `initial` and the clock; a run that opens
      a new contract may start from two periods and a day ahead of the clock. */
  lemma AccessIsBounded(stock: map<int, int>, promos: map<string, int>, past: seq<Step>, steps: seq<Step>,
                        user: int, product: int, initial: int, latest: int, term: nat)
    requires Within(Run(Genesis(stock, promos), past), user, product, initial) && NoLaterThan(steps, latest)
    requires TermsAtMost(Run(Run(Genesis(stock, promos), past), steps), user, product, term)
    ensures var start := Run(Genesis(stock, promos), past);
      ExpiryWithin(Run(start, steps).subs, user, product,
                   Starting(start, steps, user, product, initial, latest, term) + Renewals(start, steps, user, product) * term)
  {
    GenesisEntitled(stock, promos, past);
    var db := Run(Genesis(stock, promos), past);
    var start := Starting(db, steps, user, product, initial, latest, term);
    WithinWider(db, user, product, initial, start);
    BoundedRun(db, steps, user, product, start, latest, term);
    PaidUntilClosed(db, steps, user, product, start, term);
    TermsMultiply(Renewals(db, steps, user, product), term);
  }

  lemma WithinWider(db: DB, user: int, product: int, bound: int, wide: int)
    requires Within(db, user, product, bound) && bound <= wide
    ensures Within(db, user, product, wide)
  {
  }
}
