/**
 Where the ledger's promises stop, and exactly where: a paid order that can be dismissed,
 and a subscription order that can be confirmed twice.
 */
module Limits {
  import opened Wrappers
  import opened Ledger
  import opened Tables
  import opened Anomalies
  import opened Recording
  import opened Reviews
  import opened Subscriptions
  import opened Orders
  import opened Shop
  import opened Invariant
  import opened OrderEffects
  import opened Runs
  import opened Conservation
  import opened LedgerTheorems

  // ----- dismissing a paid order -----

  /** A provider-neutral dismissal (internal/storage/payment_resolutions.go:615-632). */
  function Dismissal(id: int): ReviewRequest {
    ReviewRequest(id, UnknownProvider, [], [], id, Some(Dismissed), "operator", "dismissed", Some(PayCancelled))
  }

  /** Under review with nothing left to decide but the order itself. */
  predicate Dismissable(db: DB, id: int) {
    Held(db, id) && AllResolved(db, id) && OrderTarget(id) !in db.resolutions
  }

  lemma NothingOpenTargets(db: DB, id: int, p: ReviewProvider)
    requires AllResolved(db, id)
    ensures OpenTargets(db, id, p) == {} && !OpenElsewhere(db, id, p)
  {
  }

  lemma DismissalCase(db: DB, id: int)
    requires Dismissable(db, id)
    ensures ValidRequest(Dismissal(id)) && NamedTargets(Dismissal(id)) == {OrderTarget(id)}
    ensures CaseTargets(db, Dismissal(id)) == Some({OrderTarget(id)}) && !ReplaysBatch(db, Dismissal(id))
    ensures Decide(db, OrderTarget(id), Some(Dismissed), Some(PayCancelled)) == Some(Dismissed)
  {
  }

  /** A dismissal cancels a paid order while its captures stay as they are. */
  lemma DismissalUnpays(db: DB, id: int)
    requires Earned(db, id) && Dismissable(db, id)
    ensures var (db', errs) := Resolve(db, Dismissal(id));
      errs == {} && db'.HasOrder(id) && db'.Ord(id).status == Cancelled && db'.Ord(id).pay == PayCancelled && db'.attempts == db.attempts
  {
    DismissalCase(db, id);
    NothingOpenTargets(db, id, UnknownProvider);
  }

  /** In a reachable ledger some step takes a paid order's status away if and only if the
      order is under review without any unresolved fact of its own. */
  lemma PaidIsLostExactly(db: DB, id: int)
    requires Reachable(db) && Earned(db, id)
    ensures (exists s: Step :: !Earned(Apply(db, s), id)) <==> Dismissable(db, id)
  {
    if s: Step :| !Earned(Apply(db, s), id) { OnlyDismissalUnpays(db, s, id); }
    if Dismissable(db, id) {
      DismissalStep(db, id);
      assert !Earned(Apply(db, Step(ResolveReview(Dismissal(id)), 0)), id);
    }
  }

  lemma DismissalStep(db: DB, id: int)
    requires Earned(db, id) && Dismissable(db, id)
    ensures !Earned(Apply(db, Step(ResolveReview(Dismissal(id)), 0)), id)
  {
    DismissalUnpays(db, id);
    assert Execute(db, Step(ResolveReview(Dismissal(id)), 0)) == Resolve(db, Dismissal(id));
  }

  /** How an order gets there: the fingerprint of an anomaly leaves out the order it
      proposes, so redelivering a recorded fact under another order flags that order and
      writes no row for it. */
  lemma RetryFlagsAnotherOrder(db: DB, f: AnomalyFact, now: int)
    requires Acceptable(f) && db.HasOrder(f.order) && AllResolved(db, f.order)
    requires FindAnomaly(db.anomalies, f).Some?
    requires AnomalyTarget(FindAnomaly(db.anomalies, f).value) !in db.resolutions
    requires f.at.Some? ==> db.anomalies[FindAnomaly(db.anomalies, f).value].at == f.at.value
    ensures var (db', errs) := RecordAnomaly(db, f, now);
      Held(db', f.order) && AllResolved(db', f.order) && db'.anomalies == db.anomalies && errs == {PaymentNeedsReview}
  {
  }

  // ----- a run that does it -----

  const CART: Draft := Draft(7, 1.0, 100, "", 0, 0, [])
  const CHARGE: Receipt := Receipt(1, Canonical(Stars), "charge", 7, XTR, 100, 0, Some(5), None)
  const PAID_ORDER: Order := OrderOf(CART).(status := Paid, axis := Placed, pay := Settled, rail := Some(Stars), paymentID := "charge")
  const CAPTURE: Attempt := Attempt(1, Stars, "charge", 7, 100, XTR, 0, Succeeded, None, 5)

  /** The same signed fact, proposed under one order and then under another. */
  function Stray(order: int): AnomalyFact {
    AnomalyFact(order, Some(Stars), Captured, "stray", "", 7, 50, XTR, 0, false, NoPayload, ReceiptMismatch, Some(6))
  }

  const BOUGHT: DB :=
    DB([PAID_ORDER], [CAPTURE], [Event(1, Some(0), Stars, Captured, "charge", 100, XTR, 0, EventSettled, 5)],
       [], [], map[], map[], map[], map[], [])

  const STRAYED: DB := BOUGHT.(anomalies := [AnomalyRow(BOUGHT, Stray(2), 6)])

  const FLAGGED: DB := STRAYED.(orders := [PAID_ORDER.(pay := NeedsReview)])

  lemma OrderIsPlaced()
    ensures Apply(Genesis(map[], map[]), Step(Create(CART), 0)) == Genesis(map[], map[]).(orders := [OrderOf(CART)])
  {
  }

  lemma OrderIsPaid()
    ensures Apply(Genesis(map[], map[]).(orders := [OrderOf(CART)]), Step(SettleReceipt(CHARGE), 5)) == BOUGHT
  {
  }

  lemma StrayIsKept()
    ensures Apply(BOUGHT, Step(RecordFact(Stray(2)), 6)) == STRAYED
    ensures Apply(STRAYED, Step(RecordFact(Stray(1)), 7)) == FLAGGED
  {
    assert !IsSpace(Stray(2).ext[0]) && !IsSpace(Stray(1).ext[0]);
    assert FindAnomaly(BOUGHT.anomalies, Stray(2)) == None;
    assert BOUGHT.anomalies + [AnomalyRow(BOUGHT, Stray(2), 6)] == STRAYED.anomalies;
    assert RetryOf(STRAYED.anomalies[0], Stray(1));
    assert FindAnomaly(STRAYED.anomalies, Stray(1)) == Some(0);
  }

  lemma ReachableThen(db: DB, s: Step)
    requires Reachable(db)
    ensures Reachable(Apply(db, s))
  {
    var stock: map<int, int>, promos: map<string, int>, steps: seq<Step> :| db == Run(Genesis(stock, promos), steps);
    assert (steps + [s])[..|steps|] == steps;
    assert Apply(db, s) == Run(Genesis(stock, promos), steps + [s]);
  }

  lemma FlaggedIsReachable()
    ensures Reachable(FLAGGED)
  {
    OrderIsPlaced();
    OrderIsPaid();
    StrayIsKept();
    assert Genesis(map[], map[]) == Run(Genesis(map[], map[]), []);
    ReachableThen(Genesis(map[], map[]), Step(Create(CART), 0));
    ReachableThen(Genesis(map[], map[]).(orders := [OrderOf(CART)]), Step(SettleReceipt(CHARGE), 5));
    ReachableThen(BOUGHT, Step(RecordFact(Stray(2)), 6));
    ReachableThen(STRAYED, Step(RecordFact(Stray(1)), 7));
  }

  /** The cancelled orders are not only unpaid ones: a buyer pays order 1, a stray fact is
      proposed for order 2 and then for order 1, and an operator can dismiss the paid order
      while its capture stays settled and unrefunded. */
  lemma APaidOrderIsLost()
    ensures Reachable(FLAGGED) && Earned(FLAGGED, 1) && Dismissable(FLAGGED, 1)
    ensures var db := Resolve(FLAGGED, Dismissal(1)).0;
      db.HasOrder(1) && db.Ord(1).status == Cancelled && db.attempts == [CAPTURE] && db.refunds == []
  {
    FlaggedIsReachable();
    assert AllResolved(FLAGGED, 1);
    DismissalUnpays(FLAGGED, 1);
    NothingOpenTargets(FLAGGED, 1, UnknownProvider);
    DismissalCase(FLAGGED, 1);
  }

  // ----- confirming a subscription order again -----

  /** The contract a replayed settlement asks for: the recorded period, if there is one. */
  function ReplayedContract(db: DB, id: int, f: Fact, c: Contract): Contract {
    match PersistedExpiry(db, id, f)
    case None => c
    case Some(t) => c.(expires := t)
  }

  function ReplayedFact(db: DB, id: int, f: Fact): Fact {
    match PersistedExpiry(db, id, f)
    case None => f
    case Some(t) => f.(entitlement := Some(t))
  }

  /** The order's own charge comes back while another contract holds its row. */
  predicate LosesItsRow(db: DB, id: int, f: Fact, c: Contract, now: int) {
    && db.HasOrder(id) && ReplaysSettlement(db.Ord(id), f)
    && (f.entitlement.Some? ==> ReplayedFact(db, id, f) == f)
    && Activate(db.subs, ReplayedContract(db, id, f, c), now).None?
  }

  /** It does, and it agrees with the recorded capture. */
  predicate ConfirmedAgain(db: DB, id: int, f: Fact, c: Contract, now: int) {
    && LosesItsRow(db, id, f, c, now)
    && var i := FindAttempt(db.attempts, f.provider, f.ext);
       i.Some? && ExactFact(db.attempts[i.value], id, ReplayedFact(db, id, f))
  }

  lemma OwnSettledCapture(db: DB, id: int, f: Fact)
    requires Reachable(db) && db.HasOrder(id) && f.ext != "" && ReplaysSettlement(db.Ord(id), f)
    ensures var i := FindAttempt(db.attempts, f.provider, f.ext);
      i.Some? && PaidWith(db.attempts[i.value], id, f.provider, f.ext)
  {
    ReachableInv(db);
    OwnCharge(db, id, f.provider, f.ext);
  }

  /** Recording a settled capture again is silent exactly when it agrees with its row. */
  lemma SettledCaptureAgain(db: DB, id: int, f: Fact, reason: Reason, now: int)
    requires db.HasOrder(id) && ValidateFact(db.Ord(id), f) == {}
    requires var i := FindAttempt(db.attempts, f.provider, f.ext); i.Some? && PaidWith(db.attempts[i.value], id, f.provider, f.ext)
    ensures RecordUnexpected(db, id, f, reason, now).1 == {}
       <==> ExactFact(db.attempts[FindAttempt(db.attempts, f.provider, f.ext).value], id, f)
  {
  }

  lemma AgainShape(db: DB, id: int, f: Fact, c: Option<Contract>, now: int)
    requires NoLongerPayable(db, id) && ValidateFact(db.Ord(id), f) == {}
    requires c.Some? ==> Settles(db.Ord(id), id, f.provider, f.ext, c.value)
    ensures var s := SettleOnce(db, id, f, c, now);
      && s.errs != {}
      && (SubscriptionOrderConflict in s.errs <==> c.Some? && LosesItsRow(db, id, f, c.value, now))
      && (SubscriptionOrderConflict in s.errs ==> s.db == db && s.fact == ReplayedFact(db, id, f) && s.errs == {SubscriptionOrderConflict})
  {
  }

  /** An order that is no longer payable is confirmed again if and only if it is a
      subscription order whose own charge is redelivered as recorded while the contract's
      row has gone to someone else. */
  lemma ConfirmedAgainExactly(db: DB, id: int, f: Fact, c: Option<Contract>, now: int)
    requires Reachable(db) && NoLongerPayable(db, id) && ValidateFact(db.Ord(id), f) == {}
    requires c.Some? ==> Settles(db.Ord(id), id, f.provider, f.ext, c.value)
    ensures Settle(db, id, f, c, now).1 == {} <==> c.Some? && ConfirmedAgain(db, id, f, c.value, now)
  {
    AgainShape(db, id, f, c, now);
    if c.Some? && LosesItsRow(db, id, f, c.value, now) {
      ReplayIsRecordedExactly(db, id, f, now);
    }
  }

  lemma ReplayIsRecordedExactly(db: DB, id: int, f: Fact, now: int)
    requires Reachable(db) && db.HasOrder(id) && ValidateFact(db.Ord(id), f) == {} && ReplaysSettlement(db.Ord(id), f)
    ensures FindAttempt(db.attempts, f.provider, f.ext).Some?
    ensures RecordUnexpected(db, id, ReplayedFact(db, id, f), EntitlementConflict, now).1 == {}
       <==> ExactFact(db.attempts[FindAttempt(db.attempts, f.provider, f.ext).value], id, ReplayedFact(db, id, f))
  {
    ValidMoney(db.Ord(id), f);
    OwnSettledCapture(db, id, f);
    SettledCaptureAgain(db, id, ReplayedFact(db, id, f), EntitlementConflict, now);
  }
}
