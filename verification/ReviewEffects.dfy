/** Operator decisions keep the invariant (internal/storage/payment_resolutions.go). */
module ReviewEffects {
  import opened Wrappers
  import opened Ledger
  import opened Tables
  import opened Reviews
  import opened Invariant
  import opened Effects

  /** Targets a case may resolve: unresolved rows of this order and rail, or the order itself. */
  predicate CaseTarget(db: DB, r: ReviewRequest, t: Target) {
    match t
    case EventTarget(e) =>
      e < |db.events| && OpenEvent(db, e) && db.events[e].order == r.order && On(db.events[e].provider) == r.provider
    case AnomalyTarget(i) => i < |db.anomalies|
    case OrderTarget(id) => id == r.order && db.HasOrder(id)
  }

  lemma CaseTargetsKnown(db: DB, r: ReviewRequest)
    requires CaseTargets(db, r).Some?
    ensures forall t :: t in CaseTargets(db, r).value ==> CaseTarget(db, r, t)
  {
  }

  ghost predicate Decided(db: DB, r: ReviewRequest, targets: set<Target>) {
    forall t :: t in targets ==> CaseTarget(db, r, t) && Decide(db, t, r.decision, r.result).Some?
  }

  lemma NewResolutionOK(db: DB, r: ReviewRequest, targets: set<Target>, e: nat)
    requires Decided(db, r, targets) && UniqueCaptures(db.attempts)
    requires e < |db.events| && ResolutionOK(db, e)
    ensures ResolutionOK(WithResolutions(db, r, targets), e)
  {
  }

  lemma ResolutionsAdded(db: DB, r: ReviewRequest, targets: set<Target>)
    requires Inv(db) && Decided(db, r, targets)
    ensures Resolutions(WithResolutions(db, r, targets))
  {
    var db' := WithResolutions(db, r, targets);
    forall t | t in db'.resolutions ensures TargetInRange(db', t) {
      if t in targets { assert CaseTarget(db, r, t); } else { assert TargetInRange(db, t); }
    }
    forall e: nat | e < |db'.events| ensures ResolutionOK(db', e) {
      assert ResolutionOK(db, e);
      NewResolutionOK(db, r, targets, e);
    }
  }

  lemma QuarantineResolved(db: DB, r: ReviewRequest, targets: set<Target>)
    requires Quarantine(db) && Decided(db, r, targets)
    ensures Quarantine(WithResolutions(db, r, targets))
  {
  }

  lemma ResolvedInv(db: DB, r: ReviewRequest, targets: set<Target>)
    requires Inv(db) && Decided(db, r, targets)
    ensures Inv(WithResolutions(db, r, targets))
  {
    ResolutionsAdded(db, r, targets);
    QuarantineResolved(db, r, targets);
  }

  /** Once the named targets are resolved and no other rail has any, nothing is open. */
  lemma NothingOpen(db: DB, r: ReviewRequest, targets: set<Target>)
    requires db.HasOrder(r.order) && CaseTargets(db, r) == Some(targets) && !OpenElsewhere(db, r.order, r.provider)
    requires Decided(db, r, targets)
    ensures AllResolved(WithResolutions(db, r, targets), r.order)
  {
  }

  function Closing(o: Order, p: Projection): Order {
    o.(status := p.status, axis := if p.status == Cancelled then OrderCancelled else o.axis, pay := p.pay)
  }

  /** The derived projection is the one the ledger supports. */
  lemma DerivedOK(db: DB, id: int, p: Projection)
    requires AttemptsOK(|db.orders|, db.attempts) && Bounded(db.attempts, db.refunds)
    requires db.HasOrder(id) && OrderOK(db.attempts, db.refunds, id, db.Ord(id)) && db.Ord(id).pay == NeedsReview
    requires DeriveProjection(db, id) == Some(p)
    ensures OrderOK(db.attempts, db.refunds, id, Closing(db.Ord(id), p))
  {
  }

  lemma ClosingOK(db: DB, r: ReviewRequest, targets: set<Target>, p: Projection)
    requires Inv(db) && db.HasOrder(r.order) && db.Ord(r.order).pay == NeedsReview
    requires Derive(db, r, targets) == Some(p)
    ensures OrderOK(db.attempts, db.refunds, r.order, Closing(db.Ord(r.order), p))
  {
    var o := db.Ord(r.order);
    assert OrderOK(db.attempts, db.refunds, r.order, db.orders[r.order - 1]);
    if DeriveProjection(db, r.order) == Some(p) { DerivedOK(db, r.order, p); }
    // An explicit compensation needs a paid order without captures: there is none.
    if o.status == Paid || o.status == Delivered { PaidHasCapture(db, r.order); }
  }

  lemma PaidHasCapture(db: DB, id: int)
    requires db.HasOrder(id) && OrderOK(db.attempts, db.refunds, id, db.Ord(id))
    requires db.Ord(id).status == Paid || db.Ord(id).status == Delivered
    ensures HasCapture(db, id, Succeeded)
  {
    var o := db.Ord(id);
    var i: nat :| i < |db.attempts| && PaidWith(db.attempts[i], id, o.rail.value, o.paymentID);
  }

  lemma CloseInv(db: DB, r: ReviewRequest, targets: set<Target>)
    requires Inv(db) && CaseTargets(db, r) == Some(targets) && Decided(db, r, targets)
    requires db.HasOrder(r.order) ==> db.Ord(r.order).pay == NeedsReview
    ensures Inv(Close(db, r, targets).0)
  {
    ResolvedInv(db, r, targets);
    if db.HasOrder(r.order) && !OpenElsewhere(db, r.order, r.provider) && Derive(db, r, targets).Some? {
      var p := Derive(db, r, targets).value;
      ClosingOK(db, r, targets, p);
      NothingOpen(db, r, targets);
      OrderRewrite(WithResolutions(db, r, targets), r.order, Closing(db.Ord(r.order), p));
    }
  }

  lemma ResolveInv(db: DB, r: ReviewRequest)
    requires Inv(db)
    ensures Inv(Resolve(db, r).0)
  {
    if Resolve(db, r).0 != db {
      CaseTargetsKnown(db, r);
      CloseInv(db, r, CaseTargets(db, r).value);
    }
  }
}
