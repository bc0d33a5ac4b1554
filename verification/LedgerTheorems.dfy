/** What the ledger guarantees in every reachable state, over every run. */
module LedgerTheorems {
  import opened Wrappers
  import opened Ledger
  import opened Tables
  import opened Anomalies
  import opened Recording
  import opened Reviews
  import opened Subscriptions
  import opened Orders
  import opened Shop
  import opened Invariant
  import opened OrderEffects
  import opened ReviewEffects
  import opened History
  import opened Runs
  import opened Conservation

  // ----- quarantine -----

  /** An unresolved event, or an unresolved anomaly recorded against an existing order,
      keeps the order in needs_review; outside needs_review every quarantined capture
      has been refunded exactly. */
  lemma QuarantineIsSound(db: DB)
    requires Reachable(db)
    ensures forall e: nat :: e < |db.events| && OpenEvent(db, e) ==> Held(db, db.events[e].order)
    ensures forall i: nat :: i < |db.anomalies| && db.anomalies[i].attached && OpenAnomaly(db, i) ==> Held(db, db.anomalies[i].order)
    ensures forall i: nat :: i < |db.attempts| && db.attempts[i].status == Quarantined && !Held(db, db.attempts[i].order) ==>
      RefundedOf(db.refunds, db.attempts[i]) == db.attempts[i].amount
  {
    ReachableInv(db);
    forall i: nat | i < |db.attempts| && db.attempts[i].status == Quarantined && !Held(db, db.attempts[i].order)
      ensures Closed(db.refunds, db.attempts[i])
    {
      ClosedOutsideReview(db, i);
    }
  }

  // ----- the books -----

  predicate OnlyEvent(db: DB, i: nat, e: nat) {
    && e < |db.events| && Mirrors(db.events[e], db.attempts) && db.events[e].attempt == Some(i)
    && forall k: nat :: k < |db.events| && db.events[k].kind == Captured && db.events[k].attempt == Some(i) ==> k == e
  }

  predicate RefundEventFor(e: Event, r: Refund) {
    e.kind == RefundedKind && e.provider == r.provider && e.ext == r.ext
  }

  predicate OnlyRefundEvent(db: DB, r: Refund, e: nat) {
    && e < |db.events| && RepeatsRefund(db.events[e], r)
    && forall k: nat :: k < |db.events| && RefundEventFor(db.events[k], r) ==> k == e
  }

  ghost predicate LoggedOnce(db: DB, i: nat) {
    exists e: nat :: OnlyEvent(db, i, e)
  }

  ghost predicate RefundLoggedOnce(db: DB, r: Refund) {
    exists e: nat :: OnlyRefundEvent(db, r, e)
  }

  lemma CaptureLoggedOnce(db: DB, i: nat)
    requires DoubleEntry(db.attempts, db.events, db.refunds) && i < |db.attempts|
    ensures LoggedOnce(db, i)
  {
    assert CaptureLogged(db.events, i);
    var e: nat :| e < |db.events| && db.events[e].kind == Captured && db.events[e].attempt == Some(i);
    assert EventOK(db.events[e], db.attempts, db.refunds);
    forall k: nat | k < |db.events| && db.events[k].kind == Captured && db.events[k].attempt == Some(i) ensures k == e {
      assert EventOK(db.events[k], db.attempts, db.refunds);
      assert SameKey(db.events[k], db.events[e]);
    }
    assert OnlyEvent(db, i, e);
  }

  lemma RefundEventOnce(db: DB, k: nat)
    requires DoubleEntry(db.attempts, db.events, db.refunds) && k < |db.refunds|
    ensures RefundLoggedOnce(db, db.refunds[k])
  {
    assert RefundLogged(db.events, db.refunds[k]);
    var e: nat :| e < |db.events| && RepeatsRefund(db.events[e], db.refunds[k]);
    forall j: nat | j < |db.events| && RefundEventFor(db.events[j], db.refunds[k]) ensures j == e {
      assert SameKey(db.events[j], db.events[e]);
    }
    assert OnlyRefundEvent(db, db.refunds[k], e);
  }

  /** An order's refunds never exceed its captures on any rail. */
  lemma OrderNeverNegative(rows: seq<Attempt>, refunds: seq<Refund>, id: int, p: Provider)
    requires UniqueCaptures(rows) && RefundsOK(rows, refunds)
    ensures 0 <= OrderRefunded(refunds, id, p) <= OrderCaptured(rows, id, p)
  {
    ExchangeLaw(rows, refunds, id, p);
    ClosedSums(rows, refunds, id, p);
  }

  /** Double entry: each capture and each refund has exactly one event with equal money,
      no capture is over-refunded, no attempt is left merely observed, and an order's
      captured minus refunded is never negative. */
  lemma BooksBalance(db: DB)
    requires Reachable(db)
    ensures forall i: nat :: i < |db.attempts| ==>
      && db.attempts[i].status != Observed && LoggedOnce(db, i)
      && 0 <= RefundedOf(db.refunds, db.attempts[i]) <= db.attempts[i].amount
    ensures forall k: nat :: k < |db.refunds| ==> RefundLoggedOnce(db, db.refunds[k]) && HasParent(db.attempts, db.refunds[k])
    ensures forall id, p :: 0 <= OrderRefunded(db.refunds, id, p) <= OrderCaptured(db.attempts, id, p)
  {
    ReachableInv(db);
    forall i: nat | i < |db.attempts|
      ensures db.attempts[i].status != Observed && LoggedOnce(db, i)
      ensures 0 <= RefundedOf(db.refunds, db.attempts[i]) <= db.attempts[i].amount
    {
      CaptureLoggedOnce(db, i);
      assert AttemptOK(|db.orders|, db.attempts[i]);
    }
    forall k: nat | k < |db.refunds| ensures RefundLoggedOnce(db, db.refunds[k]) && HasParent(db.attempts, db.refunds[k]) {
      RefundEventOnce(db, k);
    }
    forall id, p ensures 0 <= OrderRefunded(db.refunds, id, p) <= OrderCaptured(db.attempts, id, p) {
      OrderNeverNegative(db.attempts, db.refunds, id, p);
    }
  }

  /** Captures keep identity, money and status forever; events, refunds, anomalies and
      decisions are append-only; an order keeps its terms and, once settled, its charge. */
  lemma FactsAreForever(db: DB, steps: seq<Step>)
    requires Reachable(db)
    ensures Extends(db, Run(db, steps))
  {
    ReachableInv(db);
    RunKeeps(db, steps);
  }

  // ----- the projection -----

  /** What an order's payment state says about its money. */
  ghost predicate Truthful(db: DB, id: int)
    requires db.HasOrder(id)
  {
    var o := db.Ord(id);
    match o.status
    case Pending => o.pay == PayPending || o.pay == NeedsReview
    case Cancelled => o.pay == PayCancelled || o.pay == NeedsReview || (EverSettled(o) && SaysWhatWasRefunded(db, id))
    case _ =>
      || o.pay == NeedsReview || SaysWhatWasRefunded(db, id)
      || (o.pay == Settled && Untouched(db.attempts, db.refunds, id) && !AllClosed(db.attempts, db.refunds, id))
  }

  /** `refunded` if and only if every capture was refunded in full, and otherwise
      `partially_refunded` with the refunds strictly between nothing and everything. */
  ghost predicate SaysWhatWasRefunded(db: DB, id: int)
    requires db.HasOrder(id)
  {
    if AllClosed(db.attempts, db.refunds, id) then db.Ord(id).pay == Refunded
    else db.Ord(id).pay == PartiallyRefunded && 0 < TotalRefunded(db, id) < TotalCaptured(db, id)
  }

  function TotalRefunded(db: DB, id: int): int {
    OrderRefunded(db.refunds, id, Stars) + OrderRefunded(db.refunds, id, Crypto)
  }

  function TotalCaptured(db: DB, id: int): int {
    OrderCaptured(db.attempts, id, Stars) + OrderCaptured(db.attempts, id, Crypto)
  }

  lemma PartialSums(db: DB, id: int)
    requires UniqueCaptures(db.attempts) && RefundsOK(db.attempts, db.refunds)
    requires Touched(db.attempts, db.refunds, id) && !AllClosed(db.attempts, db.refunds, id)
    ensures 0 < TotalRefunded(db, id) < TotalCaptured(db, id)
  {
    forall p ensures 0 <= OrderRefunded(db.refunds, id, p) <= OrderCaptured(db.attempts, id, p) {
      OrderNeverNegative(db.attempts, db.refunds, id, p);
    }
    var i :| 0 <= i < |db.attempts| && db.attempts[i].order == id && RefundedOf(db.refunds, db.attempts[i]) > 0;
    var p := db.attempts[i].provider;
    ExchangeLaw(db.attempts, db.refunds, id, p);
    PositiveSums(db.attempts, db.refunds, id, p);
    assert OfOrder(db.attempts[i], id, p);
    var j :| 0 <= j < |db.attempts| && db.attempts[j].order == id && !Closed(db.refunds, db.attempts[j]);
    var q := db.attempts[j].provider;
    ExchangeLaw(db.attempts, db.refunds, id, q);
    ClosedSums(db.attempts, db.refunds, id, q);
    assert OfOrder(db.attempts[j], id, q);
  }

  /** The state projection tells the truth in every reachable state. */
  lemma ProjectionIsTruthful(db: DB, id: int)
    requires Reachable(db) && db.HasOrder(id)
    ensures Truthful(db, id)
  {
    ReachableInv(db);
    assert OrderOK(db.attempts, db.refunds, id, db.orders[id - 1]);
    if db.Ord(id).pay == PartiallyRefunded { PartialSums(db, id); }
  }

  // ----- one settlement -----

  /** A paid order's charge is a settled capture of that very order. */
  lemma PaidOrdersAreFunded(db: DB, id: int)
    requires Reachable(db) && Earned(db, id)
    ensures db.Ord(id).rail.Some?
    ensures exists i :: 0 <= i < |db.attempts| && PaidWith(db.attempts[i], id, db.Ord(id).rail.value, db.Ord(id).paymentID)
  {
    ReachableInv(db);
    assert OrderOK(db.attempts, db.refunds, id, db.orders[id - 1]);
  }

  /** No two paid orders share a provider charge. */
  lemma ChargesAreNotShared(db: DB, a: int, b: int)
    requires Reachable(db) && Earned(db, a) && Earned(db, b)
    requires db.Ord(a).rail == db.Ord(b).rail && db.Ord(a).paymentID == db.Ord(b).paymentID
    ensures a == b
  {
    ReachableInv(db);
    PaidOrdersAreFunded(db, a);
    PaidOrdersAreFunded(db, b);
    OwnChargeOf(db, a);
    OwnChargeOf(db, b);
  }

  lemma OwnChargeOf(db: DB, id: int)
    requires Inv(db) && Earned(db, id)
    ensures db.Ord(id).rail.Some?
    ensures var i := FindAttempt(db.attempts, db.Ord(id).rail.value, db.Ord(id).paymentID);
            i.Some? && db.attempts[i.value].order == id
  {
    assert OrderOK(db.attempts, db.refunds, id, db.orders[id - 1]);
    OwnCharge(db, id, db.Ord(id).rail.value, db.Ord(id).paymentID);
  }

  /** The step confirmed a payment of the order: the shop reports an outcome. */
  predicate Confirms(db: DB, s: Step, id: int) {
    s.op.SettleReceipt? && s.op.receipt.order == id && Execute(db, s).1 == {}
  }

  function Confirmations(db: DB, steps: seq<Step>, id: int): nat {
    if |steps| == 0 then 0
    else
      var before := Run(db, steps[..|steps| - 1]);
      Confirmations(db, steps[..|steps| - 1], id) + if Confirms(before, steps[|steps| - 1], id) then 1 else 0
  }

  predicate NoLongerPayable(db: DB, id: int) {
    db.HasOrder(id) && db.Ord(id).pay != PayPending
  }

  lemma SettleOutcome(db: DB, id: int, f: Fact, now: int)
    requires Inv(db) && Settle(db, id, f, None, now).1 == {}
    ensures db.HasOrder(id) && db.Ord(id).pay == PayPending
    ensures NoLongerPayable(Settle(db, id, f, None, now).0, id)
  {
    SettleFreshShape(db, id, f, None, now);
  }

  /** A confirmation of an order without a subscription takes it out of the payable state. */
  lemma ConfirmationSettles(db: DB, s: Step, id: int)
    requires Inv(db) && Confirms(db, s, id) && db.HasOrder(id) && db.Ord(id).subProduct <= 0
    ensures !NoLongerPayable(db, id) && NoLongerPayable(Apply(db, s), id)
  {
    var r := s.op.receipt;
    assert Execute(db, s) == SettleStep(db, r, s.now);
    var q := RequestOf(db.Ord(id), r, s.now).value;
    SettleOutcome(db, id, q.fact, s.now);
  }

  lemma ConfirmsExisting(db: DB, s: Step, id: int)
    requires Confirms(db, s, id)
    ensures db.HasOrder(id)
  {
  }

  lemma {:induction false} ConfirmationsBound(db: DB, steps: seq<Step>, id: int)
    requires Inv(db)
    requires Run(db, steps).HasOrder(id) ==> Run(db, steps).Ord(id).subProduct <= 0
    ensures Confirmations(db, steps, id) <= if NoLongerPayable(Run(db, steps), id) then 1 else 0
  {
    if |steps| > 0 {
      var front, s := steps[..|steps| - 1], steps[|steps| - 1];
      var before := Run(db, front);
      RunKeeps(db, front);
      StepKeeps(before, s);
      if before.HasOrder(id) { assert KeepsOrder(before.orders[id - 1], Apply(before, s).orders[id - 1]); }
      ConfirmationsBound(db, front, id);
      if Confirms(before, s, id) {
        ConfirmsExisting(before, s, id);
        ConfirmationSettles(before, s, id);
      }
    }
  }

  /** Single settlement: however transactions interleave, an order without a subscription
      yields at most one confirmed outcome. */
  lemma AtMostOneOutcome(stock: map<int, int>, promos: map<string, int>, steps: seq<Step>, id: int)
    requires var db := Run(Genesis(stock, promos), steps); db.HasOrder(id) ==> db.Ord(id).subProduct <= 0
    ensures Confirmations(Genesis(stock, promos), steps, id) <= 1
  {
    GenesisInv(stock, promos);
    ConfirmationsBound(Genesis(stock, promos), steps, id);
  }

  // ----- leaving quarantine -----

  /** The targets a decision on this order has to name, no more and no fewer. */
  predicate NamesExactly(db: DB, r: ReviewRequest) {
    && db.HasOrder(r.order)
    && (NamedTargets(r) == OpenTargets(db, r.order, r.provider)
        || (NamedTargets(r) == {OrderTarget(r.order)} && AllResolved(db, r.order)))
  }

  lemma CloseLeaves(db: DB, r: ReviewRequest, targets: set<Target>, id: int)
    requires CaseTargets(db, r) == Some(targets) && Decided(db, r, targets)
    requires Held(db, id) && !Held(Close(db, r, targets).0, id)
    ensures r.order == id && AllResolved(Close(db, r, targets).0, id)
    ensures Close(db, r, targets).1 == {}
  {
    NothingOpen(db, r, targets);
    var db1, db' := WithResolutions(db, r, targets), Close(db, r, targets).0;
    assert AllResolved(db1, id);
    forall e: nat | e < |db'.events| && db'.events[e].order == id ensures !OpenEvent(db', e) { assert !OpenEvent(db1, e); }
    forall i: nat | i < |db'.anomalies| && db'.anomalies[i].order == id ensures !OpenAnomaly(db', i) { assert !OpenAnomaly(db1, i); }
  }

  lemma ResolveLeaves(db: DB, r: ReviewRequest, id: int)
    requires Held(db, id) && !Held(Resolve(db, r).0, id)
    ensures r.order == id && Resolve(db, r).1 == {} && NamesExactly(db, r) && AllResolved(Resolve(db, r).0, id)
  {
    CaseTargetsKnown(db, r);
    CloseLeaves(db, r, CaseTargets(db, r).value, id);
  }

  /** Leaving quarantine is exact: only an operator's decision does it, it names exactly
      the unresolved targets of its rail, and afterwards no rail has any left. */
  lemma OnlyDecisionsEndReview(db: DB, s: Step, id: int)
    requires Reachable(db) && Held(db, id) && !Held(Apply(db, s), id)
    ensures s.op.ResolveReview? && s.op.request.order == id && Execute(db, s).1 == {}
    ensures NamesExactly(db, s.op.request)
    ensures AllResolved(Apply(db, s), id)
  {
    ReachableInv(db);
    StepSteady(db, s);
    assert Execute(db, s) == Resolve(db, s.op.request);
    ResolveLeaves(db, s.op.request, id);
  }

  // ----- a paid order can be dismissed -----

  /** A derived projection keeps a paid order's status unless it is a dismissal. */
  lemma DerivedStatus(db: DB, r: ReviewRequest, targets: set<Target>)
    requires Earned(db, r.order) && Derive(db, r, targets).Some?
    requires Derive(db, r, targets).value.status != db.Ord(r.order).status
    ensures r.provider == UnknownProvider && targets == {OrderTarget(r.order)}
  {
  }

  lemma CloseDismisses(db: DB, r: ReviewRequest, targets: set<Target>, id: int)
    requires CaseTargets(db, r) == Some(targets) && Decided(db, r, targets)
    requires Earned(db, id) && !Earned(Close(db, r, targets).0, id)
    ensures r.provider == UnknownProvider && r.order == id && targets == {OrderTarget(id)}
  {
    var db' := Close(db, r, targets).0;
    assert db'.orders != db.orders;
    var p := Derive(db, r, targets).value;
    assert db'.orders == db.SetOrder(r.order, Closing(db.Ord(r.order), p)).orders;
    assert r.order == id;
    DerivedStatus(db, r, targets);
  }

  lemma OrderTargetCase(db: DB, r: ReviewRequest)
    requires db.HasOrder(r.order) && CaseTargets(db, r) == Some({OrderTarget(r.order)})
    ensures Held(db, r.order) && AllResolved(db, r.order) && OrderTarget(r.order) !in db.resolutions
  {
  }

  lemma ResolveDismisses(db: DB, r: ReviewRequest, id: int)
    requires Earned(db, id) && !Earned(Resolve(db, r).0, id)
    ensures r.provider == UnknownProvider && r.order == id && Held(db, id) && AllResolved(db, id)
    ensures OrderTarget(id) !in db.resolutions
  {
    CaseTargetsKnown(db, r);
    CloseDismisses(db, r, CaseTargets(db, r).value, id);
    OrderTargetCase(db, r);
  }

  /** The one way a paid order loses its status is a provider-neutral dismissal while
      none of its facts is unresolved. */
  lemma OnlyDismissalUnpays(db: DB, s: Step, id: int)
    requires Reachable(db) && Earned(db, id) && !Earned(Apply(db, s), id)
    ensures s.op.ResolveReview? && s.op.request.order == id && s.op.request.provider == UnknownProvider
    ensures Held(db, id) && AllResolved(db, id) && OrderTarget(id) !in db.resolutions
  {
    ReachableInv(db);
    StepSteady(db, s);
    assert Execute(db, s) == Resolve(db, s.op.request);
    ResolveDismisses(db, s.op.request, id);
  }

  // ----- decisions are final -----

  /** A quarantined capture an operator has disposed of. */
  predicate Disposed(db: DB, i: nat) {
    i < |db.attempts| && db.attempts[i].status == Quarantined && ResolvedCapture(db, i)
  }

  lemma DisposedForever(db: DB, db': DB, i: nat)
    requires Extends(db, db') && Disposed(db, i)
    ensures Disposed(db', i)
  {
    var e: nat :| e < |db.events| && ResolvedCaptureBy(db, i, e);
    assert db'.events[e] == db.events[e];
    assert ResolvedCaptureBy(db', i, e);
    assert KeepsAttempt(db.attempts[i], db'.attempts[i]);
  }

  /** The stored fact, word for word, with its payer and time. */
  predicate StoredFact(a: Attempt, f: Fact) {
    IsCapture(a, f.provider, f.ext) && f.ext != "" && ExactFact(a, a.order, f)
  }

  lemma StoredIsResolved(db: DB, i: nat, f: Fact)
    requires Inv(db) && Disposed(db, i) && IsCapture(db.attempts[i], f.provider, f.ext) && f.ext != ""
    ensures FindAttempt(db.attempts, f.provider, f.ext) == Some(i)
    ensures db.HasOrder(db.attempts[i].order) && ReplaysResolved(db, db.attempts[i].order, f)
    ensures db.Ord(db.attempts[i].order).pay != PayPending
  {
  }

  /** Redelivering the stored fact through any storage entry point is silent. */
  lemma RedeliveryIsSilent(db: DB, i: nat, f: Fact, reason: Reason, now: int)
    requires Inv(db) && Disposed(db, i) && StoredFact(db.attempts[i], f)
    ensures RecordUnexpected(db, db.attempts[i].order, f, reason, now) == (db, {})
    ensures IngestCapture(db, db.attempts[i].order, f, now).0 == db
  {
    StoredIsResolved(db, i, f);
  }

  lemma SettlementIsSilent(db: DB, i: nat, f: Fact, c: Option<Contract>, now: int)
    requires Inv(db) && Disposed(db, i) && StoredFact(db.attempts[i], f)
    ensures Settle(db, db.attempts[i].order, f, c, now).0 == db
  {
    var id := db.attempts[i].order;
    StoredIsResolved(db, i, f);
    if db.Ord(id).rail == Some(f.provider) && db.Ord(id).paymentID == f.ext {
      OwnCharge(db, id, f.provider, f.ext);
      assert false;
    }
    assert SettleReplay(db, id, f, c, now) == Settlement(db, {OrderStatusConflict}, f);
    SettleOnceOfConflict(db, id, f, c, now);
  }

  lemma SettleOnceOfConflict(db: DB, id: int, f: Fact, c: Option<Contract>, now: int)
    requires db.HasOrder(id) && db.Ord(id).pay != PayPending
    requires SettleReplay(db, id, f, c, now) == Settlement(db, {OrderStatusConflict}, f)
    ensures SettleOnce(db, id, f, c, now).db == db
    ensures PaymentIdentityConflict !in SettleOnce(db, id, f, c, now).errs
    ensures SubscriptionOrderConflict !in SettleOnce(db, id, f, c, now).errs
  {
  }

  lemma RenewalIsSilent(db: DB, i: nat, f: Fact, c: Contract, now: int)
    requires Inv(db) && Disposed(db, i) && StoredFact(db.attempts[i], f)
    ensures Renew(db, db.attempts[i].order, f, c, now).0 == db
  {
    StoredIsResolved(db, i, f);
    var id := db.attempts[i].order;
    var (once, errs) := RenewOnce(db, id, f, c, now);
    assert once == db;
    if RenewalReason(errs).Some? { RedeliveryIsSilent(db, i, f, RenewalReason(errs).value, now); }
  }

  /** Operator decisions are final: after any further run, redelivering the fact of a
      disposed capture is silent if and only if the stored expiry is still the fact's, and
      an expiry that was recorded at the time always is. */
  lemma DecisionsAreFinal(db: DB, i: nat, f: Fact, steps: seq<Step>, reason: Reason, now: int)
    requires Reachable(db) && Disposed(db, i) && StoredFact(db.attempts[i], f)
    ensures var later := Run(db, steps);
      && i < |later.attempts|
      && (RecordUnexpected(later, db.attempts[i].order, f, reason, now) == (later, {})
          <==> later.attempts[i].entitlement == f.entitlement)
      && (f.entitlement.Some? ==> later.attempts[i].entitlement == f.entitlement)
  {
    ReachableInv(db);
    RunKeeps(db, steps);
    var later := Run(db, steps);
    DisposedForever(db, later, i);
    assert KeepsAttempt(db.attempts[i], later.attempts[i]);
    if later.attempts[i].entitlement == f.entitlement {
      RedeliveryIsSilent(later, i, f, reason, now);
    } else {
      StoredIsResolved(later, i, f);
    }
  }

  /** Every other entry point is silent too while the stored fact stands. */
  lemma NoEntryPointReopens(db: DB, i: nat, f: Fact, c: Contract, co: Option<Contract>, now: int)
    requires Reachable(db) && Disposed(db, i) && StoredFact(db.attempts[i], f)
    ensures IngestCapture(db, db.attempts[i].order, f, now).0 == db
    ensures Settle(db, db.attempts[i].order, f, co, now).0 == db
    ensures Renew(db, db.attempts[i].order, f, c, now).0 == db
  {
    ReachableInv(db);
    RedeliveryIsSilent(db, i, f, SecondCharge, now);
    SettlementIsSilent(db, i, f, co, now);
    RenewalIsSilent(db, i, f, c, now);
  }

  /** The inbox holds a row this fact is a retry of. */
  predicate InInbox(db: DB, f: AnomalyFact) {
    FindAnomaly(db.anomalies, f).Some?
  }

  /** The store looks at a disagreeing fact only under the capture's own order, or under an
      order whose terms it meets. */
  predicate Heard(db: DB, i: nat, id: int, f: Fact)
    requires i < |db.attempts| && db.HasOrder(id)
  {
    id == db.attempts[i].order || ValidateFact(db.Ord(id), f) == {}
  }

  lemma UnheardIsDropped(db: DB, i: nat, id: int, f: Fact, reason: Reason, now: int)
    requires Inv(db) && Disposed(db, i) && IsCapture(db.attempts[i], f.provider, f.ext) && f.ext != ""
    requires db.HasOrder(id) && !Heard(db, i, id, f)
    ensures RecordUnexpected(db, id, f, reason, now) == (db, ValidateFact(db.Ord(id), f))
  {
    StoredIsResolved(db, i, f);
  }

  lemma HeardIsRecorded(db: DB, i: nat, id: int, f: Fact, reason: Reason, now: int)
    requires Inv(db) && Disposed(db, i) && IsCapture(db.attempts[i], f.provider, f.ext) && f.ext != ""
    requires db.HasOrder(id) && Heard(db, i, id, f) && !ExactFact(db.attempts[i], id, f)
    ensures var kind := if id == db.attempts[i].order then FactMismatch else IdentityConflict;
      && RecordUnexpected(db, id, f, reason, now).0 == RecordAnomaly(db, AnomalyFromFact(id, f, kind), now).0
      && PaymentIdentityConflict in RecordUnexpected(db, id, f, reason, now).1
  {
    StoredIsResolved(db, i, f);
  }

  /** A retry is a retry whatever its reason. */
  lemma {:induction false} SameRow(rows: seq<Anomaly>, id: int, f: Fact, reason: Reason, reason': Reason)
    ensures FindAnomaly(rows, AnomalyFromFact(id, f, reason)) == FindAnomaly(rows, AnomalyFromFact(id, f, reason'))
  {
    if |rows| > 0 { SameRow(rows[..|rows| - 1], id, f, reason, reason'); }
  }

  /** A fact with the identity of a disposed capture that disagrees with it, proposed under
      any order, is in the inbox afterwards if and only if it was there before, or the order
      is the capture's own, or the fact meets that order's terms. Otherwise nothing at all
      is written. No capture, event or refund is touched either way. */
  lemma DisagreementIsKept(db: DB, i: nat, id: int, f: Fact, reason: Reason, now: int)
    requires Reachable(db) && Disposed(db, i) && IsCapture(db.attempts[i], f.provider, f.ext) && f.ext != ""
    requires db.HasOrder(id) && !ExactFact(db.attempts[i], id, f)
    requires Acceptable(AnomalyFromFact(id, f, FactMismatch))
    ensures var (db', errs) := RecordUnexpected(db, id, f, reason, now);
      && (InInbox(db', AnomalyFromFact(id, f, FactMismatch))
          <==> InInbox(db, AnomalyFromFact(id, f, FactMismatch)) || id == db.attempts[i].order || ValidateFact(db.Ord(id), f) == {})
      && (id != db.attempts[i].order && ValidateFact(db.Ord(id), f) != {} ==> (db', errs) == (db, ValidateFact(db.Ord(id), f)))
      && (id == db.attempts[i].order || ValidateFact(db.Ord(id), f) == {} ==> PaymentIdentityConflict in errs)
      && db'.attempts == db.attempts && db'.events == db.events && db'.refunds == db.refunds
  {
    ReachableInv(db);
    if Heard(db, i, id, f) {
      var kind := if id == db.attempts[i].order then FactMismatch else IdentityConflict;
      HeardIsRecorded(db, i, id, f, reason, now);
      AnomalyIsKept(db, AnomalyFromFact(id, f, kind), now);
      SameRow(RecordUnexpected(db, id, f, reason, now).0.anomalies, id, f, kind, FactMismatch);
    } else {
      UnheardIsDropped(db, i, id, f, reason, now);
    }
  }

  /** The operator's ingress has no such gap: a valid fact with the identity of a recorded
      capture is either its exact replay, and silent, or in the inbox. */
  lemma IngestedDisagreementIsKept(db: DB, i: nat, id: int, f: Fact, now: int)
    requires Reachable(db) && i < |db.attempts| && IsCapture(db.attempts[i], f.provider, f.ext)
    requires PreviewCapture(db, id, f).Some? && Acceptable(IngestAnomaly(id, f))
    ensures var (db', errs) := IngestCapture(db, id, f, now);
      && (if IngestReplay(db.attempts[i], id, f) then (db', errs) == (db, {})
          else InInbox(db', IngestAnomaly(id, f)) && PaymentIdentityConflict in errs)
      && db'.attempts == db.attempts && db'.events == db.events && db'.refunds == db.refunds
  {
    ReachableInv(db);
    assert FindAttempt(db.attempts, f.provider, f.ext) == Some(i);
    AnomalyIsKept(db, IngestAnomaly(id, f), now);
  }
}
