/**
 Every transaction of the live system as one step, and every interleaving of them as a
 run from an empty ledger (writers are serialised by `_txlock=immediate`, db.go:120).
 */
module Runs {
  import opened Wrappers
  import opened Ledger
  import opened Anomalies
  import opened Recording
  import opened Refunds
  import opened Reviews
  import opened Subscriptions
  import opened Orders
  import opened Shop
  import opened Invariant
  import opened Effects
  import opened RefundEffects
  import opened ReviewEffects
  import opened OrderEffects
  import opened History

  datatype Op =
    | Create(draft: Draft)
    | Cancel(id: int, user: int)
    | DeliverOrder(id: int)
    | SettleReceipt(receipt: Receipt)
    | RenewCharge(id: int, fact: Fact, contract: Contract)
    | RecordUnexpectedCharge(id: int, fact: Fact, reason: Reason)
    | RecordFact(anomaly: AnomalyFact)
    | RecordRefundFact(refund: RefundFact)
    | IngestCaptureFact(id: int, fact: Fact)
    | IngestRefundFact(refund: RefundFact)
    | ResolveReview(request: ReviewRequest)
    | CancelSubscription(user: int, product: int)
    | ExpireOverdue

  datatype Step = Step(op: Op, now: int)

  /** SetStatusByCharge(charge, "canceled"): the row of one contract. */
  function CancelSub(db: DB, user: int, product: int): DB {
    if (user, product) in db.subs
    then db.(subs := db.subs[(user, product) := db.subs[(user, product)].(status := Canceled)])
    else db
  }

  function Overdue(s: Subscription, now: int): Subscription {
    if s.status == Active && s.expires <= now then s.(status := Expired) else s
  }

  /** ExpireOverdue (subscriptions.go:129). */
  function ExpireSubs(db: DB, now: int): DB {
    db.(subs := map k | k in db.subs :: Overdue(db.subs[k], now))
  }

  /** The settlement transaction ConfirmPaymentReceipt issues for a receipt, if any. */
  function SettleStep(db: DB, r: Receipt, now: int): (DB, Errs) {
    if !db.HasOrder(r.order) then (db, {NotFound})
    else match RequestOf(db.Ord(r.order), r, now)
      case None => (db, {PaymentReceiptMismatch})
      case Some(q) => Settle(db, r.order, q.fact, q.contract, now)
  }

  function Execute(db: DB, s: Step): (DB, Errs) {
    match s.op
    case Create(d) => CreateOrder(db, d, s.now)
    case Cancel(id, user) => CancelOrder(db, id, user)
    case DeliverOrder(id) => Deliver(db, id)
    case SettleReceipt(r) => SettleStep(db, r, s.now)
    case RenewCharge(id, f, c) => Renew(db, id, f, c, s.now)
    case RecordUnexpectedCharge(id, f, reason) => RecordUnexpected(db, id, f, reason, s.now)
    case RecordFact(a) => RecordAnomaly(db, a, s.now)
    case RecordRefundFact(f) => RecordRefund(db, f, s.now)
    case IngestCaptureFact(id, f) => IngestCapture(db, id, f, s.now)
    case IngestRefundFact(f) => IngestRefund(db, f, s.now)
    case ResolveReview(r) => Resolve(db, r)
    case CancelSubscription(user, product) => (CancelSub(db, user, product), {})
    case ExpireOverdue => (ExpireSubs(db, s.now), {})
  }

  function Apply(db: DB, s: Step): DB {
    Execute(db, s).0
  }

  function Run(db: DB, steps: seq<Step>): DB {
    if |steps| == 0 then db else Apply(Run(db, steps[..|steps| - 1]), steps[|steps| - 1])
  }

  // ----- every step keeps the invariant and the history -----

  /** The settlement step of an acceptable receipt is the settlement transaction. */
  lemma AcceptedStep(db: DB, r: Receipt, q: Request, now: int)
    requires db.HasOrder(r.order) && RequestOf(db.Ord(r.order), r, now) == Some(q)
    ensures SettleStep(db, r, now) == Settle(db, r.order, q.fact, q.contract, now)
    ensures Execute(db, Step(SettleReceipt(r), now)) == SettleStep(db, r, now)
  {
  }

  lemma RequestIsSettlement(db: DB, r: Receipt, now: int)
    requires db.HasOrder(r.order) && RequestOf(db.Ord(r.order), r, now).Some?
    ensures SettlementRequest(db, r.order, RequestOf(db.Ord(r.order), r, now).value.fact,
                              RequestOf(db.Ord(r.order), r, now).value.contract)
  {
  }

  lemma SettleStepKeeps(db: DB, r: Receipt, now: int)
    requires Inv(db)
    ensures Inv(SettleStep(db, r, now).0) && Extends(db, SettleStep(db, r, now).0)
  {
    if db.HasOrder(r.order) && RequestOf(db.Ord(r.order), r, now).Some? {
      var q := RequestOf(db.Ord(r.order), r, now).value;
      RequestIsSettlement(db, r, now);
      SettleInv(db, r.order, q.fact, q.contract, now);
      SettleExtends(db, r.order, q.fact, q.contract, now);
    }
  }

  lemma RefundStepKeeps(db: DB, f: RefundFact, now: int)
    requires Inv(db)
    ensures Inv(RecordRefund(db, f, now).0) && Extends(db, RecordRefund(db, f, now).0)
  {
    RecordRefundInv(db, f, now);
    RecordRefundExtends(db, f, now);
  }

  lemma SubsKeep(db: DB, subs: map<(int, int), Subscription>)
    requires Inv(db)
    ensures Inv(db.(subs := subs)) && Extends(db, db.(subs := subs))
  {
    OtherTables(db, db.(subs := subs));
  }

  lemma CreateKeeps(db: DB, d: Draft, now: int)
    requires Inv(db)
    ensures Inv(CreateOrder(db, d, now).0) && Extends(db, CreateOrder(db, d, now).0)
  {
    CreateOrderInv(db, d, now);
  }

  lemma CancelKeeps(db: DB, id: int, user: int)
    requires Inv(db)
    ensures Inv(CancelOrder(db, id, user).0) && Extends(db, CancelOrder(db, id, user).0)
  {
    CancelOrderInv(db, id, user);
    var db' := CancelOrder(db, id, user).0;
    if db' != db { SetOrderExtends(db, id, db'.Ord(id)); }
  }

  lemma DeliverKeeps(db: DB, id: int)
    requires Inv(db)
    ensures Inv(Deliver(db, id).0) && Extends(db, Deliver(db, id).0)
  {
    DeliverInv(db, id);
    var db' := Deliver(db, id).0;
    if db' != db { SetOrderExtends(db, id, db'.Ord(id)); }
  }

  lemma RenewStepKeeps(db: DB, s: Step)
    requires Inv(db) && s.op.RenewCharge?
    ensures Inv(Apply(db, s)) && Extends(db, Apply(db, s))
  {
    RenewInv(db, s.op.id, s.op.fact, s.op.contract, s.now);
    RenewExtends(db, s.op.id, s.op.fact, s.op.contract, s.now);
  }

  lemma UnexpectedStepKeeps(db: DB, s: Step)
    requires Inv(db) && s.op.RecordUnexpectedCharge?
    ensures Inv(Apply(db, s)) && Extends(db, Apply(db, s))
  {
    RecordUnexpectedInv(db, s.op.id, s.op.fact, s.op.reason, s.now);
    RecordUnexpectedExtends(db, s.op.id, s.op.fact, s.op.reason, s.now);
  }

  lemma FactStepKeeps(db: DB, s: Step)
    requires Inv(db) && s.op.RecordFact?
    ensures Inv(Apply(db, s)) && Extends(db, Apply(db, s))
  {
    RecordAnomalyInv(db, s.op.anomaly, s.now);
    RecordAnomalyExtends(db, s.op.anomaly, s.now);
  }

  lemma IngestStepKeeps(db: DB, s: Step)
    requires Inv(db) && s.op.IngestCaptureFact?
    ensures Inv(Apply(db, s)) && Extends(db, Apply(db, s))
  {
    IngestCaptureInv(db, s.op.id, s.op.fact, s.now);
    IngestCaptureExtends(db, s.op.id, s.op.fact, s.now);
  }

  lemma ResolveStepKeeps(db: DB, s: Step)
    requires Inv(db) && s.op.ResolveReview?
    ensures Inv(Apply(db, s)) && Extends(db, Apply(db, s))
  {
    ResolveInv(db, s.op.request);
    ResolveExtends(db, s.op.request);
  }

  lemma RefundIsOneStep(db: DB, s: Step)
    requires s.op.RecordRefundFact?
    ensures Execute(db, s) == RecordRefund(db, s.op.refund, s.now) && Apply(db, s) == RecordRefund(db, s.op.refund, s.now).0
  {
  }

  lemma ReviewIsOneStep(db: DB, s: Step)
    requires s.op.ResolveReview?
    ensures Execute(db, s) == Resolve(db, s.op.request)
  {
  }

  lemma IngestIsOneStep(db: DB, s: Step)
    requires s.op.IngestRefundFact?
    ensures Execute(db, s) == IngestRefund(db, s.op.refund, s.now)
  {
  }

  lemma RefundOpKeeps(db: DB, s: Step)
    requires Inv(db) && s.op.RecordRefundFact?
    ensures Inv(Apply(db, s)) && Extends(db, Apply(db, s))
  {
    RefundStepKeeps(db, s.op.refund, s.now);
    RefundIsOneStep(db, s);
  }

  lemma IngestRefundKeeps(db: DB, f: RefundFact, now: int)
    requires Inv(db) && Inv(RecordRefund(db, f, now).0) && Extends(db, RecordRefund(db, f, now).0)
    ensures Inv(IngestRefund(db, f, now).0) && Extends(db, IngestRefund(db, f, now).0)
  {
    assert IngestRefund(db, f, now).0 == db || IngestRefund(db, f, now).0 == RecordRefund(db, f, now).0;
  }

  lemma IngestRefundOpKeeps(db: DB, s: Step)
    requires Inv(db) && s.op.IngestRefundFact?
    ensures Inv(Apply(db, s)) && Extends(db, Apply(db, s))
  {
    assert Apply(db, s) == IngestRefund(db, s.op.refund, s.now).0;
    RefundStepKeeps(db, s.op.refund, s.now);
    IngestRefundKeeps(db, s.op.refund, s.now);
  }

  lemma SettleOpKeeps(db: DB, s: Step)
    requires Inv(db) && s.op.SettleReceipt?
    ensures Inv(Apply(db, s)) && Extends(db, Apply(db, s))
  {
    SettleStepKeeps(db, s.op.receipt, s.now);
  }

  lemma SubscriptionStepKeeps(db: DB, s: Step)
    requires Inv(db) && (s.op.CancelSubscription? || s.op.ExpireOverdue?)
    ensures Inv(Apply(db, s)) && Extends(db, Apply(db, s))
  {
    SubsKeep(db, Apply(db, s).subs);
  }

  /** No step of the live system breaks the invariant or takes a ledger row back. */
  lemma StepKeeps(db: DB, s: Step)
    requires Inv(db)
    ensures Inv(Apply(db, s)) && Extends(db, Apply(db, s))
  {
    match s.op {
      case SettleReceipt(_) => SettleOpKeeps(db, s);
      case RenewCharge(_, _, _) => RenewStepKeeps(db, s);
      case RecordUnexpectedCharge(_, _, _) => UnexpectedStepKeeps(db, s);
      case RecordFact(_) => FactStepKeeps(db, s);
      case IngestCaptureFact(_, _) => IngestStepKeeps(db, s);
      case ResolveReview(_) => ResolveStepKeeps(db, s);
      case RecordRefundFact(_) => RefundOpKeeps(db, s);
      case IngestRefundFact(_) => IngestRefundOpKeeps(db, s);
      case CancelSubscription(_, _) => SubscriptionStepKeeps(db, s);
      case ExpireOverdue => SubscriptionStepKeeps(db, s);
      case Create(d) => CreateKeeps(db, d, s.now);
      case Cancel(id, user) => CancelKeeps(db, id, user);
      case DeliverOrder(id) => DeliverKeeps(db, id);
    }
  }

  /** Every run keeps the invariant, and only ever extends the ledger it started from. */
  lemma {:induction false} RunKeeps(db: DB, steps: seq<Step>)
    requires Inv(db)
    ensures Inv(Run(db, steps)) && Extends(db, Run(db, steps))
  {
    if |steps| > 0 {
      var before := Run(db, steps[..|steps| - 1]);
      RunKeeps(db, steps[..|steps| - 1]);
      StepKeeps(before, steps[|steps| - 1]);
      ExtendsTransitive(db, before, Run(db, steps));
    }
  }

  /** A reachable ledger: any run from a fresh database. */
  ghost predicate Reachable(db: DB) {
    exists stock: map<int, int>, promos: map<string, int>, steps: seq<Step> :: db == Run(Genesis(stock, promos), steps)
  }

  lemma ReachableInv(db: DB)
    requires Reachable(db)
    ensures Inv(db)
  {
    var stock: map<int, int>, promos: map<string, int>, steps: seq<Step> :| db == Run(Genesis(stock, promos), steps);
    GenesisInv(stock, promos);
    RunKeeps(Genesis(stock, promos), steps);
  }
}
