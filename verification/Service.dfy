/**
 internal/shop/order.go over the store: the order service drives the store's transactions
 step by step, with other writers in between.
 */
module Service {
  import opened Wrappers
  import opened Ledger
  import opened Orders
  import opened Shop
  import opened Store
  import opened Invariant
  import opened History
  import opened Runs
  import opened Confirmation

  class OrderService {
    const store: LedgerStore

    constructor (ledger: LedgerStore)
      ensures store == ledger
    {
      store := ledger;
    }

    ghost predicate Valid()
      reads this, store
    {
      Inv(store.Snapshot())
    }

    // ----- transactions -----

    method CancelSubscriptionRow(user: int, product: int)
      modifies store
      ensures store.Snapshot() == CancelSub(old(store.Snapshot()), user, product)
    {
      if (user, product) in store.subscriptions {
        store.subscriptions := store.subscriptions[(user, product) := store.subscriptions[(user, product)].(status := Canceled)];
      }
    }

    method ExpireOverdueRows(now: int)
      modifies store
      ensures store.Snapshot() == ExpireSubs(old(store.Snapshot()), now)
    {
      store.subscriptions := map k | k in store.subscriptions :: Overdue(store.subscriptions[k], now);
    }

    /** The settlement transaction of an acceptable receipt. */
    method SettleReceiptTransaction(r: Receipt, now: int) returns (errs: Errs)
      modifies store
      ensures (store.Snapshot(), errs) == SettleStep(old(store.Snapshot()), r, now)
    {
      if !(0 < r.order <= |store.orders|) {
        return {NotFound};
      }
      var request := RequestOf(store.orders[r.order - 1], r, now);
      if request.None? {
        return {PaymentReceiptMismatch};
      }
      AcceptedStep(store.Snapshot(), r, request.value, now);
      errs := store.UpdateOrderStatus(r.order, request.value.fact, request.value.contract, now);
    }

    method OrderTransaction(s: Step) returns (errs: Errs)
      requires s.op.Create? || s.op.Cancel? || s.op.DeliverOrder? || s.op.CancelSubscription? || s.op.ExpireOverdue?
      modifies store
      ensures (store.Snapshot(), errs) == Execute(old(store.Snapshot()), s)
    {
      errs := {};
      match s.op {
        case Create(d) =>
          var id: int;
          id, errs := store.CreatePendingOrder(d, s.now);
        case Cancel(id, user) => errs := store.CancelPendingOrder(id, user);
        case DeliverOrder(id) => errs := store.DeliverOrder(id);
        case CancelSubscription(user, product) => CancelSubscriptionRow(user, product);
        case ExpireOverdue => ExpireOverdueRows(s.now);
      }
    }

    method CaptureTransaction(s: Step) returns (errs: Errs)
      requires s.op.SettleReceipt? || s.op.RenewCharge? || s.op.RecordUnexpectedCharge? || s.op.RecordFact? || s.op.IngestCaptureFact?
      modifies store
      ensures (store.Snapshot(), errs) == Execute(old(store.Snapshot()), s)
    {
      match s.op {
        case SettleReceipt(r) => errs := SettleReceiptTransaction(r, s.now);
        case RenewCharge(id, f, c) => errs := store.RecordSubscriptionRenewalFact(id, f, c, s.now);
        case RecordUnexpectedCharge(id, f, reason) => errs := store.RecordUnexpectedPaymentFact(id, f, reason, s.now);
        case RecordFact(a) => errs := store.RecordPaymentAnomaly(a, s.now);
        case IngestCaptureFact(id, f) => errs := store.IngestProviderCapture(id, f, s.now);
      }
    }

    /** Any transaction of the live system. A valid ledger stays valid, and grows. */
    method Transact(s: Step) returns (errs: Errs)
      modifies store
      ensures (store.Snapshot(), errs) == Execute(old(store.Snapshot()), s)
      ensures old(Valid()) ==> Valid() && Extends(old(store.Snapshot()), store.Snapshot())
    {
      ghost var before := store.Snapshot();
      if s.op.Create? || s.op.Cancel? || s.op.DeliverOrder? || s.op.CancelSubscription? || s.op.ExpireOverdue? {
        errs := OrderTransaction(s);
      } else if s.op.RecordRefundFact? {
        errs := store.RecordProviderRefund(s.op.refund, s.now);
        RefundIsOneStep(before, s);
      } else if s.op.IngestRefundFact? {
        errs := store.IngestProviderRefund(s.op.refund, s.now);
        IngestIsOneStep(before, s);
      } else if s.op.ResolveReview? {
        errs := store.ResolvePaymentReview(s.op.request);
        ReviewIsOneStep(before, s);
      } else {
        errs := CaptureTransaction(s);
      }
      if Inv(before) { StepKeeps(before, s); }
    }

    /** Other writers, one transaction after another. */
    method OtherWriters(steps: seq<Step>)
      modifies store
      ensures store.Snapshot() == Run(old(store.Snapshot()), steps)
    {
      for i := 0 to |steps|
        invariant store.Snapshot() == Run(old(store.Snapshot()), steps[..i])
      {
        assert steps[..i + 1][..i] == steps[..i];
        var errs := Transact(steps[i]);
      }
      assert steps[..|steps|] == steps;
    }

    // ----- receipts -----

    method Quarantine(r: Receipt, reason: Reason, now: int) returns (errs: Errs)
      modifies store
      ensures (store.Snapshot(), errs) == QuarantineReceipt(old(store.Snapshot()), r, reason, now)
    {
      errs := store.RecordPaymentAnomaly(AnomalyOf(r, reason), now);
      if errs == {} {
        errs := {PaymentNeedsReview};
      }
    }

    method RecordForReview(r: Receipt, p: Provider, reason: Reason, now: int) returns (errs: Errs)
      modifies store
      ensures (store.Snapshot(), errs) == RecordAndReview(old(store.Snapshot()), r, p, reason, now)
    {
      errs := store.RecordUnexpectedPaymentFact(r.order, FactOf(r, p), reason, now);
      if errs == {} {
        errs := {PaymentNeedsReview};
      }
    }

    /** A status conflict: the reloaded order tells an exact replay from a further charge. */
    method ReviewConflict(r: Receipt, p: Provider, conflict: Errs, now: int, env: Interleaving) returns (errs: Errs)
      modifies store
      ensures (store.Snapshot(), errs) == AfterConflict(old(store.Snapshot()), r, p, conflict, now, env)
    {
      OtherWriters(env.beforeReload);
      if !(0 < r.order <= |store.orders|) {
        return {NotFound};
      }
      var current := store.orders[r.order - 1];
      if current.paymentID != "" && current.paymentID == r.ext && current.rail == Some(p) {
        return conflict;
      }
      var reason := SecondCharge;
      if current.status != Paid {
        reason := CaptureAfterTerminalState;
      }
      OtherWriters(env.beforeRecord);
      errs := RecordForReview(r, p, reason, now);
    }

    /** From the settlement on. */
    method SettleOrReview(r: Receipt, p: Provider, q: Request, now: int, env: Interleaving) returns (errs: Errs)
      modifies store
      ensures (store.Snapshot(), errs) == SettleAndSettleUp(old(store.Snapshot()), r, p, q, now, env)
    {
      errs := store.UpdateOrderStatus(r.order, q.fact, q.contract, now);
      if OrderStatusConflict in errs {
        errs := ReviewConflict(r, p, errs, now, env);
      }
    }

    /** ConfirmPaymentReceipt. */
    method ConfirmPaymentReceipt(r: Receipt, now: int, env: Interleaving) returns (errs: Errs)
      modifies store
      ensures (store.Snapshot(), errs) == ConfirmReceipt(old(store.Snapshot()), r, now, env)
    {
      if !(0 < r.order <= |store.orders|) {
        OtherWriters(env.beforeWrite);
        errs := Quarantine(r, UnknownOrder, now);
        return;
      }
      var o := store.orders[r.order - 1];
      var rail := RailOf(r.name);
      if rail.None? {
        return {PaymentReceiptMismatch};
      }
      OtherWriters(env.beforeWrite);
      if !Accepts(o, r, rail.value) {
        errs := Quarantine(r, ReceiptMismatch, now);
        return;
      }
      if o.status == Pending && o.pay != PayPending {
        errs := RecordForReview(r, rail.value, CaptureOnUnresolvedOrder, now);
        return;
      }
      var request := RequestOf(o, r, now);
      if request.None? {
        errs := Quarantine(r, ReceiptMismatch, now);
        return;
      }
      errs := SettleOrReview(r, rail.value, request.value, now, env);
    }

    /** The worker's handling of a receipt, sold-out orders included: in a valid ledger a
        receipt that states a fact is recorded, whatever the outcome. */
    method HandlePaidReceipt(r: Receipt, now: int, env: Interleaving) returns (handled: bool)
      modifies store
      ensures (store.Snapshot(), handled) == HandleReceipt(old(store.Snapshot()), r, now, env)
      ensures old(Valid()) && StatesFact(r) ==> Valid() && Recorded(store.Snapshot(), RailOf(r.name).value, r.ext)
    {
      ghost var before := store.Snapshot();
      var errs := ConfirmPaymentReceipt(r, now, env);
      var rail := RailOf(r.name);
      handled := Durable(errs);
      if rail.Some? && ProductOutOfStock in errs {
        OtherWriters(env.beforeSoldOut);
        var recordErrs := store.RecordUnexpectedPaymentFact(r.order, FactOf(r, rail.value), SoldOut, now);
        if recordErrs == {} || PaymentNeedsReview in recordErrs {
          handled := true;
        }
      }
      if Inv(before) && StatesFact(r) {
        HandledIsRecorded(before, r, now, env);
        HandleKeeps(before, r, now, env);
      }
    }

    /** RecordSubscriptionRenewal. */
    method RecordSubscriptionRenewal(r: Receipt, now: int, others: seq<Step>) returns (errs: Errs)
      modifies store
      ensures (store.Snapshot(), errs) == RenewReceipt(old(store.Snapshot()), r, now, others)
    {
      if !(0 < r.order <= |store.orders|) {
        OtherWriters(others);
        errs := Quarantine(r, OtherReason("subscription_renewal_unknown_order"), now);
        return;
      }
      var o := store.orders[r.order - 1];
      OtherWriters(others);
      errs := RenewOrder(o, r, now);
    }

    method RenewOrder(o: Order, r: Receipt, now: int) returns (errs: Errs)
      modifies store
      ensures (store.Snapshot(), errs) == RenewFor(old(store.Snapshot()), o, r, now)
    {
      if !AcceptsRenewal(o, r, now) {
        errs := Quarantine(r, ReceiptMismatch, now);
      } else {
        errs := store.RecordSubscriptionRenewalFact(r.order, FactOf(r, Stars), ContractOf(o, r, false, now).value, now);
      }
    }
  }
}
