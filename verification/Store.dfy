/**
 The store as the program writes it: one object whose tables its methods update in place
 (internal/storage). Every method is proved against the transaction it implements; a
 refused transaction rolls back to the tables it found.
 */
module Store {
  import opened Wrappers
  import opened Ledger
  import opened Tables
  import opened Anomalies
  import opened Recording
  import opened Subscriptions
  import opened Orders
  import opened Refunds
  import opened Reviews

  class LedgerStore {
    var orders: seq<Order>
    var attempts: seq<Attempt>
    var events: seq<Event>
    var refunds: seq<Refund>
    var anomalies: seq<Anomaly>
    var resolutions: map<Target, Resolution>
    var subscriptions: map<(int, int), Subscription>
    var stock: map<int, int>
    var promos: map<string, int>
    var usages: seq<Usage>

    constructor (catalogue: map<int, int>, codes: map<string, int>)
      ensures Snapshot() == Genesis(catalogue, codes)
    {
      orders, attempts, events, refunds, anomalies := [], [], [], [], [];
      resolutions, subscriptions, stock, promos, usages := map[], map[], catalogue, codes, [];
    }

    /** The tables as one value. */
    function Snapshot(): DB
      reads this
    {
      DB(orders, attempts, events, refunds, anomalies, resolutions, subscriptions, stock, promos, usages)
    }

    method Restore(saved: DB)
      modifies this
      ensures Snapshot() == saved
    {
      orders, attempts, events, refunds := saved.orders, saved.attempts, saved.events, saved.refunds;
      anomalies, resolutions, subscriptions := saved.anomalies, saved.resolutions, saved.subs;
      stock, promos, usages := saved.stock, saved.promos, saved.usages;
    }

    // ----- payment_anomalies.go -----

    method FlagOrder(id: int)
      modifies this`orders
      ensures Snapshot() == Flag(old(Snapshot()), id)
    {
      if 0 < id <= |orders| {
        orders := orders[id - 1 := orders[id - 1].(pay := NeedsReview)];
      }
    }

    method RecordPaymentAnomaly(f: AnomalyFact, now: int) returns (errs: Errs)
      modifies this
      ensures (Snapshot(), errs) == RecordAnomaly(old(Snapshot()), f, now)
    {
      if !Acceptable(f) {
        return {PaymentReceiptMismatch};
      }
      var existing := FindAnomaly(anomalies, f);
      if existing.Some? {
        var i := existing.value;
        if f.at.Some? && anomalies[i].at != f.at.value {
          return {PaymentIdentityConflict};
        }
        if AnomalyTarget(i) in resolutions {
          return {};
        }
      } else {
        anomalies := anomalies + [AnomalyRow(Snapshot(), f, now)];
      }
      FlagOrder(f.order);
      return {PaymentNeedsReview};
    }

    // ----- order_ledger_helpers.go -----

    method InsertAttempt(a: Attempt, disp: Disposition)
      modifies this`attempts, this`events
      ensures Snapshot() == InsertCapture(old(Snapshot()), a, disp)
    {
      events := events + [CaptureEvent(a, |attempts|, disp)];
      attempts := attempts + [a];
    }

    method FillExpiry(i: nat, expiry: int)
      requires i < |attempts|
      modifies this`attempts
      ensures Snapshot() == FillEntitlement(old(Snapshot()), i, expiry)
    {
      attempts := attempts[i := attempts[i].(entitlement := Some(expiry))];
    }

    method ObservePayment(id: int, f: Fact, expiry: Option<int>, now: int) returns (errs: Errs)
      modifies this`attempts, this`events
      ensures (Snapshot(), errs) == Observe(old(Snapshot()), id, f, expiry, now)
    {
      var existing := FindAttempt(attempts, f.provider, f.ext);
      if existing.None? {
        InsertAttempt(AttemptOf(id, f, Observed, expiry, now), EventObserved);
        return {};
      }
      var a := attempts[existing.value];
      if a.order != id {
        return {PaymentIdentityConflict};
      }
      if a.amount != f.amount || a.currency != f.currency || a.scale != f.scale || a.status != Succeeded
         || (f.payer > 0 && a.payer != f.payer) || (f.at.Some? && a.at != f.at.value) {
        return {PaymentIdentityConflict};
      }
      if expiry.Some? {
        if a.entitlement.Some? && a.entitlement != expiry {
          return {PaymentIdentityConflict};
        }
        if a.entitlement.None? {
          FillExpiry(existing.value, expiry.value);
        }
      }
      return {OrderStatusConflict};
    }

    method MarkPaymentSettled()
      requires |attempts| > 0 && |events| > 0
      modifies this`attempts, this`events
      ensures Snapshot() == MarkSettled(old(Snapshot()))
    {
      attempts := attempts[|attempts| - 1 := attempts[|attempts| - 1].(status := Succeeded)];
      events := events[|events| - 1 := events[|events| - 1].(disp := EventSettled)];
    }

    // ----- payment_recording.go -----

    method RecordUnexpectedCapture(id: int, f: Fact, reason: Reason, now: int) returns (errs: Errs)
      requires 0 < id <= |orders|
      modifies this
      ensures (Snapshot(), errs) == RecordCapture(old(Snapshot()), id, f, reason, now)
    {
      var existing := FindAttempt(attempts, f.provider, f.ext);
      if existing.None? {
        InsertAttempt(AttemptOf(id, f, Quarantined, f.entitlement, now), EventNeedsReview);
        FlagOrder(id);
        return {PaymentNeedsReview};
      }
      var a := attempts[existing.value];
      if ExactFact(a, id, f) {
        if a.status == Succeeded {
          return {};
        }
        if a.status == Quarantined {
          if ResolvedCapture(Snapshot(), existing.value) {
            return {};
          }
          return {PaymentNeedsReview};
        }
      }
      var why := reason;
      if a.order != id {
        why := IdentityConflict;
      }
      var anomalyErrs := RecordPaymentAnomaly(AnomalyFromFact(id, f, why), now);
      return {PaymentIdentityConflict} + anomalyErrs;
    }

    method RecordUnexpectedPaymentFact(id: int, f: Fact, reason: Reason, now: int) returns (errs: Errs)
      modifies this
      ensures (Snapshot(), errs) == RecordUnexpected(old(Snapshot()), id, f, reason, now)
    {
      if !(0 < id <= |orders|) {
        return {NotFound};
      }
      var anomalyErrs: Errs;
      if ReplaysResolved(Snapshot(), id, f) {
        var i := FindAttempt(attempts, f.provider, f.ext).value;
        if ExactFact(attempts[i], id, f) {
          return {};
        }
        anomalyErrs := RecordPaymentAnomaly(AnomalyFromFact(id, f, FactMismatch), now);
        return {PaymentIdentityConflict, PaymentReceiptMismatch} + anomalyErrs;
      }
      var invalid := ValidateFact(orders[id - 1], f);
      if invalid == {} {
        errs := RecordUnexpectedCapture(id, f, reason, now);
        return errs;
      }
      var existing := FindAttempt(attempts, f.provider, f.ext);
      if existing.Some? && attempts[existing.value].order == id {
        anomalyErrs := RecordPaymentAnomaly(AnomalyFromFact(id, f, FactMismatch), now);
        return invalid + anomalyErrs;
      }
      return invalid;
    }

    // ----- payment_ingress.go -----

    method IngestProviderCapture(id: int, f: Fact, now: int) returns (errs: Errs)
      modifies this
      ensures (Snapshot(), errs) == IngestCapture(old(Snapshot()), id, f, now)
    {
      if !(0 < id <= |orders|) {
        return {NotFound};
      }
      if f.payer <= 0 || f.payer != orders[id - 1].user || f.at.None? {
        return {PaymentReceiptMismatch};
      }
      var invalid := ValidateFact(orders[id - 1], f);
      if invalid != {} {
        return invalid;
      }
      var existing := FindAttempt(attempts, f.provider, f.ext);
      if existing.None? {
        errs := RecordUnexpectedCapture(id, f, OtherReason("operator_ingested_provider_capture"), now);
        return errs;
      }
      if IngestReplay(attempts[existing.value], id, f) {
        return {};
      }
      var anomalyErrs := RecordPaymentAnomaly(
        IngestAnomaly(id, f), now);
      var others: Errs := {};
      if PaymentNeedsReview !in anomalyErrs {
        others := anomalyErrs;
      }
      return {PaymentIdentityConflict} + others;
    }

    // ----- subscription_orders.go -----

    method ActivateSubscription(c: Contract, now: int) returns (ok: bool)
      modifies this`subscriptions
      ensures ok == Activate(old(subscriptions), c, now).Some?
      ensures subscriptions == if ok then Activate(old(subscriptions), c, now).value else old(subscriptions)
    {
      if c.Key() in subscriptions {
        var s := subscriptions[c.Key()];
        if s.order == c.order && s.charge == c.charge {
          return true;
        }
        if s.status != Expired && s.expires > now {
          return false;
        }
      }
      subscriptions := subscriptions[c.Key() := Subscription(c.order, c.charge, Active, c.expires)];
      return true;
    }

    method RenewSubscription(c: Contract, days: int, replay: bool, now: int) returns (ok: bool)
      modifies this`subscriptions
      ensures ok == Extend(old(subscriptions), c, days, replay, now).Some?
      ensures subscriptions == if ok then Extend(old(subscriptions), c, days, replay, now).value else old(subscriptions)
    {
      if c.Key() !in subscriptions {
        return false;
      }
      var s := subscriptions[c.Key()];
      if s.status != Active || s.order != c.order {
        return false;
      }
      if c.expires <= s.expires {
        return replay;
      }
      var latest := s.expires;
      if now > latest {
        latest := now;
      }
      if days <= 0 || c.expires <= now || c.expires > latest + days * DAY + DAY {
        return false;
      }
      subscriptions := subscriptions[c.Key() := s.(expires := c.expires)];
      return true;
    }

    // ----- orders.go -----

    method CreatePendingOrder(d: Draft, now: int) returns (id: int, errs: Errs)
      modifies this`orders
      ensures (Snapshot(), errs) == CreateOrder(old(Snapshot()), d, now)
      ensures errs == {} ==> id == |orders| && orders[id - 1] == OrderOf(d)
    {
      if d.subProduct != 0 {
        if d.subDays <= 0 || |d.items| != 1 || d.items[0].product != d.subProduct || d.items[0].quantity != 1 {
          return 0, {InvalidSubscriptionCart};
        }
        if Reserved(Snapshot(), d.user, d.subProduct, now) {
          return 0, {SubscriptionOrderConflict};
        }
      }
      orders := orders + [OrderOf(d)];
      return |orders|, {};
    }

    method CancelPendingOrder(id: int, user: int) returns (errs: Errs)
      modifies this`orders
      ensures (Snapshot(), errs) == CancelOrder(old(Snapshot()), id, user)
    {
      if !(0 < id <= |orders|) {
        return {NotFound};
      }
      var o := orders[id - 1];
      if o.user != user || o.status != Pending || o.pay != PayPending {
        return {NotFound};
      }
      orders := orders[id - 1 := o.(status := Cancelled, axis := OrderCancelled, pay := PayCancelled, fulfillment := Unfulfilled)];
      return {};
    }

    method DeliverOrder(id: int) returns (errs: Errs)
      modifies this`orders
      ensures (Snapshot(), errs) == Deliver(old(Snapshot()), id)
    {
      if !(0 < id <= |orders|) {
        return {OrderStatusConflict};
      }
      var o := orders[id - 1];
      if o.status != Paid || (o.pay != Settled && o.pay != PartiallyRefunded) {
        return {OrderStatusConflict};
      }
      orders := orders[id - 1 := o.(status := Delivered, axis := Completed, fulfillment := Fulfilled)];
      return {};
    }

    /** The stock loop: it stops at the first line it cannot cover. */
    method DecrementStock(items: seq<Item>) returns (ok: bool)
      modifies this`stock
      ensures ok == TakeStock(old(stock), items).Some?
      ensures ok ==> Some(stock) == TakeStock(old(stock), items)
    {
      for i := 0 to |items|
        invariant Some(stock) == TakeStock(old(stock), items[..i])
      {
        assert items[..i + 1][..i] == items[..i];
        var line := items[i];
        if line.product !in stock || stock[line.product] < line.quantity {
          StockShort(old(stock), items, i);
          return false;
        }
        stock := stock[line.product := stock[line.product] - line.quantity];
      }
      assert items[..|items|] == items;
      return true;
    }

    method CountPromo(id: int)
      requires 0 < id <= |orders|
      modifies this`usages, this`promos
      ensures Snapshot() == UsePromo(old(Snapshot()), id)
    {
      var o := orders[id - 1];
      if o.promo != "" && o.promo in promos {
        if !HasUsage(usages, o.promo, o.user) {
          usages := usages + [Usage(o.promo, o.user, id)];
          promos := promos[o.promo := promos[o.promo] + 1];
        }
      }
    }

    /** What a settled order takes: its goods, its promo use and the access it bought. When
        it fails, the caller rolls back. */
    method SellOrder(id: int, c: Option<Contract>, now: int) returns (errs: Errs)
      requires 0 < id <= |orders|
      modifies this`stock, this`usages, this`promos, this`subscriptions
      ensures match TakeStock(old(stock), orders[id - 1].items)
              case None => errs == {ProductOutOfStock}
              case Some(left) =>
                var used := UsePromo(old(Snapshot()).(stock := left), id);
                if c.None? then errs == {} && Snapshot() == used
                else match Activate(old(subscriptions), c.value, now)
                  case None => errs == {SubscriptionOrderConflict}
                  case Some(subs) => errs == {} && Snapshot() == used.(subs := subs)
    {
      var covered := DecrementStock(orders[id - 1].items);
      if !covered {
        return {ProductOutOfStock};
      }
      CountPromo(id);
      if c.Some? {
        var activated := ActivateSubscription(c.value, now);
        if !activated {
          return {SubscriptionOrderConflict};
        }
      }
      return {};
    }

    method WriteSettlement(id: int, f: Fact)
      requires 0 < id <= |orders| && |attempts| > 0 && |events| > 0
      modifies this`orders, this`attempts, this`events
      ensures Snapshot() == MarkSettled(old(Snapshot())).SetOrder(id, SettledOrder(old(orders)[id - 1], f))
    {
      orders := orders[id - 1 := SettledOrder(orders[id - 1], f)];
      MarkPaymentSettled();
    }

    method SettlePending(id: int, f: Fact, c: Option<Contract>, now: int) returns (errs: Errs)
      requires 0 < id <= |orders|
      modifies this
      ensures (Snapshot(), errs) == SettleFresh(old(Snapshot()), id, f, c, now)
    {
      var saved := Snapshot();
      errs := ObservePayment(id, f, if c.Some? then Some(c.value.expires) else None, now);
      if errs != {} {
        Restore(saved);
        return;
      }
      WriteSettlement(id, f);
      errs := SellOrder(id, c, now);
      if errs != {} {
        Restore(saved);
      }
    }

    /** An order that is no longer payable: repair an exact replay's entitlement. */
    method SettleAgain(id: int, f: Fact, c: Option<Contract>, now: int) returns (errs: Errs, fact: Fact)
      requires 0 < id <= |orders|
      modifies this
      ensures Settlement(Snapshot(), errs, fact) == SettleReplay(old(Snapshot()), id, f, c, now)
    {
      var saved, o := Snapshot(), orders[id - 1];
      fact := f;
      if c.Some? && ReplaysSettlement(o, f) {
        var contract := c.value;
        var persisted := PersistedExpiry(saved, id, f);
        if persisted.Some? {
          if f.entitlement.Some? && f.entitlement != persisted {
            return {PaymentIdentityConflict}, fact;
          }
          contract := contract.(expires := persisted.value);
          fact := fact.(entitlement := persisted);
        }
        var activated := ActivateSubscription(contract, now);
        if !activated {
          return {SubscriptionOrderConflict}, fact;
        }
        errs := ObservePayment(id, fact, Some(contract.expires), now);
        if errs != {} && errs != {OrderStatusConflict} {
          Restore(saved);
          return errs, fact;
        }
        return {OrderStatusConflict}, fact;
      }
      errs := {};
      if o.rail == Some(f.provider) && o.paymentID == f.ext {
        errs := ObservePayment(id, f, if c.Some? then Some(c.value.expires) else None, now);
        Restore(saved);
      }
      if errs == {} {
        errs := {OrderStatusConflict};
      }
    }

    method UpdateOrderStatusOnce(id: int, f: Fact, c: Option<Contract>, now: int) returns (errs: Errs, fact: Fact)
      modifies this
      ensures Settlement(Snapshot(), errs, fact) == SettleOnce(old(Snapshot()), id, f, c, now)
    {
      if !(0 < id <= |orders|) {
        return {OrderStatusConflict}, f;
      }
      var o := orders[id - 1];
      if c.Some? && !Settles(o, id, f.provider, f.ext, c.value) {
        return {PaymentReceiptMismatch}, f;
      }
      var invalid := ValidateFact(o, f);
      if invalid != {} {
        return invalid, f;
      }
      if o.status != Pending || o.pay != PayPending {
        errs, fact := SettleAgain(id, f, c, now);
        return;
      }
      errs := SettlePending(id, f, c, now);
      fact := f;
    }

    method UpdateOrderStatus(id: int, f: Fact, c: Option<Contract>, now: int) returns (errs: Errs)
      modifies this
      ensures (Snapshot(), errs) == Settle(old(Snapshot()), id, f, c, now)
    {
      var fact: Fact;
      var recordErrs: Errs;
      errs, fact := UpdateOrderStatusOnce(id, f, c, now);
      if PaymentIdentityConflict in errs {
        recordErrs := RecordPaymentAnomaly(AnomalyFromFact(id, fact, IdentityConflict), now);
        var others: Errs := {};
        if PaymentNeedsReview !in recordErrs {
          others := recordErrs;
        }
        return {PaymentIdentityConflict} + others;
      }
      if SubscriptionOrderConflict in errs && c.Some? {
        recordErrs := RecordUnexpectedPaymentFact(id, fact, EntitlementConflict, now);
        if recordErrs == {} {
          return {};
        }
        if PaymentNeedsReview in recordErrs {
          return {PaymentNeedsReview};
        }
        return {PaymentNeedsReview} + recordErrs;
      }
    }

    // ----- renewals (payment_recording.go) -----

    /** A renewal charge the ledger already holds. */
    method RenewAgain(id: int, i: nat, f: Fact, c: Contract, now: int) returns (errs: Errs)
      requires 0 < id <= |orders| && i < |attempts| && f.entitlement.Some?
      modifies this`attempts, this`subscriptions
      ensures (Snapshot(), errs) == RenewExisting(old(Snapshot()), id, i, f, c, now)
    {
      var a := attempts[i];
      if a.order != id || a.amount != f.amount || a.currency != f.currency || a.scale != f.scale
         || (f.payer > 0 && a.payer != f.payer) || (f.at.Some? && a.at != f.at.value) {
        return {PaymentIdentityConflict};
      }
      if a.entitlement.Some? && a.entitlement != f.entitlement {
        return {PaymentIdentityConflict};
      }
      if a.status == Quarantined {
        if a.entitlement.None? {
          FillExpiry(i, f.entitlement.value);
          return {PaymentNeedsReview};
        }
        if ResolvedCapture(Snapshot(), i) {
          return {};
        }
        return {PaymentNeedsReview};
      }
      if a.status != Succeeded {
        return {PaymentIdentityConflict};
      }
      var renewed := RenewSubscription(c, orders[id - 1].subDays, true, now);
      if !renewed {
        return {SubscriptionOrderConflict};
      }
      if a.entitlement.None? {
        FillExpiry(i, c.expires);
      }
      return {};
    }

    /** A renewal charge seen for the first time. */
    method RenewFirst(id: int, f: Fact, c: Contract, now: int) returns (errs: Errs)
      requires 0 < id <= |orders|
      modifies this`orders, this`attempts, this`events, this`subscriptions
      ensures (Snapshot(), errs) == RenewFresh(old(Snapshot()), id, f, c, now)
    {
      var renewed := RenewSubscription(c, orders[id - 1].subDays, false, now);
      if !renewed {
        return {SubscriptionOrderConflict};
      }
      InsertAttempt(AttemptOf(id, f, Succeeded, Some(c.expires), now), EventSettled);
      var pay := Settled;
      if OrderRefunded(refunds, id, f.provider) > 0 {
        pay := PartiallyRefunded;
      }
      orders := orders[id - 1 := orders[id - 1].(pay := pay)];
      return {};
    }

    method RecordSubscriptionRenewalOnce(id: int, f: Fact, c: Contract, now: int) returns (errs: Errs)
      modifies this
      ensures (Snapshot(), errs) == RenewOnce(old(Snapshot()), id, f, c, now)
    {
      if f.provider != Stars || f.ext == "" || f.entitlement.None? {
        return {PaymentReceiptMismatch};
      }
      if !(0 < id <= |orders|) {
        return {NotFound};
      }
      var o := orders[id - 1];
      if (o.status != Paid && o.status != Delivered) || (o.pay != Settled && o.pay != PartiallyRefunded && o.pay != Refunded) {
        return {OrderStatusConflict};
      }
      var invalid := ValidateFact(o, f);
      if invalid != {} {
        return invalid;
      }
      if f.entitlement != Some(c.expires) || !Settles(o, id, f.provider, f.ext, c) {
        return {PaymentReceiptMismatch};
      }
      var existing := FindAttempt(attempts, f.provider, f.ext);
      if existing.Some? {
        errs := RenewAgain(id, existing.value, f, c, now);
      } else {
        errs := RenewFirst(id, f, c, now);
      }
    }

    method RecordSubscriptionRenewalFact(id: int, f: Fact, c: Contract, now: int) returns (errs: Errs)
      modifies this
      ensures (Snapshot(), errs) == Renew(old(Snapshot()), id, f, c, now)
    {
      if !(0 < id <= |orders|) {
        return {NotFound};
      }
      var invalid := ValidateFact(orders[id - 1], f);
      if invalid != {} {
        return invalid;
      }
      if f.entitlement != Some(c.expires) {
        return {PaymentReceiptMismatch};
      }
      errs := RecordSubscriptionRenewalOnce(id, f, c, now);
      var reason := RenewalReason(errs);
      if reason.None? {
        return;
      }
      var kept := PaymentNeedsReview;
      if reason.value == RenewalIdentityConflict {
        kept := PaymentIdentityConflict;
      }
      var recordErrs := RecordUnexpectedPaymentFact(id, f, reason.value, now);
      if recordErrs == {} {
        return {};
      }
      if PaymentNeedsReview in recordErrs {
        return {kept};
      }
      return {kept} + recordErrs;
    }

    // ----- ledger.go -----

    method ReconcileRefundedEntitlement(order: int, p: Provider, entitlement: Option<int>, full: bool, now: int) returns (suspicious: bool)
      requires 0 < order <= |orders|
      modifies this`subscriptions
      ensures Rollback(subscriptions, suspicious) == RollBack(old(Snapshot()), order, p, entitlement, full, now)
    {
      var o := orders[order - 1];
      if !full || o.subProduct <= 0 {
        return false;
      }
      var key := (o.user, o.subProduct);
      if key !in subscriptions {
        return true;
      }
      var s := subscriptions[key];
      var latest := LatestOpenPeriod(attempts, refunds, order, p);
      if latest.Some? {
        var status := Expired;
        if s.status == Canceled {
          status := Canceled;
        } else if latest.value > now {
          status := Active;
        }
        subscriptions := subscriptions[key := s.(expires := latest.value, status := status)];
        return false;
      }
      var expires := now;
      if s.expires < now {
        expires := s.expires;
      }
      subscriptions := subscriptions[key := s.(expires := expires, status := if s.status == Canceled then Canceled else Expired)];
      return entitlement.None?;
    }

    method ProjectRefund(id: int, p: Provider, suspicious: bool)
      requires 0 < id <= |orders|
      modifies this`orders
      ensures Snapshot() == old(Snapshot()).SetPay(id,
        if old(Snapshot()).Ord(id).pay == NeedsReview || suspicious then NeedsReview else RefundedState(old(Snapshot()), id, p))
    {
      var pay := PartiallyRefunded;
      if OrderRefunded(refunds, id, p) == OrderCaptured(attempts, id, p) {
        pay := Refunded;
      }
      if orders[id - 1].pay == NeedsReview || suspicious {
        pay := NeedsReview;
      }
      orders := orders[id - 1 := orders[id - 1].(pay := pay)];
    }

    /** The committing half of the refund transaction. */
    method CommitRefund(i: nat, r: Refund, now: int) returns (errs: Errs)
      requires i < |attempts| && 0 < r.order <= |orders|
      modifies this
      ensures (Snapshot(), errs) == ApplyRefund(old(Snapshot()), i, r, now)
    {
      ghost var before := Snapshot();
      var a := attempts[i];
      var full := RefundedOf(refunds, a) + r.amount == a.amount;
      refunds := refunds + [r];
      var suspicious := ReconcileRefundedEntitlement(r.order, r.provider, a.entitlement, full, now);
      var disposition := EventSettled;
      if a.status == Quarantined || suspicious {
        disposition := EventNeedsReview;
      }
      events := events + [RefundEvent(r, disposition)];
      assert Snapshot() == before.(refunds := refunds, events := events, subs := subscriptions);
      ProjectRefund(r.order, r.provider, suspicious);
      if suspicious {
        return {PaymentNeedsReview};
      }
      return {};
    }

    method RecordRefundOnce(f: RefundFact, now: int) returns (errs: Errs)
      modifies this
      ensures (Snapshot(), errs) == RefundOnce(old(Snapshot()), f, now)
    {
      var provider := f.name.Normalized();
      if f.amount <= 0 || f.ext == "" || f.parent == "" {
        return {InvalidMoney};
      }
      if provider.None? || f.scale < 0 || f.scale > 9 || f.currency.IsBlank() {
        return {PaymentReceiptMismatch};
      }
      var parent := FindAttempt(attempts, provider.value, f.parent);
      if parent.None? || attempts[parent.value].status == Observed {
        return {NotFound};
      }
      var a := attempts[parent.value];
      if a.order != f.order || a.currency != f.currency || a.scale != f.scale
         || (f.payer > 0 && a.payer > 0 && f.payer != a.payer) {
        return {PaymentIdentityConflict};
      }
      var existing := FindRefund(refunds, provider.value, f.ext);
      if existing.Some? {
        if SameRefund(refunds[existing.value], f) {
          return {};
        }
        return {PaymentIdentityConflict};
      }
      if RefundedOf(refunds, a) + f.amount > a.amount {
        return {RefundExceedsPayment};
      }
      if !(0 < f.order <= |orders|) {
        return {OtherError};
      }
      errs := CommitRefund(parent.value, RefundRow(f, provider.value, now), now);
    }

    method RecordProviderRefund(f: RefundFact, now: int) returns (errs: Errs)
      modifies this
      ensures (Snapshot(), errs) == RecordRefund(old(Snapshot()), f, now)
    {
      errs := RecordRefundOnce(f, now);
      var reason := RefusalReason(errs);
      if reason.Some? {
        var recordErrs := RecordPaymentAnomaly(RefundAnomaly(Snapshot(), f, reason.value), now);
        var others: Errs := {};
        if PaymentNeedsReview !in recordErrs {
          others := recordErrs;
        }
        return errs + others;
      }
    }

    method IngestProviderRefund(f: RefundFact, now: int) returns (errs: Errs)
      modifies this
      ensures (Snapshot(), errs) == IngestRefund(old(Snapshot()), f, now)
    {
      if f.payer <= 0 || f.at.None? || (f.name.Normalized() == Some(Stars) && f.ext != f.parent) {
        return {PaymentReceiptMismatch};
      }
      if !(0 < f.order <= |orders|) {
        return {NotFound};
      }
      if orders[f.order - 1].user != f.payer {
        return {PaymentReceiptMismatch};
      }
      errs := RecordProviderRefund(f, now);
    }

    // ----- payment_resolutions.go -----

    /** Every target needs a decision the ledger supports. */
    method DecideTargets(r: ReviewRequest, targets: set<Target>) returns (ok: bool, decisions: map<Target, Decision>)
      ensures ok <==> forall t :: t in targets ==> Decide(Snapshot(), t, r.decision, r.result).Some?
      ensures ok ==> decisions.Keys == targets
      ensures ok ==> forall t :: t in targets ==> Decide(Snapshot(), t, r.decision, r.result) == Some(decisions[t])
    {
      decisions := map[];
      var remaining := targets;
      while remaining != {}
        invariant decisions.Keys + remaining == targets && decisions.Keys !! remaining
        invariant forall t :: t in decisions ==> Decide(Snapshot(), t, r.decision, r.result) == Some(decisions[t])
      {
        var t :| t in remaining;
        var decision := Decide(Snapshot(), t, r.decision, r.result);
        if decision.None? {
          return false, decisions;
        }
        decisions := decisions[t := decision.value];
        remaining := remaining - {t};
      }
      ok := true;
    }

    /** One resolution row per target. */
    method InsertResolutions(r: ReviewRequest, decisions: map<Target, Decision>)
      modifies this`resolutions
      ensures resolutions == old(resolutions) + map t | t in decisions :: ResolutionRow(r, decisions[t])
    {
      var done, remaining: set<Target> := {}, decisions.Keys;
      while remaining != {}
        invariant done + remaining == decisions.Keys && done !! remaining
        invariant resolutions == old(resolutions) + map t | t in done :: ResolutionRow(r, decisions[t])
      {
        var t :| t in remaining;
        resolutions := resolutions[t := ResolutionRow(r, decisions[t])];
        done, remaining := done + {t}, remaining - {t};
      }
      assert done == decisions.Keys;
    }

    /** The order under review and its decided targets: derive, compare, write. */
    method CloseReview(r: ReviewRequest, decisions: map<Target, Decision>) returns (errs: Errs)
      requires forall t :: t in decisions ==> Decide(Snapshot(), t, r.decision, r.result) == Some(decisions[t])
      modifies this`resolutions, this`orders
      ensures (Snapshot(), errs) == Close(old(Snapshot()), r, decisions.Keys)
    {
      var known := 0 < r.order <= |orders|;
      var elsewhere := false;
      var derived: Option<Projection> := None;
      if known {
        elsewhere := OpenElsewhere(Snapshot(), r.order, r.provider);
        if elsewhere {
          if r.result != Some(NeedsReview) {
            return {PaymentReviewConflict};
          }
        } else {
          derived := Derive(Snapshot(), r, decisions.Keys);
          if derived.None? || r.result != Some(derived.value.pay) {
            return {PaymentReviewConflict};
          }
        }
      }
      ghost var before := Snapshot();
      InsertResolutions(r, decisions);
      DecidedRows(before, r, decisions);
      assert Snapshot() == WithResolutions(before, r, decisions.Keys);
      if !known {
        return {};
      }
      if elsewhere {
        return {PaymentNeedsReview};
      }
      var o := orders[r.order - 1];
      var axis := o.axis;
      if derived.value.status == Cancelled {
        axis := OrderCancelled;
      }
      orders := orders[r.order - 1 := o.(status := derived.value.status, axis := axis, pay := derived.value.pay)];
      if r.result == Some(NeedsReview) {
        return {PaymentNeedsReview};
      }
      return {};
    }

    method ResolvePaymentReview(r: ReviewRequest) returns (errs: Errs)
      modifies this`resolutions, this`orders
      ensures (Snapshot(), errs) == Resolve(old(Snapshot()), r)
    {
      if !ValidRequest(r) {
        return {PaymentReviewConflict};
      }
      if ReplaysBatch(Snapshot(), r) {
        if 0 < r.order <= |orders| && r.provider != UnknownProvider && orders[r.order - 1].pay == NeedsReview {
          return {PaymentNeedsReview};
        }
        return {};
      }
      var targets := CaseTargets(Snapshot(), r);
      if targets.None? {
        return {NotFound};
      }
      if 0 < r.order <= |orders| && orders[r.order - 1].pay != NeedsReview {
        return {OrderStatusConflict};
      }
      if NamedTargets(r) != targets.value {
        return {PaymentReviewConflict};
      }
      var decided, decisions := DecideTargets(r, targets.value);
      if !decided {
        return {PaymentReviewConflict};
      }
      errs := CloseReview(r, decisions);
    }
  }

  /** The rows inserted are the rows of the decisions the ledger supports. */
  lemma DecidedRows(db: DB, r: ReviewRequest, decisions: map<Target, Decision>)
    requires forall t :: t in decisions ==> Decide(db, t, r.decision, r.result) == Some(decisions[t])
    ensures WithResolutions(db, r, decisions.Keys).resolutions
         == db.resolutions + map t | t in decisions :: ResolutionRow(r, decisions[t])
  {
  }

  /** A line that cannot be covered fails the whole list. */
  lemma {:induction false} StockShort(stock: map<int, int>, items: seq<Item>, i: nat)
    requires i < |items| && TakeStock(stock, items[..i]).Some?
    requires var left := TakeStock(stock, items[..i]).value;
      items[i].product !in left || left[items[i].product] < items[i].quantity
    ensures TakeStock(stock, items).None?
  {
    var front := items[..|items| - 1];
    if i < |front| {
      assert front[..i] == items[..i];
      StockShort(stock, front, i);
    }
  }
}
