/** A refund row and its event keep the invariant (internal/storage/ledger.go:233-384). */
module RefundEffects {
  import opened Ledger
  import opened Tables
  import opened Refunds
  import opened Invariant
  import opened Effects

  /** A refund of capture `i` that the books can still take. */
  ghost predicate Refundable(rows: seq<Attempt>, refunds: seq<Refund>, r: Refund, i: nat) {
    && ParentAt(rows, r, i) && r.amount > 0
    && RefundedOf(refunds, rows[i]) + r.amount <= rows[i].amount
    && forall k :: 0 <= k < |refunds| ==> !IsRefund(refunds[k], r.provider, r.ext)
  }

  /** A refund moves the total of its own capture and of no other. */
  lemma RefundMovesOne(rows: seq<Attempt>, refunds: seq<Refund>, r: Refund, i: nat)
    requires UniqueCaptures(rows) && ParentAt(rows, r, i)
    ensures RefundedOf(refunds + [r], rows[i]) == RefundedOf(refunds, rows[i]) + r.amount
    ensures forall j :: 0 <= j < |rows| && j != i ==> RefundedOf(refunds + [r], rows[j]) == RefundedOf(refunds, rows[j])
  {
  }

  lemma RefundEntered(rows: seq<Attempt>, refunds: seq<Refund>, r: Refund, i: nat)
    requires UniqueCaptures(rows) && RefundsOK(rows, refunds) && Refundable(rows, refunds, r, i)
    ensures RefundsOK(rows, refunds + [r])
  {
  }

  lemma RefundBacked(events: seq<Event>, rows: seq<Attempt>, refunds: seq<Refund>, r: Refund, disp: Disposition)
    requires EventsBacked(events, rows, refunds) && disp != EventObserved
    ensures EventsBacked(events + [RefundEvent(r, disp)], rows, refunds + [r])
  {
    var events', refunds' := events + [RefundEvent(r, disp)], refunds + [r];
    forall e | 0 <= e < |events'| ensures EventOK(events'[e], rows, refunds') {
      if e < |events| {
        assert EventOK(events[e], rows, refunds);
        if events[e].kind == RefundedKind {
          var k :| 0 <= k < |refunds| && RepeatsRefund(events[e], refunds[k]);
          assert refunds'[k] == refunds[k];
        }
      } else {
        assert RepeatsRefund(events'[e], refunds'[|refunds|]);
      }
    }
  }

  lemma RefundUnique(events: seq<Event>, rows: seq<Attempt>, refunds: seq<Refund>, r: Refund, disp: Disposition)
    requires UniqueEvents(events) && EventsBacked(events, rows, refunds)
    requires forall k :: 0 <= k < |refunds| ==> !IsRefund(refunds[k], r.provider, r.ext)
    ensures UniqueEvents(events + [RefundEvent(r, disp)])
  {
  }

  lemma RefundBooks(db: DB, r: Refund, i: nat, disp: Disposition)
    requires Books(db) && Refundable(db.attempts, db.refunds, r, i) && disp != EventObserved
    ensures Books(Entered(db, r, disp))
  {
    var last := RefundEvent(r, disp);
    RefundEntered(db.attempts, db.refunds, r, i);
    RefundBacked(db.events, db.attempts, db.refunds, r, disp);
    RefundUnique(db.events, db.attempts, db.refunds, r, disp);
    LogGrows(db.events, last, |db.attempts|, db.refunds);
    RefundLoggedLast(db.events, db.refunds, r, disp);
  }

  lemma RefundLoggedLast(events: seq<Event>, refunds: seq<Refund>, r: Refund, disp: Disposition)
    requires RefundsLogged(events + [RefundEvent(r, disp)], refunds) && disp != EventObserved
    ensures RefundsLogged(events + [RefundEvent(r, disp)], refunds + [r])
  {
    var events' := events + [RefundEvent(r, disp)];
    assert RepeatsRefund(events'[|events|], r);
    assert RefundLogged(events', r);
  }

  /** The tables after a refund, the order still as it was. */
  function Entered(db: DB, r: Refund, disp: Disposition): DB {
    db.(refunds := db.refunds + [r], events := db.events + [RefundEvent(r, disp)])
  }

  lemma RefundQuarantine(db: DB, r: Refund, disp: Disposition, pay: PayState)
    requires Quarantine(db) && db.HasOrder(r.order)
    requires disp == EventNeedsReview || db.Ord(r.order).pay == NeedsReview ==> pay == NeedsReview
    ensures Quarantine(Entered(db, r, disp).SetPay(r.order, pay))
  {
  }

  lemma RefundResolutions(db: DB, r: Refund, i: nat, disp: Disposition, pay: PayState)
    requires Resolutions(db) && db.HasOrder(r.order) && UniqueCaptures(db.attempts)
    requires Refundable(db.attempts, db.refunds, r, i)
    ensures Resolutions(Entered(db, r, disp).SetPay(r.order, pay))
  {
    var db' := Entered(db, r, disp).SetPay(r.order, pay);
    RefundMovesOne(db.attempts, db.refunds, r, i);
    forall t | t in db'.resolutions ensures TargetInRange(db', t) { assert TargetInRange(db, t); }
    assert EventTarget(|db.events|) !in db.resolutions;
    forall e: nat | e < |db'.events| ensures ResolutionOK(db', e) {
      if e < |db.events| { assert ResolutionOK(db, e); }
    }
  }

  /** Refunding another order's capture leaves this order's row alone. */
  lemma RefundElsewhereOrder(rows: seq<Attempt>, refunds: seq<Refund>, r: Refund, i: nat, id: int, o: Order)
    requires UniqueCaptures(rows) && ParentAt(rows, r, i) && r.order != id
    requires OrderOK(rows, refunds, id, o)
    ensures OrderOK(rows, refunds + [r], id, o)
  {
  }

  /** The code's comparison of two sums says exactly whether the order is closed. */
  lemma SumsSayClosed(rows: seq<Attempt>, refunds: seq<Refund>, id: int, p: Provider)
    requires UniqueCaptures(rows) && RefundsOK(rows, refunds)
    requires forall j :: 0 <= j < |rows| && rows[j].order == id && rows[j].provider != p ==> Closed(refunds, rows[j])
    ensures OrderRefunded(refunds, id, p) == OrderCaptured(rows, id, p) <==> AllClosed(rows, refunds, id)
  {
    ExchangeLaw(rows, refunds, id, p);
    ClosedSums(rows, refunds, id, p);
    assert forall j :: 0 <= j < |rows| && rows[j].order == id && rows[j].provider == p ==> OfOrder(rows[j], id, p);
  }

  /** The refunded order's own row, when the refund leaves it outside review. */
  lemma RefundedOrder(rows: seq<Attempt>, refunds: seq<Refund>, r: Refund, i: nat, o: Order, pay: PayState)
    requires UniqueCaptures(rows) && RefundsOK(rows, refunds) && Refundable(rows, refunds, r, i)
    requires OrderOK(rows, refunds, r.order, o) && rows[i].status == Succeeded
    requires forall j :: 0 <= j < |rows| && rows[j].order == r.order && rows[j].status == Quarantined ==> Closed(refunds, rows[j])
    requires forall j :: 0 <= j < |rows| ==> rows[j].status != Observed
    requires pay == if OrderRefunded(refunds + [r], r.order, r.provider) == OrderCaptured(rows, r.order, r.provider)
                    then Refunded else PartiallyRefunded
    ensures OrderOK(rows, refunds + [r], r.order, o.(pay := pay))
  {
    var refunds' := refunds + [r];
    RefundEntered(rows, refunds, r, i);
    RefundMovesOne(rows, refunds, r, i);
    assert CapturedFor(rows[i], r.order);
    assert EverSettled(o);
    assert forall j :: 0 <= j < |rows| && CapturedFor(rows[j], r.order) ==> rows[j].provider == r.provider;
    forall j | 0 <= j < |rows| && rows[j].order == r.order && rows[j].provider != r.provider
      ensures Closed(refunds', rows[j])
    {
      assert !CapturedFor(rows[j], r.order);
    }
    SumsSayClosed(rows, refunds', r.order, r.provider);
    assert RefundedOf(refunds', rows[i]) > 0;
  }

  lemma HeldOrder(rows: seq<Attempt>, refunds: seq<Refund>, refunds': seq<Refund>, id: int, o: Order)
    requires OrderOK(rows, refunds, id, o) && o.pay != PayPending
    ensures OrderOK(rows, refunds', id, o.(pay := NeedsReview))
  {
  }

  lemma OtherRow(db: DB, r: Refund, i: nat, k: nat)
    requires UniqueCaptures(db.attempts) && Projections(db) && ParentAt(db.attempts, r, i)
    requires k < |db.orders| && k + 1 != r.order
    ensures OrderOK(db.attempts, db.refunds + [r], k + 1, db.orders[k])
  {
    assert OrderOK(db.attempts, db.refunds, k + 1, db.orders[k]);
    RefundElsewhereOrder(db.attempts, db.refunds, r, i, k + 1, db.orders[k]);
  }

  lemma RefundProjections(db: DB, r: Refund, i: nat, disp: Disposition, pay: PayState)
    requires UniqueCaptures(db.attempts) && Projections(db) && db.HasOrder(r.order) && ParentAt(db.attempts, r, i)
    requires OrderOK(db.attempts, db.refunds + [r], r.order, db.Ord(r.order).(pay := pay))
    ensures Projections(Entered(db, r, disp).SetPay(r.order, pay))
  {
    var db' := Entered(db, r, disp).SetPay(r.order, pay);
    forall k: nat | k < |db'.orders| ensures OrderOK(db'.attempts, db'.refunds, k + 1, db'.orders[k]) {
      if k + 1 != r.order { OtherRow(db, r, i, k); }
    }
  }

  /** A quarantined capture can only be refunded while its order is in review. */
  lemma RefundOfQuarantined(db: DB, r: Refund, i: nat)
    requires Inv(db) && Refundable(db.attempts, db.refunds, r, i) && db.attempts[i].status == Quarantined
    ensures Held(db, r.order)
  {
    if !Held(db, r.order) { ClosedOutsideReview(db, i); }
  }

  lemma RefundNewRow(db: DB, r: Refund, i: nat, pay: PayState)
    requires Inv(db) && Refundable(db.attempts, db.refunds, r, i) && db.HasOrder(r.order)
    requires pay == NeedsReview
          || (!Held(db, r.order) && pay == if OrderRefunded(db.refunds + [r], r.order, r.provider) == OrderCaptured(db.attempts, r.order, r.provider)
                                          then Refunded else PartiallyRefunded)
    ensures OrderOK(db.attempts, db.refunds + [r], r.order, db.Ord(r.order).(pay := pay))
  {
    assert OrderOK(db.attempts, db.refunds, r.order, db.orders[r.order - 1]);
    if pay == NeedsReview {
      HeldOrder(db.attempts, db.refunds, db.refunds + [r], r.order, db.Ord(r.order));
    } else {
      forall j: nat | j < |db.attempts| && db.attempts[j].order == r.order && db.attempts[j].status == Quarantined
        ensures Closed(db.refunds, db.attempts[j])
      {
        ClosedOutsideReview(db, j);
      }
      assert AttemptOK(|db.orders|, db.attempts[i]);
      assert db.attempts[i].status == Succeeded;
      assert forall j :: 0 <= j < |db.attempts| ==> AttemptOK(|db.orders|, db.attempts[j]);
      RefundedOrder(db.attempts, db.refunds, r, i, db.Ord(r.order), pay);
    }
  }

  /** The books look at the number of orders only. */
  lemma PayKeepsBooks(db: DB, id: int, pay: PayState)
    requires Books(db) && db.HasOrder(id)
    ensures Books(db.SetPay(id, pay))
  {
  }

  lemma RefundInv(db: DB, r: Refund, i: nat, disp: Disposition, pay: PayState)
    requires Inv(db) && Refundable(db.attempts, db.refunds, r, i) && db.HasOrder(r.order) && disp != EventObserved
    requires disp == EventNeedsReview || db.Ord(r.order).pay == NeedsReview ==> pay == NeedsReview
    requires pay == NeedsReview
          || pay == if OrderRefunded(db.refunds + [r], r.order, r.provider) == OrderCaptured(db.attempts, r.order, r.provider)
                    then Refunded else PartiallyRefunded
    ensures Inv(Entered(db, r, disp).SetPay(r.order, pay))
  {
    RefundBooks(db, r, i, disp);
    PayKeepsBooks(Entered(db, r, disp), r.order, pay);
    RefundQuarantine(db, r, disp, pay);
    RefundResolutions(db, r, i, disp, pay);
    RefundNewRow(db, r, i, pay);
    RefundProjections(db, r, i, disp, pay);
  }

  // ----- the transaction -----

  function RefundDisposition(db: DB, i: nat, rolled: Rollback): Disposition
    requires i < |db.attempts|
  {
    if db.attempts[i].status == Quarantined || rolled.suspicious then EventNeedsReview else EventSettled
  }

  lemma EnterRefundShape(db: DB, i: nat, r: Refund, rolled: Rollback)
    requires i < |db.attempts| && db.HasOrder(r.order)
    ensures var disp := RefundDisposition(db, i, rolled);
      var pay := EnterRefund(db, i, r, rolled).Ord(r.order).pay;
      && EnterRefund(db, i, r, rolled) == Entered(db, r, disp).SetPay(r.order, pay).(subs := rolled.subs)
      && ((disp == EventNeedsReview && db.attempts[i].status != Quarantined) || db.Ord(r.order).pay == NeedsReview ==> pay == NeedsReview)
      && (pay == NeedsReview
          || pay == if OrderRefunded(db.refunds + [r], r.order, r.provider) == OrderCaptured(db.attempts, r.order, r.provider)
                    then Refunded else PartiallyRefunded)
  {
  }

  lemma EnterRefundInv(db: DB, i: nat, r: Refund, rolled: Rollback)
    requires Inv(db) && Refundable(db.attempts, db.refunds, r, i) && db.HasOrder(r.order)
    ensures Inv(EnterRefund(db, i, r, rolled))
  {
    var disp := RefundDisposition(db, i, rolled);
    var pay := EnterRefund(db, i, r, rolled).Ord(r.order).pay;
    EnterRefundShape(db, i, r, rolled);
    if db.attempts[i].status == Quarantined { RefundOfQuarantined(db, r, i); }
    RefundInv(db, r, i, disp, pay);
    var entered := Entered(db, r, disp).SetPay(r.order, pay);
    OtherTables(entered, entered.(subs := rolled.subs));
  }

  lemma RefundOnceInv(db: DB, f: RefundFact, now: int)
    requires Inv(db)
    ensures Inv(RefundOnce(db, f, now).0)
  {
    var p := f.name.Normalized();
    if p.Some? && RefundOnce(db, f, now).0 != db {
      var i := FindAttempt(db.attempts, p.value, f.parent).value;
      var r := RefundRow(f, p.value, now);
      EnterRefundInv(db, i, r, RefundRollback(db, i, r, now));
    }
  }

  lemma RecordRefundInv(db: DB, f: RefundFact, now: int)
    requires Inv(db)
    ensures Inv(RecordRefund(db, f, now).0)
  {
    RefundOnceInv(db, f, now);
    var (once, errs) := RefundOnce(db, f, now);
    if RefusalReason(errs).Some? {
      RecordAnomalyInv(once, RefundAnomaly(once, f, RefusalReason(errs).value), now);
    }
  }
}
