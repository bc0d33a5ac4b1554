/** Runs from an empty database that reach what the ledger does not rule out. */
module Witnesses {
  import opened Wrappers
  import opened Ledger
  import opened Tables
  import opened Anomalies
  import opened Recording
  import opened Refunds
  import opened Reviews
  import opened Subscriptions
  import opened Orders
  import opened Shop
  import opened Invariant
  import opened OrderEffects
  import opened ReviewEffects
  import opened Runs
  import opened LedgerTheorems
  import opened Access
  import opened Ingress
  import opened Limits

  // ----- a dismissed order is refunded -----

  const REFUND: RefundFact := RefundFact(1, Canonical(Stars), "refund", "charge", 7, 100, XTR, 0, Some(9))

  const DISMISSED: DB := Apply(FLAGGED, Step(ResolveReview(Dismissal(1)), 8))

  lemma DismissalRows()
    ensures Reachable(DISMISSED) && DISMISSED.attempts == [CAPTURE] && DISMISSED.refunds == []
    ensures DISMISSED.orders == [PAID_ORDER.(status := Cancelled, axis := OrderCancelled, pay := PayCancelled)]
  {
    APaidOrderIsLost();
    ReachableThen(FLAGGED, Step(ResolveReview(Dismissal(1)), 8));
    ReviewIsOneStep(FLAGGED, Step(ResolveReview(Dismissal(1)), 8));
    DismissalCase(FLAGGED, 1);
    NothingOpenTargets(FLAGGED, 1, UnknownProvider);
  }

  /** The whole charge of order 1 comes back. */
  lemma RefundedInFull(db: DB)
    requires db.HasOrder(1) && db.Ord(1).subProduct == 0 && db.Ord(1).pay == PayCancelled
    requires db.attempts == [CAPTURE] && db.refunds == []
    ensures var db' := RecordRefund(db, REFUND, 9).0;
      db'.HasOrder(1) && db'.Ord(1) == db.Ord(1).(pay := Refunded)
  {
    assert FindAttempt(db.attempts, Stars, "charge") == Some(0);
    var r := RefundRow(REFUND, Stars, 9);
    assert RefundOnce(db, REFUND, 9) == ApplyRefund(db, 0, r, 9);
    assert OrderRefunded([r], 1, Stars) == 100 == OrderCaptured([CAPTURE], 1, Stars);
  }

  /** The paid order that was dismissed stays cancelled, and its refund makes it read
      `refunded` all the same. */
  lemma ADismissedOrderIsRefunded()
    ensures var db := Apply(DISMISSED, Step(RecordRefundFact(REFUND), 9));
      Reachable(db) && db.HasOrder(1) && db.Ord(1).status == Cancelled && db.Ord(1).pay == Refunded
  {
    DismissalRows();
    ReachableThen(DISMISSED, Step(RecordRefundFact(REFUND), 9));
    RefundIsOneStep(DISMISSED, Step(RecordRefundFact(REFUND), 9));
    RefundedInFull(DISMISSED);
  }

  // ----- a month of one product, bought three times -----

  const MONTH: int := 30 * DAY
  const SUB: Draft := Draft(7, 1.0, 100, "", 3, 30, [Item(3, 1)])

  function ChargeFor(order: int, ext: string, at: int): Receipt {
    Receipt(order, Canonical(Stars), ext, 7, XTR, 100, 0, Some(at), None)
  }

  function BoughtWith(ext: string): Order {
    OrderOf(SUB).(status := Paid, axis := Placed, pay := Settled, rail := Some(Stars), paymentID := ext)
  }

  function MonthOf(order: int, ext: string, at: int): Attempt {
    Attempt(order, Stars, ext, 7, 100, XTR, 0, Succeeded, Some(at + MONTH), at)
  }

  function Ordered(db: DB): DB {
    db.(orders := db.orders + [OrderOf(SUB)])
  }

  /** The ledger after `ext` paid for the order at `at`. */
  function Sold(db: DB, order: int, ext: string, at: int): DB
    requires db.HasOrder(order) && 3 in db.stock
  {
    var sold := InsertCapture(db, MonthOf(order, ext, at), EventSettled).SetOrder(order, BoughtWith(ext));
    sold.(stock := db.stock[3 := db.stock[3] - 1], subs := db.subs[(7, 3) := Subscription(order, ext, Active, at + MONTH)])
  }

  lemma OrdersAMonth(db: DB, now: int)
    requires Reachable(db) && !Reserved(db, 7, 3, now)
    ensures Reachable(Ordered(db))
  {
    var s := Step(Create(SUB), now);
    ReachableThen(db, s);
    assert Apply(db, s) == Ordered(db);
  }

  lemma SellsAMonth(db: DB, order: int, ext: string, at: int)
    requires db.HasOrder(order) && db.Ord(order) == OrderOf(SUB) && ext != "" && FindAttempt(db.attempts, Stars, ext).None?
    requires 3 in db.stock && db.stock[3] > 0 && ((7, 3) in db.subs ==> !Grants(db.subs[(7, 3)], at) && db.subs[(7, 3)].order != order)
    ensures Apply(db, Step(SettleReceipt(ChargeFor(order, ext, at)), at)) == Sold(db, order, ext, at)
  {
    var f := FactOf(ChargeFor(order, ext, at), Stars);
    var c := Contract(7, 3, order, ext, at + MONTH);
    assert RequestOf(db.Ord(order), ChargeFor(order, ext, at), at) == Some(Request(f, Some(c)));
    assert Observe(db, order, f, Some(at + MONTH), at) == (InsertCapture(db, MonthOf(order, ext, at).(status := Observed), EventObserved), {});
    assert [Item(3, 1)][..0] == [];
    assert TakeStock(db.stock, []) == Some(db.stock);
    assert TakeStock(db.stock, [Item(3, 1)]) == Some(db.stock[3 := db.stock[3] - 1]);
    SellsTheMonth(db, order, f, c, at);
  }

  lemma SellsTheMonth(db: DB, order: int, f: Fact, c: Contract, at: int)
    requires db.HasOrder(order) && db.Ord(order) == OrderOf(SUB) && f.ext != "" && f == FactOf(ChargeFor(order, f.ext, at), Stars)
    requires c == Contract(7, 3, order, f.ext, at + MONTH) && 3 in db.stock
    requires Observe(db, order, f, Some(at + MONTH), at)
          == (InsertCapture(db, MonthOf(order, f.ext, at).(status := Observed), EventObserved), {})
    requires TakeStock(db.stock, [Item(3, 1)]) == Some(db.stock[3 := db.stock[3] - 1])
    requires (7, 3) in db.subs ==> !Grants(db.subs[(7, 3)], at) && db.subs[(7, 3)].order != order
    ensures SettleFresh(db, order, f, Some(c), at) == (Sold(db, order, f.ext, at), {})
  {
    ObservedThenSettled(db, order, f, Some(at + MONTH), at);
    var paid := InsertCapture(db, MonthOf(order, f.ext, at), EventSettled).SetOrder(order, BoughtWith(f.ext));
    assert SettledOrder(db.Ord(order), f) == BoughtWith(f.ext);
    assert UsePromo(paid.(stock := db.stock[3 := db.stock[3] - 1]), order) == paid.(stock := db.stock[3 := db.stock[3] - 1]);
    assert Activate(db.subs, c, at) == Some(db.subs[(7, 3) := Subscription(order, f.ext, Active, at + MONTH)]);
  }

  const SHOP: DB := Genesis(map[3 := 9], map[])
  const FIRST: DB := Sold(Ordered(SHOP), 1, "a", 10)

  lemma FirstRows()
    ensures FIRST.attempts == [MonthOf(1, "a", 10)] && FIRST.refunds == [] && FIRST.events == [CaptureEvent(MonthOf(1, "a", 10), 0, EventSettled)]
    ensures FIRST.orders == [BoughtWith("a")] && FIRST.subs == map[(7, 3) := Subscription(1, "a", Active, 10 + MONTH)]
    ensures FIRST.resolutions == map[] && FIRST.anomalies == []
  {
  }

  lemma FirstIsReachable()
    ensures Reachable(FIRST)
  {
    assert SHOP == Run(SHOP, []);
    OrdersAMonth(SHOP, 0);
    SellsAMonth(Ordered(SHOP), 1, "a", 10);
    ReachableThen(Ordered(SHOP), Step(SettleReceipt(ChargeFor(1, "a", 10)), 10));
  }

  /** Two months bought, the second after the first had run out. */
  const LIVE: DB := Sold(Ordered(FIRST), 2, "b", MONTH + 100)

  lemma LiveIsReachable()
    ensures Reachable(LIVE)
  {
    FirstIsReachable();
    OrdersAMonth(FIRST, MONTH + 90);
    SellsAMonth(Ordered(FIRST), 2, "b", MONTH + 100);
    ReachableThen(Ordered(FIRST), Step(SettleReceipt(ChargeFor(2, "b", MONTH + 100)), MONTH + 100));
  }

  // ----- refunding the old order ends the new contract -----

  const OLD_REFUND: RefundFact := RefundFact(1, Canonical(Stars), "back", "a", 7, 100, XTR, 0, Some(MONTH + 200))

  const BACK: Refund := RefundRow(OLD_REFUND, Stars, MONTH + 200)

  const LAPSED: DB := EnterRefund(LIVE, 0, BACK, Rollback(map[(7, 3) := Subscription(2, "b", Expired, MONTH + 200)], false))

  lemma OneRefund(r: Refund, a: Attempt)
    ensures RefundedOf([r], a) == if IsCapture(a, r.provider, r.parent) then r.amount else 0
  {
    RefundedOfAppend([], r);
    assert [] + [r] == [r];
  }

  lemma OldRefundRollsBack()
    ensures LIVE.attempts == [MonthOf(1, "a", 10), MonthOf(2, "b", MONTH + 100)] && LIVE.refunds == []
    ensures RefundRollback(LIVE, 0, BACK, MONTH + 200) == Rollback(map[(7, 3) := Subscription(2, "b", Expired, MONTH + 200)], false)
  {
    OneRefund(BACK, LIVE.attempts[0]);
    assert LatestOpenPeriod(LIVE.attempts, [BACK], 1, Stars) == None;
  }

  lemma OldRefundIsEntered()
    ensures Apply(LIVE, Step(RecordRefundFact(OLD_REFUND), MONTH + 200)) == LAPSED
  {
    OldRefundRollsBack();
    assert FindAttempt(LIVE.attempts, Stars, "a") == Some(0) by { assert LIVE.attempts[..1] == [MonthOf(1, "a", 10)]; }
    assert RefundOnce(LIVE, OLD_REFUND, MONTH + 200) == ApplyRefund(LIVE, 0, BACK, MONTH + 200);
    RefundIsOneStep(LIVE, Step(RecordRefundFact(OLD_REFUND), MONTH + 200));
  }

  /** Order 2 holds a contract that runs for most of a month, and nothing of it is refunded;
      the refund of order 1 ends that contract. */
  lemma AnOldRefundEndsALiveContract()
    ensures Reachable(LIVE) && Reachable(LAPSED)
    ensures (7, 3) in LIVE.subs && LIVE.subs[(7, 3)].order == 2 && Grants(LIVE.subs[(7, 3)], MONTH + 200)
    ensures HoldsTime(LAPSED, 2, Stars, MONTH + 200)
    ensures (7, 3) in LAPSED.subs && LAPSED.subs[(7, 3)].order == 2 && !Grants(LAPSED.subs[(7, 3)], MONTH + 200)
  {
    LiveIsReachable();
    OldRefundIsEntered();
    OldRefundRollsBack();
    OneRefund(BACK, LAPSED.attempts[1]);
    ReachableThen(LIVE, Step(RecordRefundFact(OLD_REFUND), MONTH + 200));
    assert BuysTime(LAPSED.attempts[1], LAPSED.refunds, 2, Stars, MONTH + 200);
  }

  // ----- one charge, two outcomes -----

  /** Order 3 has bought the row that the refund freed. */
  const TAKEN: DB := Sold(Ordered(LAPSED), 3, "c", MONTH + 300)

  const AGAIN: Step := Step(SettleReceipt(ChargeFor(2, "b", MONTH + 100)), MONTH + 400)

  lemma TakenIsReachable()
    ensures Reachable(TAKEN)
  {
    AnOldRefundEndsALiveContract();
    OldRefundRollsBack();
    OrdersAMonth(LAPSED, MONTH + 250);
    SellsAMonth(Ordered(LAPSED), 3, "c", MONTH + 300);
    ReachableThen(Ordered(LAPSED), Step(SettleReceipt(ChargeFor(3, "c", MONTH + 300)), MONTH + 300));
  }

  lemma TakenRows()
    ensures TAKEN.attempts == [MonthOf(1, "a", 10), MonthOf(2, "b", MONTH + 100), MonthOf(3, "c", MONTH + 300)]
    ensures |TAKEN.orders| == 3 && TAKEN.Ord(2) == BoughtWith("b")
    ensures (7, 3) in TAKEN.subs && TAKEN.subs[(7, 3)] == Subscription(3, "c", Active, 2 * MONTH + 300)
  {
  }

  /** What the redelivered receipt asks the store for. */
  const PAST_FACT: Fact := FactOf(ChargeFor(2, "b", MONTH + 100), Stars)
  const PAST_CONTRACT: Contract := Contract(7, 3, 2, "b", 2 * MONTH + 100)

  lemma PastIsAsked()
    ensures RequestOf(BoughtWith("b"), ChargeFor(2, "b", MONTH + 100), MONTH + 400) == Some(Request(PAST_FACT, Some(PAST_CONTRACT)))
  {
  }

  lemma PastIsReplayed()
    ensures ConfirmedAgain(TAKEN, 2, PAST_FACT, PAST_CONTRACT, MONTH + 400)
  {
    TakenRows();
    assert FindAttempt(TAKEN.attempts, Stars, "b") == Some(1) by { assert TAKEN.attempts[..2][1] == TAKEN.attempts[1]; }
    assert ReplayedFact(TAKEN, 2, PAST_FACT) == PAST_FACT.(entitlement := Some(2 * MONTH + 100));
  }

  /** The receipt that paid for order 2 is confirmed a second time, after order 3 has taken
      over the contract. */
  lemma AChargeIsConfirmedAgain()
    ensures Reachable(TAKEN) && NoLongerPayable(TAKEN, 2) && TAKEN.Ord(2).paymentID == AGAIN.op.receipt.ext
    ensures Confirms(TAKEN, AGAIN, 2)
  {
    TakenIsReachable();
    TakenRows();
    PastIsAsked();
    PastIsReplayed();
    ConfirmedAgainExactly(TAKEN, 2, PAST_FACT, Some(PAST_CONTRACT), MONTH + 400);
    AcceptedStep(TAKEN, ChargeFor(2, "b", MONTH + 100), Request(PAST_FACT, Some(PAST_CONTRACT)), MONTH + 400);
  }

  // ----- a decision that does not last -----

  /** A second charge of order 1 without an expiry, and its refund. */
  const STRANGER: Fact := Fact(Stars, "x", 7, 100, XTR, 0, None, Some(20))
  const STRANGER_REFUND: RefundFact := RefundFact(1, Canonical(Stars), "x", "x", 7, 100, XTR, 0, Some(30))

  const HELD_ROW: Attempt := AttemptOf(1, STRANGER, Quarantined, None, 20)

  const QUARANTINED: DB := InsertCapture(FIRST, HELD_ROW, EventNeedsReview).SetPay(1, NeedsReview)

  const REPAID: DB :=
    QUARANTINED.(refunds := [RefundRow(STRANGER_REFUND, Stars, 30)],
                 events := QUARANTINED.events + [RefundEvent(RefundRow(STRANGER_REFUND, Stars, 30), EventNeedsReview)])

  const DECISION: ReviewRequest := ReviewRequest(1, On(Stars), [1, 2], [], 0, None, "operator", "refunded", Some(Settled))

  const DISPOSED: DB := Apply(REPAID, Step(ResolveReview(DECISION), 40))

  const RENEWAL: Step :=
    Step(RenewCharge(1, STRANGER.(entitlement := Some(50 + MONTH)), Contract(7, 3, 1, "x", 50 + MONTH)), 50)

  lemma StrangerIsHeld()
    ensures Apply(FIRST, Step(RecordUnexpectedCharge(1, STRANGER, SecondCharge), 20)) == QUARANTINED
  {
    FirstRows();
    assert FindAttempt(FIRST.attempts, Stars, "x") == None;
  }

  lemma StrangerRows()
    ensures QUARANTINED.attempts == [MonthOf(1, "a", 10), HELD_ROW] && QUARANTINED.subs == FIRST.subs && QUARANTINED.refunds == []
    ensures QUARANTINED.orders == [BoughtWith("a").(pay := NeedsReview)]
    ensures REPAID.events == [CaptureEvent(MonthOf(1, "a", 10), 0, EventSettled), CaptureEvent(HELD_ROW, 1, EventNeedsReview),
                              RefundEvent(RefundRow(STRANGER_REFUND, Stars, 30), EventNeedsReview)]
  {
    FirstRows();
  }

  lemma StrangerLeavesAccess()
    ensures RefundRollback(QUARANTINED, 1, RefundRow(STRANGER_REFUND, Stars, 30), 30) == Rollback(FIRST.subs, false)
    ensures FindAttempt(QUARANTINED.attempts, Stars, "x") == Some(1)
    ensures RefundedOf(REPAID.refunds, MonthOf(1, "a", 10)) == 0 && RefundedOf(REPAID.refunds, HELD_ROW) == 100
  {
    var r := RefundRow(STRANGER_REFUND, Stars, 30);
    FirstRows();
    StrangerRows();
    OneRefund(r, MonthOf(1, "a", 10));
    OneRefund(r, HELD_ROW);
    assert OpenPeriod(QUARANTINED.attempts[0], [r], 1, Stars);
    assert LatestOpenPeriod(QUARANTINED.attempts, [r], 1, Stars) == Some(10 + MONTH);
  }

  lemma StrangerIsRepaid()
    ensures Apply(QUARANTINED, Step(RecordRefundFact(STRANGER_REFUND), 30)) == REPAID
  {
    StrangerRows();
    StrangerLeavesAccess();
    assert RefundOnce(QUARANTINED, STRANGER_REFUND, 30) == ApplyRefund(QUARANTINED, 1, RefundRow(STRANGER_REFUND, Stars, 30), 30);
    RefundIsOneStep(QUARANTINED, Step(RecordRefundFact(STRANGER_REFUND), 30));
  }

  lemma StrangerCase()
    ensures CaseTargets(REPAID, DECISION) == Some({EventTarget(1), EventTarget(2)})
    ensures NamedTargets(DECISION) == {EventTarget(1), EventTarget(2)} && !ReplaysBatch(REPAID, DECISION)
    ensures !OpenElsewhere(REPAID, 1, On(Stars))
  {
    FirstRows();
    StrangerRows();
    assert OpenEvent(REPAID, 1) && OpenEvent(REPAID, 2) && !OpenEvent(REPAID, 0);
    assert DECISION.events[0] == 1 && DECISION.events[1] == 2;
    assert OpenTargets(REPAID, 1, On(Stars)) == {EventTarget(1), EventTarget(2)};
    assert EventTarget(1) in NamedTargets(DECISION);
  }

  lemma StrangerDecision()
    ensures Decide(REPAID, EventTarget(1), None, Some(Settled)) == Some(Compensated)
    ensures Decide(REPAID, EventTarget(2), None, Some(Settled)) == Some(AcceptedRefund)
    ensures DeriveProjection(REPAID, 1) == Some(Projection(Settled, Paid))
  {
    StrangerRows();
    StrangerLeavesAccess();
  }

  /** A request that names its whole case, each target decidable, closes the order. */
  lemma CaseCloses(db: DB, r: ReviewRequest, targets: set<Target>, p: Projection)
    requires ValidRequest(r) && !ReplaysBatch(db, r) && CaseTargets(db, r) == Some(targets) && NamedTargets(r) == targets
    requires Held(db, r.order) && !OpenElsewhere(db, r.order, r.provider) && r.decision.None? && r.provider != UnknownProvider
    requires forall t :: t in targets ==> Decide(db, t, r.decision, r.result).Some?
    requires DeriveProjection(db, r.order) == Some(p) && r.result == Some(p.pay)
    ensures Resolve(db, r).0 == WithResolutions(db, r, targets).SetOrder(r.order, Closing(db.Ord(r.order), p))
  {
    assert Resolve(db, r) == Close(db, r, targets);
  }

  lemma StrangerIsDecided()
    ensures ValidRequest(DECISION) && Held(REPAID, 1) && Closing(REPAID.Ord(1), Projection(Settled, Paid)) == BoughtWith("a")
    ensures forall t :: t in {EventTarget(1), EventTarget(2)} ==> Decide(REPAID, t, None, Some(Settled)).Some?
  {
    StrangerRows();
    StrangerDecision();
  }

  lemma StrangerIsDisposed()
    ensures DISPOSED.orders == [BoughtWith("a")] && DISPOSED.attempts == REPAID.attempts && DISPOSED.subs == REPAID.subs
    ensures DISPOSED.anomalies == [] && Disposed(DISPOSED, 1)
  {
    FirstRows();
    StrangerCase();
    StrangerDecision();
    StrangerIsDecided();
    CaseCloses(REPAID, DECISION, {EventTarget(1), EventTarget(2)}, Projection(Settled, Paid));
    ReviewIsOneStep(REPAID, Step(ResolveReview(DECISION), 40));
    StrangerRows();
    assert ResolvedCaptureBy(DISPOSED, 1, 1);
  }

  lemma RenewalMeets()
    ensures RenewOnce(DISPOSED, 1, STRANGER.(entitlement := Some(50 + MONTH)), Contract(7, 3, 1, "x", 50 + MONTH), 50)
         == (FillEntitlement(DISPOSED, 1, 50 + MONTH), {PaymentNeedsReview})
  {
    StrangerRows();
    StrangerIsDisposed();
    StrangerLeavesAccess();
  }

  lemma RenewalFills()
    ensures var later := Apply(DISPOSED, RENEWAL);
      |later.attempts| == 2 && later.attempts[1] == HELD_ROW.(entitlement := Some(50 + MONTH))
  {
    StrangerRows();
    StrangerIsDisposed();
    RenewalMeets();
  }

  /** An operator disposed of a capture without an expiry; a renewal redelivers it with one;
      afterwards the fact as it was decided on is no longer silent. */
  lemma ADecisionIsUndone()
    ensures Reachable(DISPOSED) && Disposed(DISPOSED, 1) && StoredFact(DISPOSED.attempts[1], STRANGER)
    ensures RecordUnexpected(DISPOSED, 1, STRANGER, SecondCharge, 60) == (DISPOSED, {})
    ensures var later := Apply(DISPOSED, RENEWAL); RecordUnexpected(later, 1, STRANGER, SecondCharge, 60) != (later, {})
  {
    FirstIsReachable();
    ReachableThen(FIRST, Step(RecordUnexpectedCharge(1, STRANGER, SecondCharge), 20));
    StrangerIsHeld();
    ReachableThen(QUARANTINED, Step(RecordRefundFact(STRANGER_REFUND), 30));
    StrangerIsRepaid();
    ReachableThen(REPAID, Step(ResolveReview(DECISION), 40));
    StrangerIsDisposed();
    StrangerRows();
    RenewalFills();
    DecisionsAreFinal(DISPOSED, 1, STRANGER, [], SecondCharge, 60);
    DecisionsAreFinal(DISPOSED, 1, STRANGER, [RENEWAL], SecondCharge, 60);
    assert [RENEWAL][..0] == [];
    assert Run(DISPOSED, [RENEWAL]) == Apply(Run(DISPOSED, []), RENEWAL);
  }

  // ----- a disagreement nobody keeps -----

  /** Order 2, at another price. */
  const DEAR: Draft := Draft(7, 1.0, 300, "", 0, 0, [])

  const DEARER: DB := DISPOSED.(orders := DISPOSED.orders + [OrderOf(DEAR)])

  lemma DearerIsReachable()
    ensures Reachable(DEARER)
  {
    ADecisionIsUndone();
    ReachableThen(DISPOSED, Step(Create(DEAR), 45));
  }

  lemma DearerRows()
    ensures |DEARER.orders| == 2 && DEARER.Ord(2) == OrderOf(DEAR) && DEARER.anomalies == []
    ensures DEARER.attempts == [MonthOf(1, "a", 10), HELD_ROW] && Disposed(DEARER, 1)
  {
    StrangerIsDisposed();
    StrangerRows();
    var e: nat :| e < |DISPOSED.events| && ResolvedCaptureBy(DISPOSED, 1, e);
    assert ResolvedCaptureBy(DEARER, 1, e);
  }

  /** The decided charge, redelivered under an order whose price it does not meet, leaves no
      trace. */
  lemma AForeignDisagreementIsDropped()
    ensures Reachable(DEARER) && Disposed(DEARER, 1) && DEARER.HasOrder(2)
    ensures RecordUnexpected(DEARER, 2, STRANGER, SecondCharge, 60) == (DEARER, {PaymentReceiptMismatch})
    ensures !InInbox(DEARER, AnomalyFromFact(2, STRANGER, FactMismatch))
  {
    DearerIsReachable();
    DearerRows();
    assert !IsSpace("x"[0]);
    DisagreementIsKept(DEARER, 1, 2, STRANGER, SecondCharge, 60);
  }

  // ----- a preview that announces the wrong thing -----

  const INVOICE: Receipt := Receipt(1, Cryptobot, "invoice", 0, USD, 100, 2, Some(5), None)
  const PAID_BY_INVOICE: Order :=
    OrderOf(CART).(status := Paid, axis := Placed, pay := Settled, rail := Some(Crypto), paymentID := "invoice")
  const UNSIGNED: Attempt := Attempt(1, Crypto, "invoice", 0, 100, USD, 2, Succeeded, None, 5)

  const INVOICED: DB :=
    DB([PAID_BY_INVOICE], [UNSIGNED], [Event(1, Some(0), Crypto, Captured, "invoice", 100, USD, 2, EventSettled, 5)],
       [], [], map[], map[], map[], map[], [])

  const INVOICE_REFUND: RefundFact := RefundFact(1, Canonical(Crypto), "reversal", "invoice", 7, 100, USD, 2, Some(6))

  lemma InvoiceIsPaid()
    ensures Apply(Genesis(map[], map[]).(orders := [OrderOf(CART)]), Step(SettleReceipt(INVOICE), 5)) == INVOICED
  {
  }

  /** CryptoBot captures name no payer: the preview of such a refund announces a
      quarantine, and the store then applies it. */
  lemma AnAnnouncedQuarantineIsApplied()
    ensures Reachable(INVOICED)
    ensures PreviewRefund(INVOICED, INVOICE_REFUND) == Some(IngressQuarantine)
    ensures IngestRefund(INVOICED, INVOICE_REFUND, 6).0.refunds == [RefundRow(INVOICE_REFUND, Crypto, 6)]
  {
    assert Genesis(map[], map[]) == Run(Genesis(map[], map[]), []);
    OrderIsPlaced();
    ReachableThen(Genesis(map[], map[]), Step(Create(CART), 0));
    InvoiceIsPaid();
    ReachableThen(Genesis(map[], map[]).(orders := [OrderOf(CART)]), Step(SettleReceipt(INVOICE), 5));
    assert FindAttempt(INVOICED.attempts, Crypto, "invoice") == Some(0);
    assert FindRefund(INVOICED.refunds, Crypto, "reversal") == None;
    assert RefundedOf([], UNSIGNED) == 0;
    assert !IsSpace("invoice"[0]);
    IngestIsRecord(INVOICED, INVOICE_REFUND, 6);
  }
}
