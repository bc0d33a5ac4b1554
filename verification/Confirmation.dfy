/**
 ConfirmPaymentReceipt (internal/shop/order.go:286) with other transactions running
 between its own, and its callers' handling of a sold-out order. No captured money is
 lost: whatever is reported as handled is in the ledger.
 */
module Confirmation {
  import opened Wrappers
  import opened Ledger
  import opened Tables
  import opened Anomalies
  import opened Recording
  import opened Subscriptions
  import opened Orders
  import opened Shop
  import opened Invariant
  import opened OrderEffects
  import opened History
  import opened Runs

  /** What other writers do before each of the shop's own transactions. */
  datatype Interleaving = Interleaving(
    beforeWrite: seq<Step>, beforeReload: seq<Step>, beforeRecord: seq<Step>, beforeSoldOut: seq<Step>)

  function Reviewed(errs: Errs): Errs {
    if errs == {} then {PaymentNeedsReview} else errs
  }

  /** RecordUnexpectedPayment followed by "return nil, ErrPaymentNeedsReview". */
  function RecordAndReview(db: DB, r: Receipt, p: Provider, reason: Reason, now: int): (DB, Errs) {
    var (db', errs) := RecordUnexpected(db, r.order, FactOf(r, p), reason, now);
    (db', Reviewed(errs))
  }

  /** The charge on the order is this very receipt. */
  predicate ExactReplay(o: Order, r: Receipt, p: Provider) {
    o.paymentID != "" && o.paymentID == r.ext && o.rail == Some(p)
  }

  /** From the settlement transaction on (order.go:320-371). */
  function SettleAndSettleUp(db: DB, r: Receipt, p: Provider, q: Request, now: int, env: Interleaving): (DB, Errs) {
    var (settled, errs) := Settle(db, r.order, q.fact, q.contract, now);
    if OrderStatusConflict in errs then AfterConflict(settled, r, p, errs, now, env) else (settled, errs)
  }

  /** A status conflict: the reloaded order decides (order.go:350-370). */
  function AfterConflict(settled: DB, r: Receipt, p: Provider, errs: Errs, now: int, env: Interleaving): (DB, Errs) {
    var reloaded := Run(settled, env.beforeReload);
    if !reloaded.HasOrder(r.order) then (reloaded, {NotFound})
    else if ExactReplay(reloaded.Ord(r.order), r, p) then (reloaded, errs)
    else RecordAndReview(Run(reloaded, env.beforeRecord), r, p,
           if reloaded.Ord(r.order).status != Paid then CaptureAfterTerminalState else SecondCharge, now)
  }

  /** ConfirmPaymentReceipt: the empty error set is a confirmed outcome. */
  function ConfirmReceipt(db: DB, r: Receipt, now: int, env: Interleaving): (DB, Errs) {
    if !db.HasOrder(r.order) then QuarantineReceipt(Run(db, env.beforeWrite), r, UnknownOrder, now)
    else
      var o := db.Ord(r.order);
      match RailOf(r.name)
      case None => (db, {PaymentReceiptMismatch})
      case Some(p) =>
        var later := Run(db, env.beforeWrite);
        if !Accepts(o, r, p) then QuarantineReceipt(later, r, ReceiptMismatch, now)
        else if o.status == Pending && o.pay != PayPending then RecordAndReview(later, r, p, CaptureOnUnresolvedOrder, now)
        else match RequestOf(o, r, now)
          case None => QuarantineReceipt(later, r, ReceiptMismatch, now)
          case Some(q) => SettleAndSettleUp(later, r, p, q, now, env)
  }

  /** isDurablyHandledPaymentError (worker/polling.go:247) and an outcome. */
  predicate Durable(errs: Errs) {
    errs == {} || OrderStatusConflict in errs || NotFound in errs || PaymentNeedsReview in errs
    || PaymentIdentityConflict in errs || PaymentReceiptMismatch in errs
  }

  /** How the webhook and the poller treat a confirmation (worker/polling.go:224-238): a
      sold-out order is recorded as an unexpected payment. */
  function HandleReceipt(db: DB, r: Receipt, now: int, env: Interleaving): (DB, bool) {
    var (db', errs) := ConfirmReceipt(db, r, now, env);
    match RailOf(r.name)
    case None => (db', Durable(errs))
    case Some(p) =>
      if ProductOutOfStock in errs then
        var (recorded, recordErrs) := RecordUnexpected(Run(db', env.beforeSoldOut), r.order, FactOf(r, p), SoldOut, now);
        (recorded, recordErrs == {} || PaymentNeedsReview in recordErrs || Durable(errs))
      else (db', Durable(errs))
  }

  // ----- what is in the ledger -----

  ghost predicate Recorded(db: DB, p: Provider, ext: string) {
    || (exists i :: 0 <= i < |db.attempts| && IsCapture(db.attempts[i], p, ext))
    || (exists i :: 0 <= i < |db.anomalies| && db.anomalies[i].provider == p && db.anomalies[i].ext == ext)
  }

  /** A receipt that states a fact: a known rail, an identity and positive money. */
  predicate StatesFact(r: Receipt) {
    RailOf(r.name).Some? && !Blank(r.ext) && r.amount > 0 && 0 <= r.scale <= 9
  }

  lemma AnomalyRecords(db: DB, f: AnomalyFact, now: int)
    requires Acceptable(f)
    ensures Recorded(RecordAnomaly(db, f, now).0, f.provider.value, f.ext)
    ensures Durable(RecordAnomaly(db, f, now).1) && ProductOutOfStock !in RecordAnomaly(db, f, now).1
  {
    var db' := RecordAnomaly(db, f, now).0;
    match FindAnomaly(db.anomalies, f)
    case Some(i) => assert db'.anomalies[i] == db.anomalies[i];
    case None => assert db'.anomalies[|db.anomalies|] == AnomalyRow(db, f, now);
  }

  lemma QuarantineRecords(db: DB, r: Receipt, reason: Reason, now: int)
    requires StatesFact(r) && !reason.IsBlank()
    ensures Recorded(QuarantineReceipt(db, r, reason, now).0, RailOf(r.name).value, r.ext)
    ensures Durable(QuarantineReceipt(db, r, reason, now).1) && ProductOutOfStock !in QuarantineReceipt(db, r, reason, now).1
  {
    AnomalyRecords(db, AnomalyOf(r, reason), now);
  }

  /** A fact the order accepts and the inbox could take. */
  predicate Recordable(o: Order, f: Fact) {
    ValidateFact(o, f) == {} && !Blank(f.ext) && f.amount > 0 && 0 <= f.scale <= 9
  }

  lemma CaptureRecords(db: DB, id: int, f: Fact, reason: Reason, now: int)
    requires db.HasOrder(id) && Recordable(db.Ord(id), f) && !reason.IsBlank()
    ensures Recorded(RecordCapture(db, id, f, reason, now).0, f.provider, f.ext)
    ensures Durable(RecordCapture(db, id, f, reason, now).1) && ProductOutOfStock !in RecordCapture(db, id, f, reason, now).1
  {
    match FindAttempt(db.attempts, f.provider, f.ext)
    case Some(i) =>
      AnomalyRecords(db, AnomalyFromFact(id, f, if db.attempts[i].order != id then IdentityConflict else reason), now);
    case None =>
      var a := AttemptOf(id, f, Quarantined, f.entitlement, now);
      assert RecordCapture(db, id, f, reason, now).0.attempts[|db.attempts|] == a;
  }

  lemma UnexpectedRecords(db: DB, id: int, f: Fact, reason: Reason, now: int)
    requires db.HasOrder(id) && Recordable(db.Ord(id), f) && !reason.IsBlank()
    ensures Recorded(RecordUnexpected(db, id, f, reason, now).0, f.provider, f.ext)
    ensures Durable(RecordUnexpected(db, id, f, reason, now).1) && ProductOutOfStock !in RecordUnexpected(db, id, f, reason, now).1
  {
    if ReplaysResolved(db, id, f) {
      AnomalyRecords(db, AnomalyFromFact(id, f, FactMismatch), now);
    } else {
      CaptureRecords(db, id, f, reason, now);
    }
  }

  // ----- the settlement -----

  /** An accepted receipt is a fact the store accepts as well. */
  lemma AcceptedIsValid(o: Order, r: Receipt, p: Provider)
    requires Accepts(o, r, p)
    ensures ValidateFact(o, FactOf(r, p)) == {}
  {
  }

  /** The expiry a replay fills in changes nothing the store checks. */
  lemma SettledFact(db: DB, id: int, f: Fact, c: Option<Contract>, now: int)
    requires db.HasOrder(id) && Recordable(db.Ord(id), f)
    ensures var f' := SettleOnce(db, id, f, c, now).fact;
      Recordable(db.Ord(id), f') && f'.provider == f.provider && f'.ext == f.ext
  {
  }

  lemma RollbackKeepsTerms(db: DB, db': DB, id: int, f: Fact)
    requires Extends(db, db') && db.HasOrder(id)
    ensures db'.HasOrder(id) && ValidateFact(db'.Ord(id), f) == ValidateFact(db.Ord(id), f)
  {
  }

  /** The errors a settlement of an accepted receipt can end with. */
  predicate SettlementErrs(errs: Errs) {
    errs == {} || errs == {OrderStatusConflict} || errs == {PaymentIdentityConflict}
    || errs == {SubscriptionOrderConflict} || errs == {ProductOutOfStock}
  }

  lemma FreshErrs(db: DB, id: int, f: Fact, c: Option<Contract>, now: int)
    requires db.HasOrder(id)
    ensures SettlementErrs(SettleFresh(db, id, f, c, now).1)
    ensures SettleFresh(db, id, f, c, now).1 == {SubscriptionOrderConflict} ==> c.Some?
  {
  }

  lemma ReplayErrs(db: DB, id: int, f: Fact, c: Option<Contract>, now: int)
    requires db.HasOrder(id)
    ensures SettlementErrs(SettleReplay(db, id, f, c, now).errs) && SettleReplay(db, id, f, c, now).errs != {}
    ensures SettleReplay(db, id, f, c, now).errs == {SubscriptionOrderConflict} ==> c.Some?
  {
  }

  lemma OnceErrs(db: DB, id: int, f: Fact, c: Option<Contract>, now: int)
    requires db.HasOrder(id) && ValidateFact(db.Ord(id), f) == {}
    requires c.Some? ==> Settles(db.Ord(id), id, f.provider, f.ext, c.value)
    ensures SettlementErrs(SettleOnce(db, id, f, c, now).errs)
    ensures SettleOnce(db, id, f, c, now).errs == {SubscriptionOrderConflict} ==> c.Some?
  {
    FreshErrs(db, id, f, c, now);
    ReplayErrs(db, id, f, c, now);
  }

  lemma ConfirmedRecords(db: DB, id: int, f: Fact, c: Option<Contract>, now: int)
    requires db.HasOrder(id) && ValidateFact(db.Ord(id), f) == {} && SettleOnce(db, id, f, c, now).errs == {}
    requires c.Some? ==> Settles(db.Ord(id), id, f.provider, f.ext, c.value)
    ensures Recorded(SettleOnce(db, id, f, c, now).db, f.provider, f.ext)
  {
    ReplayErrs(db, id, f, c, now);
    SettleFreshShape(db, id, f, c, now);
    var db' := SettleFresh(db, id, f, c, now).0;
    assert db'.attempts == SettledRows(db, id, f, ExpiryOf(c), now).attempts;
    assert IsCapture(db'.attempts[|db.attempts|], f.provider, f.ext);
  }

  /** A sold-out order is refused after its charge was found to be new. */
  lemma SoldOutIsFresh(db: DB, id: int, f: Fact, c: Option<Contract>, now: int)
    requires db.HasOrder(id) && SettleOnce(db, id, f, c, now).errs == {ProductOutOfStock}
    requires ValidateFact(db.Ord(id), f) == {} && (c.Some? ==> Settles(db.Ord(id), id, f.provider, f.ext, c.value))
    ensures FindAttempt(db.attempts, f.provider, f.ext).None? && SettleOnce(db, id, f, c, now).db == db
  {
  }

  /** A settlement either records the charge, finds the order already moved on, or is sold out. */
  lemma SettleRecordsMoney(db: DB, id: int, f: Fact, c: Option<Contract>, now: int)
    requires Inv(db) && db.HasOrder(id) && Recordable(db.Ord(id), f) && SettlementRequest(db, id, f, c)
    requires c.Some? ==> Settles(db.Ord(id), id, f.provider, f.ext, c.value)
    ensures var (db', errs) := Settle(db, id, f, c, now);
      && (Durable(errs) || ProductOutOfStock in errs)
      && (Recorded(db', f.provider, f.ext) || OrderStatusConflict in errs || errs == {ProductOutOfStock})
      && (ProductOutOfStock in errs ==> errs == {ProductOutOfStock} && FindAttempt(db'.attempts, f.provider, f.ext).None?)
  {
    OnceErrs(db, id, f, c, now);
    SettledFact(db, id, f, c, now);
    SettleOnceExtends(db, id, f, c, now);
    var s := SettleOnce(db, id, f, c, now);
    RollbackKeepsTerms(db, s.db, id, s.fact);
    if s.errs == {} {
      ConfirmedRecords(db, id, f, c, now);
    } else if s.errs == {PaymentIdentityConflict} {
      AnomalyRecords(s.db, AnomalyFromFact(id, s.fact, IdentityConflict), now);
    } else if s.errs == {SubscriptionOrderConflict} {
      UnexpectedRecords(s.db, id, s.fact, EntitlementConflict, now);
    } else if s.errs == {ProductOutOfStock} {
      SoldOutIsFresh(db, id, f, c, now);
    }
  }

  // ----- the whole confirmation -----

  lemma RecordAndReviewRecords(db: DB, db': DB, r: Receipt, p: Provider, reason: Reason, now: int)
    requires StatesFact(r) && RailOf(r.name) == Some(p) && !reason.IsBlank()
    requires db.HasOrder(r.order) && Accepts(db.Ord(r.order), r, p) && Extends(db, db')
    ensures var (db'', errs) := RecordAndReview(db', r, p, reason, now);
      Recorded(db'', p, r.ext) && Durable(errs) && ProductOutOfStock !in errs
  {
    AcceptedIsValid(db.Ord(r.order), r, p);
    RollbackKeepsTerms(db, db', r.order, FactOf(r, p));
    UnexpectedRecords(db', r.order, FactOf(r, p), reason, now);
  }

  lemma ReplayIsRecorded(db: DB, r: Receipt, p: Provider)
    requires Inv(db) && db.HasOrder(r.order) && ExactReplay(db.Ord(r.order), r, p)
    ensures Recorded(db, p, r.ext)
  {
  }

  /** After a status conflict the reloaded order decides: an exact replay is already in the
      ledger, anything else is recorded. */
  lemma ConflictRecords(db: DB, settled: DB, r: Receipt, p: Provider, now: int, env: Interleaving)
    requires Inv(settled) && Extends(db, settled) && StatesFact(r) && RailOf(r.name) == Some(p)
    requires db.HasOrder(r.order) && Accepts(db.Ord(r.order), r, p)
    ensures var reloaded := Run(settled, env.beforeReload);
      && reloaded.HasOrder(r.order) && Inv(reloaded) && Extends(db, reloaded)
      && (ExactReplay(reloaded.Ord(r.order), r, p) ==> Recorded(reloaded, p, r.ext))
  {
    RunKeeps(settled, env.beforeReload);
    var reloaded := Run(settled, env.beforeReload);
    ExtendsTransitive(db, settled, reloaded);
    if ExactReplay(reloaded.Ord(r.order), r, p) { ReplayIsRecorded(reloaded, r, p); }
  }

  lemma SettleUpRecords(db: DB, r: Receipt, p: Provider, q: Request, now: int, env: Interleaving)
    requires Inv(db) && db.HasOrder(r.order) && StatesFact(r) && RailOf(r.name) == Some(p)
    requires Accepts(db.Ord(r.order), r, p) && RequestOf(db.Ord(r.order), r, now) == Some(q)
    ensures var (db', errs) := SettleAndSettleUp(db, r, p, q, now, env);
      && (Durable(errs) || ProductOutOfStock in errs)
      && (ProductOutOfStock in errs ==> errs == {ProductOutOfStock} && FindAttempt(db'.attempts, p, r.ext).None?)
      && (Recorded(db', p, r.ext) || errs == {ProductOutOfStock})
      && Inv(db') && Extends(db, db')
  {
    AcceptedIsValid(db.Ord(r.order), r, p);
    RequestShape(db.Ord(r.order), r, p, q, now);
    SettleRecordsMoney(db, r.order, q.fact, q.contract, now);
    SettleInv(db, r.order, q.fact, q.contract, now);
    SettleExtends(db, r.order, q.fact, q.contract, now);
    var (settled, errs) := Settle(db, r.order, q.fact, q.contract, now);
    SettledUp(db, settled, errs, r, p, q, now, env);
  }

  lemma RequestShape(o: Order, r: Receipt, p: Provider, q: Request, now: int)
    requires Accepts(o, r, p) && RailOf(r.name) == Some(p) && RequestOf(o, r, now) == Some(q)
    ensures q.fact == FactOf(r, p)
    ensures q.contract.Some? ==> Settles(o, r.order, p, r.ext, q.contract.value)
    ensures o.subProduct > 0 ==> q.contract.Some?
  {
  }

  lemma SettledUp(db: DB, settled: DB, errs: Errs, r: Receipt, p: Provider, q: Request, now: int, env: Interleaving)
    requires (settled, errs) == Settle(db, r.order, q.fact, q.contract, now)
    requires Inv(settled) && Extends(db, settled) && StatesFact(r) && RailOf(r.name) == Some(p)
    requires db.HasOrder(r.order) && Accepts(db.Ord(r.order), r, p)
    requires Durable(errs) || ProductOutOfStock in errs
    requires ProductOutOfStock in errs ==> errs == {ProductOutOfStock} && FindAttempt(settled.attempts, p, r.ext).None?
    requires Recorded(settled, p, r.ext) || OrderStatusConflict in errs || errs == {ProductOutOfStock}
    ensures var (db', errs') := SettleAndSettleUp(db, r, p, q, now, env);
      && (Durable(errs') || ProductOutOfStock in errs')
      && (ProductOutOfStock in errs' ==> errs' == {ProductOutOfStock} && FindAttempt(db'.attempts, p, r.ext).None?)
      && (Recorded(db', p, r.ext) || errs' == {ProductOutOfStock})
      && Inv(db') && Extends(db, db')
  {
    if OrderStatusConflict in errs {
      ConflictRecords(db, settled, r, p, now, env);
      var reloaded := Run(settled, env.beforeReload);
      RecordLate(db, reloaded, r, p, if reloaded.Ord(r.order).status != Paid then CaptureAfterTerminalState else SecondCharge, now, env);
    }
  }

  lemma RecordLate(db: DB, reloaded: DB, r: Receipt, p: Provider, reason: Reason, now: int, env: Interleaving)
    requires Inv(reloaded) && Extends(db, reloaded) && StatesFact(r) && RailOf(r.name) == Some(p) && !reason.IsBlank()
    requires db.HasOrder(r.order) && Accepts(db.Ord(r.order), r, p)
    ensures var (db', errs) := RecordAndReview(Run(reloaded, env.beforeRecord), r, p, reason, now);
      Recorded(db', p, r.ext) && Durable(errs) && ProductOutOfStock !in errs && Inv(db') && Extends(db, db')
  {
    var late := Run(reloaded, env.beforeRecord);
    RunKeeps(reloaded, env.beforeRecord);
    ExtendsTransitive(db, reloaded, late);
    RecordAndReviewRecords(db, late, r, p, reason, now);
    RecordUnexpectedInv(late, r.order, FactOf(r, p), reason, now);
    RecordUnexpectedExtends(late, r.order, FactOf(r, p), reason, now);
    ExtendsTransitive(db, late, RecordAndReview(late, r, p, reason, now).0);
  }

  /** The state a sold-out confirmation leaves: the order is there and the charge is not. */
  ghost predicate SoldOutAt(db: DB, db': DB, r: Receipt)
    requires RailOf(r.name).Some?
  {
    && db.HasOrder(r.order) && Accepts(db.Ord(r.order), r, RailOf(r.name).value)
    && Inv(db') && Extends(db, db') && FindAttempt(db'.attempts, RailOf(r.name).value, r.ext).None?
  }

  lemma ConfirmationRecords(db: DB, r: Receipt, now: int, env: Interleaving)
    requires Inv(db) && StatesFact(r)
    ensures var (db', errs) := ConfirmReceipt(db, r, now, env);
      && (Durable(errs) || ProductOutOfStock in errs)
      && (Recorded(db', RailOf(r.name).value, r.ext) || errs == {ProductOutOfStock})
      && (ProductOutOfStock in errs ==> errs == {ProductOutOfStock} && SoldOutAt(db, db', r))
  {
    var p := RailOf(r.name).value;
    if !db.HasOrder(r.order) {
      QuarantineRecords(Run(db, env.beforeWrite), r, UnknownOrder, now);
    } else {
      var later := Run(db, env.beforeWrite);
      RunKeeps(db, env.beforeWrite);
      var o := db.Ord(r.order);
      if !Accepts(o, r, p) {
        QuarantineRecords(later, r, ReceiptMismatch, now);
      } else if o.status == Pending && o.pay != PayPending {
        RecordAndReviewRecords(db, later, r, p, CaptureOnUnresolvedOrder, now);
      } else if RequestOf(o, r, now).None? {
        QuarantineRecords(later, r, ReceiptMismatch, now);
      } else {
        TermsKeepRequest(db, later, r, p, now);
        SettleUpRecords(later, r, p, RequestOf(o, r, now).value, now, env);
        ExtendsTransitive(db, later, SettleAndSettleUp(later, r, p, RequestOf(o, r, now).value, now, env).0);
      }
    }
  }

  lemma TermsKeepRequest(db: DB, later: DB, r: Receipt, p: Provider, now: int)
    requires Extends(db, later) && db.HasOrder(r.order)
    ensures later.HasOrder(r.order)
    ensures RequestOf(later.Ord(r.order), r, now) == RequestOf(db.Ord(r.order), r, now)
    ensures Accepts(later.Ord(r.order), r, p) == Accepts(db.Ord(r.order), r, p)
  {
  }

  /** No captured money is lost: for a receipt with a known rail, an identity, positive
      money and a representable scale, an outcome or a durable error means the ledger holds
      an attempt or an anomaly with that identity, whatever ran in between. */
  lemma NoMoneyIsLost(db: DB, r: Receipt, now: int, env: Interleaving)
    requires Reachable(db) && StatesFact(r)
    requires Durable(ConfirmReceipt(db, r, now, env).1)
    ensures Recorded(ConfirmReceipt(db, r, now, env).0, RailOf(r.name).value, r.ext)
  {
    ReachableInv(db);
    ConfirmationRecords(db, r, now, env);
  }

  lemma FreshCaptureIsReviewed(db: DB, id: int, f: Fact, reason: Reason, now: int)
    requires db.HasOrder(id) && ValidateFact(db.Ord(id), f) == {} && FindAttempt(db.attempts, f.provider, f.ext).None?
    ensures RecordUnexpected(db, id, f, reason, now).1 == {PaymentNeedsReview}
  {
  }

  /** Recording a sold-out charge after whatever else ran. */
  lemma SoldOutIsRecorded(db: DB, db': DB, r: Receipt, now: int, steps: seq<Step>)
    requires StatesFact(r) && SoldOutAt(db, db', r)
    ensures var p := RailOf(r.name).value;
      var (recorded, errs) := RecordUnexpected(Run(db', steps), r.order, FactOf(r, p), SoldOut, now);
      Recorded(recorded, p, r.ext) && (steps == [] ==> errs == {PaymentNeedsReview})
  {
    var p := RailOf(r.name).value;
    var late := Run(db', steps);
    RunKeeps(db', steps);
    ExtendsTransitive(db, db', late);
    AcceptedIsValid(db.Ord(r.order), r, p);
    RollbackKeepsTerms(db, late, r.order, FactOf(r, p));
    UnexpectedRecords(late, r.order, FactOf(r, p), SoldOut, now);
    if steps == [] { FreshCaptureIsReviewed(late, r.order, FactOf(r, p), SoldOut, now); }
  }

  // ----- a confirmation is a run -----

  /** The transactions a confirmation goes through, other writers' included. */
  function Trace(db: DB, r: Receipt, now: int, env: Interleaving): seq<Step> {
    if !db.HasOrder(r.order) then env.beforeWrite + [Step(RecordFact(AnomalyOf(r, UnknownOrder)), now)]
    else
      var o := db.Ord(r.order);
      match RailOf(r.name)
      case None => []
      case Some(p) =>
        if !Accepts(o, r, p) then env.beforeWrite + [Step(RecordFact(AnomalyOf(r, ReceiptMismatch)), now)]
        else if o.status == Pending && o.pay != PayPending then env.beforeWrite + [RecordingStep(r, p, CaptureOnUnresolvedOrder, now)]
        else if RequestOf(o, r, now).None? then env.beforeWrite + [Step(RecordFact(AnomalyOf(r, ReceiptMismatch)), now)]
        else SettlingTrace(db, env.beforeWrite, r, p, now, env)
  }

  /** From the settlement transaction on, after `steps`. */
  function SettlingTrace(db: DB, steps: seq<Step>, r: Receipt, p: Provider, now: int, env: Interleaving): seq<Step> {
    var (settled, errs) := SettleStep(Run(db, steps), r, now);
    steps + [Step(SettleReceipt(r), now)]
    + if OrderStatusConflict in errs then ConflictTrace(settled, r, p, now, env) else []
  }

  function RecordingStep(r: Receipt, p: Provider, reason: Reason, now: int): Step {
    Step(RecordUnexpectedCharge(r.order, FactOf(r, p), reason), now)
  }

  function ConflictTrace(settled: DB, r: Receipt, p: Provider, now: int, env: Interleaving): seq<Step> {
    var reloaded := Run(settled, env.beforeReload);
    if !reloaded.HasOrder(r.order) || ExactReplay(reloaded.Ord(r.order), r, p) then env.beforeReload
    else env.beforeReload + env.beforeRecord
         + [RecordingStep(r, p, if reloaded.Ord(r.order).status != Paid then CaptureAfterTerminalState else SecondCharge, now)]
  }

  lemma {:induction false} RunAppend(db: DB, a: seq<Step>, b: seq<Step>)
    ensures Run(db, a + b) == Run(Run(db, a), b)
  {
    if |b| == 0 {
      assert a + b == a;
    } else {
      assert (a + b)[..|a + b| - 1] == a + b[..|b| - 1];
      RunAppend(db, a, b[..|b| - 1]);
    }
  }

  lemma RunThen(db: DB, a: seq<Step>, s: Step)
    ensures Run(db, a + [s]) == Apply(Run(db, a), s)
  {
    assert (a + [s])[..|a|] == a;
  }

  lemma QuarantineIsStep(db: DB, steps: seq<Step>, r: Receipt, reason: Reason, now: int)
    ensures Run(db, steps + [Step(RecordFact(AnomalyOf(r, reason)), now)]) == QuarantineReceipt(Run(db, steps), r, reason, now).0
  {
    RunThen(db, steps, Step(RecordFact(AnomalyOf(r, reason)), now));
  }

  lemma RecordingIsStep(db: DB, steps: seq<Step>, r: Receipt, p: Provider, reason: Reason, now: int)
    ensures Run(db, steps + [RecordingStep(r, p, reason, now)]) == RecordUnexpected(Run(db, steps), r.order, FactOf(r, p), reason, now).0
  {
    RunThen(db, steps, RecordingStep(r, p, reason, now));
  }

  lemma ConflictIsRun(settled: DB, r: Receipt, p: Provider, errs: Errs, now: int, env: Interleaving)
    ensures AfterConflict(settled, r, p, errs, now, env).0 == Run(settled, ConflictTrace(settled, r, p, now, env))
  {
    var reloaded := Run(settled, env.beforeReload);
    if reloaded.HasOrder(r.order) && !ExactReplay(reloaded.Ord(r.order), r, p) {
      RunAppend(settled, env.beforeReload, env.beforeRecord);
      RecordingIsStep(settled, env.beforeReload + env.beforeRecord, r, p,
                      if reloaded.Ord(r.order).status != Paid then CaptureAfterTerminalState else SecondCharge, now);
    }
  }

  lemma SettleUpIsRun(db: DB, r: Receipt, p: Provider, now: int, env: Interleaving)
    requires db.HasOrder(r.order) && RequestOf(db.Ord(r.order), r, now).Some?
    ensures var q := RequestOf(db.Ord(r.order), r, now).value;
      var (settled, errs) := SettleStep(db, r, now);
      SettleAndSettleUp(db, r, p, q, now, env)
        == if OrderStatusConflict in errs then AfterConflict(settled, r, p, errs, now, env) else (settled, errs)
  {
  }

  lemma SettlementIsStep(db: DB, steps: seq<Step>, r: Receipt, now: int)
    ensures Run(db, steps + [Step(SettleReceipt(r), now)]) == SettleStep(Run(db, steps), r, now).0
  {
    var s := Step(SettleReceipt(r), now);
    RunThen(db, steps, s);
    assert Execute(Run(db, steps), s) == SettleStep(Run(db, steps), r, now);
  }

  /** The settling branch of a confirmation. */
  lemma SettlingIsRun(db: DB, steps: seq<Step>, r: Receipt, p: Provider, q: Request, now: int, env: Interleaving)
    requires var later := Run(db, steps); later.HasOrder(r.order) && RequestOf(later.Ord(r.order), r, now) == Some(q)
    ensures SettleAndSettleUp(Run(db, steps), r, p, q, now, env).0 == Run(db, SettlingTrace(db, steps, r, p, now, env))
  {
    var (settled, errs) := SettleStep(Run(db, steps), r, now);
    var settling := steps + [Step(SettleReceipt(r), now)];
    SettlementIsStep(db, steps, r, now);
    SettleUpIsRun(Run(db, steps), r, p, now, env);
    if OrderStatusConflict in errs {
      RunAppend(db, settling, ConflictTrace(settled, r, p, now, env));
      ConflictIsRun(settled, r, p, errs, now, env);
    } else {
      assert SettlingTrace(db, steps, r, p, now, env) == settling;
    }
  }

  /** The whole confirmation is a run of ledger transactions like any other. */
  lemma ConfirmationIsRun(db: DB, r: Receipt, now: int, env: Interleaving)
    requires Inv(db)
    ensures ConfirmReceipt(db, r, now, env).0 == Run(db, Trace(db, r, now, env))
  {
    var later, before := Run(db, env.beforeWrite), env.beforeWrite;
    if !db.HasOrder(r.order) {
      QuarantineIsStep(db, before, r, UnknownOrder, now);
    } else if RailOf(r.name).Some? {
      var o, p := db.Ord(r.order), RailOf(r.name).value;
      if !Accepts(o, r, p) {
        QuarantineIsStep(db, before, r, ReceiptMismatch, now);
      } else if o.status == Pending && o.pay != PayPending {
        RecordingIsStep(db, before, r, p, CaptureOnUnresolvedOrder, now);
      } else if RequestOf(o, r, now).None? {
        QuarantineIsStep(db, before, r, ReceiptMismatch, now);
      } else {
        RunKeeps(db, before);
        TermsKeepRequest(db, later, r, p, now);
        SettlingIsRun(db, before, r, p, RequestOf(o, r, now).value, now, env);
      }
    }
  }

  lemma ConfirmKeeps(db: DB, r: Receipt, now: int, env: Interleaving)
    requires Inv(db)
    ensures Inv(ConfirmReceipt(db, r, now, env).0) && Extends(db, ConfirmReceipt(db, r, now, env).0)
  {
    ConfirmationIsRun(db, r, now, env);
    RunKeeps(db, Trace(db, r, now, env));
  }

  lemma HandleKeeps(db: DB, r: Receipt, now: int, env: Interleaving)
    requires Inv(db)
    ensures Inv(HandleReceipt(db, r, now, env).0) && Extends(db, HandleReceipt(db, r, now, env).0)
  {
    ConfirmKeeps(db, r, now, env);
    var (db', errs) := ConfirmReceipt(db, r, now, env);
    if RailOf(r.name).Some? && ProductOutOfStock in errs {
      var p := RailOf(r.name).value;
      RecordingIsStep(db', env.beforeSoldOut, r, p, SoldOut, now);
      RunKeeps(db', env.beforeSoldOut + [RecordingStep(r, p, SoldOut, now)]);
      ExtendsTransitive(db, db', HandleReceipt(db, r, now, env).0);
    }
  }

  lemma HandledIsRecorded(db: DB, r: Receipt, now: int, env: Interleaving)
    requires Inv(db) && StatesFact(r)
    ensures var (db', handled) := HandleReceipt(db, r, now, env);
      Recorded(db', RailOf(r.name).value, r.ext) && (env.beforeSoldOut == [] ==> handled)
  {
    ConfirmationRecords(db, r, now, env);
    var (db', errs) := ConfirmReceipt(db, r, now, env);
    if ProductOutOfStock in errs { SoldOutIsRecorded(db, db', r, now, env.beforeSoldOut); }
  }

  /** End to end, such a receipt ends in the ledger however the store is interleaved, and
      it is always reported as handled (unless others wrote between the sold-out answer and
      its recording, when the next poll retries it). */
  lemma EveryReceiptIsRecorded(db: DB, r: Receipt, now: int, env: Interleaving)
    requires Reachable(db) && StatesFact(r)
    ensures var (db', handled) := HandleReceipt(db, r, now, env);
      Recorded(db', RailOf(r.name).value, r.ext) && (env.beforeSoldOut == [] ==> handled)
  {
    ReachableInv(db);
    HandledIsRecorded(db, r, now, env);
  }

  // ----- renewals -----

  /** RecordSubscriptionRenewal (order.go:433), with other writers before its transaction. */
  function RenewReceipt(db: DB, r: Receipt, now: int, others: seq<Step>): (DB, Errs) {
    if !db.HasOrder(r.order) then QuarantineReceipt(Run(db, others), r, OtherReason("subscription_renewal_unknown_order"), now)
    else RenewFor(Run(db, others), db.Ord(r.order), r, now)
  }

  /** The renewal of an order as it was read, on the ledger as it is now. */
  function RenewFor(later: DB, o: Order, r: Receipt, now: int): (DB, Errs) {
    if !AcceptsRenewal(o, r, now) then QuarantineReceipt(later, r, ReceiptMismatch, now)
    else Renew(later, r.order, FactOf(r, Stars), ContractOf(o, r, false, now).value, now)
  }

  /** An accepted renewal charge is either held already, entered, or about to be recorded. */
  lemma RenewOnceRecords(db: DB, id: int, f: Fact, c: Contract, now: int)
    requires db.HasOrder(id) && Recordable(db.Ord(id), f) && f.entitlement == Some(c.expires)
    requires f.provider == Stars && Settles(db.Ord(id), id, f.provider, f.ext, c)
    ensures var (once, errs) := RenewOnce(db, id, f, c, now);
      RenewalReason(errs).None? ==> Recorded(once, f.provider, f.ext) && Durable(errs)
  {
    var (once, errs) := RenewOnce(db, id, f, c, now);
    var i := FindAttempt(db.attempts, f.provider, f.ext);
    if RenewalReason(errs).None? {
      var k := if i.Some? then i.value else |db.attempts|;
      assert IsCapture(once.attempts[k], f.provider, f.ext);
    }
  }

  lemma RenewRecords(db: DB, id: int, f: Fact, c: Contract, now: int)
    requires db.HasOrder(id) && Recordable(db.Ord(id), f) && f.entitlement == Some(c.expires)
    requires f.provider == Stars && Settles(db.Ord(id), id, f.provider, f.ext, c)
    ensures Recorded(Renew(db, id, f, c, now).0, f.provider, f.ext) && Durable(Renew(db, id, f, c, now).1)
  {
    RenewOnceRecords(db, id, f, c, now);
    RenewOnceExtends(db, id, f, c, now);
    var (once, errs) := RenewOnce(db, id, f, c, now);
    RollbackKeepsTerms(db, once, id, f);
    if RenewalReason(errs).Some? { UnexpectedRecords(once, id, f, RenewalReason(errs).value, now); }
  }

  /** A renewal the shop accepts is a fact and a contract the store accepts. */
  lemma AcceptedRenewal(o: Order, r: Receipt, now: int)
    requires AcceptsRenewal(o, r, now) && StatesFact(r)
    ensures ContractOf(o, r, false, now).Some?
    ensures Settles(o, r.order, Stars, r.ext, ContractOf(o, r, false, now).value)
    ensures Recordable(o, FactOf(r, Stars)) && r.expires == Some(ContractOf(o, r, false, now).value.expires)
  {
  }

  /** Every renewal receipt that states a fact ends in the ledger too, and is reported with
      an outcome or an error its callers treat as durable. */
  lemma EveryRenewalIsRecorded(db: DB, r: Receipt, now: int, others: seq<Step>)
    requires Reachable(db) && StatesFact(r)
    ensures var (db', errs) := RenewReceipt(db, r, now, others);
      Recorded(db', RailOf(r.name).value, r.ext) && Durable(errs)
  {
    ReachableInv(db);
    RunKeeps(db, others);
    var later := Run(db, others);
    if !db.HasOrder(r.order) {
      assert !IsSpace("subscription_renewal_unknown_order"[0]);
      QuarantineRecords(later, r, OtherReason("subscription_renewal_unknown_order"), now);
    } else if !AcceptsRenewal(db.Ord(r.order), r, now) {
      QuarantineRecords(later, r, ReceiptMismatch, now);
    } else {
      AcceptedRenewal(db.Ord(r.order), r, now);
      assert KeepsOrder(db.orders[r.order - 1], later.orders[r.order - 1]);
      RollbackKeepsTerms(db, later, r.order, FactOf(r, Stars));
      RenewRecords(later, r.order, FactOf(r, Stars), ContractOf(db.Ord(r.order), r, false, now).value, now);
    }
  }
}
