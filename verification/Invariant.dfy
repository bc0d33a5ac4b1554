/**
 What every transaction keeps. The four parts are proved together: quarantine is only
 sound because refunds are bounded, refunds only project correctly because quarantined
 captures outside review are closed, and they are closed because resolutions say so.
 */
module Invariant {
  import opened Wrappers
  import opened Ledger
  import opened Tables
  import opened Recording
  import opened Reviews

  // ----- the books: captures and refunds are entered twice -----

  predicate AttemptOK(n: int, a: Attempt) {
    && 0 < a.order <= n && a.status != Observed && a.amount >= 0
    && (a.status == Succeeded || a.provider == Stars ==> a.amount > 0)
    && a.ext != "" && !a.currency.IsBlank() && 0 <= a.scale <= 9
  }

  ghost predicate AttemptsOK(n: int, rows: seq<Attempt>) {
    UniqueCaptures(rows) && forall i :: 0 <= i < |rows| ==> AttemptOK(n, rows[i])
  }

  predicate SameKey(x: Event, y: Event) {
    x.provider == y.provider && x.kind == y.kind && x.ext == y.ext
  }

  ghost predicate UniqueEvents(events: seq<Event>) {
    forall i, j :: 0 <= i < j < |events| ==> !SameKey(events[i], events[j])
  }

  /** A captured event repeats its attempt, and its disposition follows the status. */
  predicate Mirrors(e: Event, rows: seq<Attempt>) {
    && e.attempt.Some? && e.attempt.value < |rows|
    && var a := rows[e.attempt.value];
       && e == CaptureEvent(a, e.attempt.value, e.disp)
       && e.disp == if a.status == Quarantined then EventNeedsReview else EventSettled
  }

  /** A refunded event repeats its refund row. */
  predicate RepeatsRefund(e: Event, r: Refund) {
    && e.kind == RefundedKind && e.order == r.order && e.provider == r.provider && e.ext == r.ext
    && e.amount == r.amount && e.currency == r.currency && e.scale == r.scale && e.at == r.at && e.attempt == None
    && e.disp != EventObserved
  }

  ghost predicate HasRefund(e: Event, refunds: seq<Refund>) {
    exists k :: 0 <= k < |refunds| && RepeatsRefund(e, refunds[k])
  }

  ghost predicate EventOK(e: Event, rows: seq<Attempt>, refunds: seq<Refund>) {
    match e.kind
    case Captured => Mirrors(e, rows)
    case RefundedKind => HasRefund(e, refunds)
  }

  ghost predicate CaptureLogged(events: seq<Event>, i: int) {
    exists e :: 0 <= e < |events| && events[e].kind == Captured && events[e].attempt == Some(i)
  }

  ghost predicate RefundLogged(events: seq<Event>, r: Refund) {
    exists e :: 0 <= e < |events| && RepeatsRefund(events[e], r)
  }

  ghost predicate EventsBacked(events: seq<Event>, rows: seq<Attempt>, refunds: seq<Refund>) {
    forall e :: 0 <= e < |events| ==> EventOK(events[e], rows, refunds)
  }

  ghost predicate CapturesLogged(events: seq<Event>, n: int) {
    forall i :: 0 <= i < n ==> CaptureLogged(events, i)
  }

  ghost predicate RefundsLogged(events: seq<Event>, refunds: seq<Refund>) {
    forall k :: 0 <= k < |refunds| ==> RefundLogged(events, refunds[k])
  }

  /** Each attempt has one captured event, each refund one refunded event, with equal money. */
  ghost predicate DoubleEntry(rows: seq<Attempt>, events: seq<Event>, refunds: seq<Refund>) {
    && UniqueEvents(events)
    && EventsBacked(events, rows, refunds)
    && CapturesLogged(events, |rows|)
    && RefundsLogged(events, refunds)
  }

  ghost predicate UniqueRefunds(refunds: seq<Refund>) {
    forall i, j :: 0 <= i < j < |refunds| ==> !IsRefund(refunds[j], refunds[i].provider, refunds[i].ext)
  }

  ghost predicate RefundsOK(rows: seq<Attempt>, refunds: seq<Refund>) {
    && UniqueRefunds(refunds)
    && Parented(rows, refunds)
    && Bounded(rows, refunds)
    && forall k :: 0 <= k < |refunds| ==> refunds[k].amount > 0
  }

  ghost predicate Books(db: DB) {
    && AttemptsOK(|db.orders|, db.attempts)
    && DoubleEntry(db.attempts, db.events, db.refunds)
    && RefundsOK(db.attempts, db.refunds)
  }

  // ----- quarantine -----

  /** An unresolved target holds its order in needs_review. */
  ghost predicate Quarantine(db: DB) {
    && (forall e: nat :: e < |db.events| && OpenEvent(db, e) ==> Held(db, db.events[e].order))
    && (forall i: nat :: i < |db.anomalies| && db.anomalies[i].attached && OpenAnomaly(db, i) ==> Held(db, db.anomalies[i].order))
  }

  predicate Held(db: DB, id: int) {
    db.HasOrder(id) && db.Ord(id).pay == NeedsReview
  }

  /** Refunded exactly to its amount. */
  predicate Closed(refunds: seq<Refund>, a: Attempt) {
    RefundedOf(refunds, a) == a.amount
  }

  /** A resolved quarantined capture was compensated in full. */
  ghost predicate ResolutionOK(db: DB, e: nat)
    requires e < |db.events|
  {
    db.events[e].kind == Captured && EventTarget(e) in db.resolutions && Mirrors(db.events[e], db.attempts) ==>
      && Closed(db.refunds, db.attempts[db.events[e].attempt.value])
      && db.resolutions[EventTarget(e)].decision == Compensated
      && db.resolutions[EventTarget(e)].order == db.events[e].order
      && db.resolutions[EventTarget(e)].provider == On(db.events[e].provider)
  }

  ghost predicate TargetInRange(db: DB, t: Target) {
    match t
    case EventTarget(e) => e < |db.events| && db.events[e].disp == EventNeedsReview
    case AnomalyTarget(i) => i < |db.anomalies|
    case OrderTarget(id) => db.HasOrder(id)
  }

  ghost predicate Resolutions(db: DB) {
    && (forall t :: t in db.resolutions ==> TargetInRange(db, t))
    && (forall e: nat :: e < |db.events| ==> ResolutionOK(db, e))
  }

  // ----- the order projection -----

  predicate CapturedFor(a: Attempt, id: int) {
    a.order == id && a.status == Succeeded
  }

  ghost predicate NoSettlement(rows: seq<Attempt>, id: int) {
    forall i :: 0 <= i < |rows| ==> !CapturedFor(rows[i], id)
  }

  ghost predicate NoCapture(rows: seq<Attempt>, id: int) {
    forall i :: 0 <= i < |rows| ==> rows[i].order != id
  }

  ghost predicate AllClosed(rows: seq<Attempt>, refunds: seq<Refund>, id: int) {
    forall i :: 0 <= i < |rows| && rows[i].order == id ==> Closed(refunds, rows[i])
  }

  ghost predicate Untouched(rows: seq<Attempt>, refunds: seq<Refund>, id: int) {
    forall i :: 0 <= i < |rows| && CapturedFor(rows[i], id) ==> RefundedOf(refunds, rows[i]) == 0
  }

  ghost predicate Touched(rows: seq<Attempt>, refunds: seq<Refund>, id: int) {
    exists i :: 0 <= i < |rows| && rows[i].order == id && RefundedOf(refunds, rows[i]) > 0
  }

  predicate PaidWith(a: Attempt, id: int, p: Provider, ext: string) {
    IsCapture(a, p, ext) && CapturedFor(a, id)
  }

  /** The charge on the order is a settled capture of that order, and so is every other
      settled capture of it on the same rail. */
  ghost predicate Funded(rows: seq<Attempt>, id: int, o: Order) {
    && o.rail.Some?
    && (exists i :: 0 <= i < |rows| && PaidWith(rows[i], id, o.rail.value, o.paymentID))
    && (forall i :: 0 <= i < |rows| && CapturedFor(rows[i], id) ==> rows[i].provider == o.rail.value)
  }

  ghost predicate PaidProjection(rows: seq<Attempt>, refunds: seq<Refund>, id: int, pay: PayState) {
    match pay
    case Settled => Untouched(rows, refunds, id) && !AllClosed(rows, refunds, id)
    case Refunded => AllClosed(rows, refunds, id)
    case PartiallyRefunded => Touched(rows, refunds, id) && !AllClosed(rows, refunds, id)
    case NeedsReview => true
    case _ => false
  }

  /** Settled once: only a settlement writes the payment id. */
  predicate EverSettled(o: Order) {
    o.paymentID != ""
  }

  ghost predicate OrderOK(rows: seq<Attempt>, refunds: seq<Refund>, id: int, o: Order) {
    && (o.pay == PayPending ==> o.status == Pending && NoCapture(rows, id))
    && (if EverSettled(o) then Funded(rows, id, o) && o.status != Pending && (o.subProduct > 0 ==> o.rail == Some(Stars))
        else NoSettlement(rows, id) && o.rail == None && (o.status == Pending || o.status == Cancelled))
    && match o.status
       case Pending => o.pay == PayPending || o.pay == NeedsReview
       case Cancelled =>
         || o.pay == PayCancelled || o.pay == NeedsReview
         || (EverSettled(o) && (o.pay == Refunded || o.pay == PartiallyRefunded) && PaidProjection(rows, refunds, id, o.pay))
       case _ => PaidProjection(rows, refunds, id, o.pay)
  }

  ghost predicate Projections(db: DB) {
    forall k: nat :: k < |db.orders| ==> OrderOK(db.attempts, db.refunds, k + 1, db.orders[k])
  }

  ghost predicate Inv(db: DB) {
    Books(db) && Quarantine(db) && Resolutions(db) && Projections(db)
  }

  // ----- immediate consequences -----

  /** Outside needs_review every quarantined capture is refunded exactly to its amount. */
  lemma ClosedOutsideReview(db: DB, i: nat)
    requires Inv(db) && i < |db.attempts| && db.attempts[i].status == Quarantined
    requires !Held(db, db.attempts[i].order)
    ensures Closed(db.refunds, db.attempts[i])
  {
    assert CaptureLogged(db.events, i);
    var e :| 0 <= e < |db.events| && db.events[e].kind == Captured && db.events[e].attempt == Some(i);
    assert EventOK(db.events[e], db.attempts, db.refunds);
    assert !OpenEvent(db, e);
    assert ResolutionOK(db, e);
  }

  /** The invariant looks at six tables only. */
  lemma OtherTables(db: DB, db': DB)
    requires Inv(db)
    requires db'.orders == db.orders && db'.attempts == db.attempts && db'.events == db.events
    requires db'.refunds == db.refunds && db'.anomalies == db.anomalies && db'.resolutions == db.resolutions
    ensures Inv(db')
  {
    assert Quarantine(db') by {
      forall e: nat | e < |db'.events| && OpenEvent(db', e) ensures Held(db', db'.events[e].order) {
        assert OpenEvent(db, e);
      }
      forall i: nat | i < |db'.anomalies| && db'.anomalies[i].attached && OpenAnomaly(db', i) ensures Held(db', db'.anomalies[i].order) {
        assert OpenAnomaly(db, i);
      }
    }
    assert Resolutions(db') by {
      forall t | t in db'.resolutions ensures TargetInRange(db', t) { assert TargetInRange(db, t); }
      forall e: nat | e < |db'.events| ensures ResolutionOK(db', e) { assert ResolutionOK(db, e); }
    }
  }

  lemma GenesisInv(stock: map<int, int>, promos: map<string, int>)
    ensures Inv(Genesis(stock, promos))
  {
  }
}
