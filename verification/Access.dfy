/**
 Subscription access: it is reserved once, bought in bounded periods, taken over only
 after it lapsed, and rolled back by refunds
 (internal/storage/subscription_orders.go, ledger.go:386-464).
 */
module Access {
  import opened Wrappers
  import opened Ledger
  import opened Tables
  import opened Refunds
  import opened Subscriptions
  import opened Orders
  import opened Invariant
  import opened History
  import opened Runs
  import opened Conservation

  // ----- one pending order per user and product -----

  ghost predicate Reservation(rows: seq<Order>) {
    forall i, j :: 0 <= i < j < |rows| && Reserves(rows[i], rows[j].user, rows[j].subProduct) ==>
      rows[j].subProduct == 0 || rows[j].status != Pending
  }

  lemma KeptReservation(rows: seq<Order>, rows': seq<Order>)
    requires Reservation(rows) && KeepsOrders(rows, rows') && |rows'| == |rows|
    ensures Reservation(rows')
  {
  }

  lemma CreateReservation(db: DB, d: Draft, now: int)
    requires Reservation(db.orders)
    ensures Reservation(CreateOrder(db, d, now).0.orders)
  {
  }

  lemma {:induction false} RunReservation(db: DB, steps: seq<Step>)
    requires Inv(db) && Reservation(db.orders)
    ensures Reservation(Run(db, steps).orders)
  {
    if |steps| > 0 {
      var front, s := steps[..|steps| - 1], steps[|steps| - 1];
      var before := Run(db, front);
      RunKeeps(db, front);
      RunReservation(db, front);
      StepKeeps(before, s);
      StepSteady(before, s);
      if s.op.Create? { CreateReservation(before, s.op.draft, s.now); }
      else { KeptReservation(before.orders, Apply(before, s).orders); }
    }
  }

  /** At most one pending order per user and subscription product ever exists. */
  lemma OnePendingOrder(stock: map<int, int>, promos: map<string, int>, steps: seq<Step>, a: int, b: int)
    requires var db := Run(Genesis(stock, promos), steps);
      && db.HasOrder(a) && db.HasOrder(b) && db.Ord(a).subProduct != 0
      && db.Ord(a).status == Pending && db.Ord(b).status == Pending
      && db.Ord(a).user == db.Ord(b).user && db.Ord(a).subProduct == db.Ord(b).subProduct
    ensures a == b
  {
    GenesisInv(stock, promos);
    RunReservation(Genesis(stock, promos), steps);
    PendingOnce(Run(Genesis(stock, promos), steps).orders, a - 1, b - 1);
  }

  lemma PendingOnce(rows: seq<Order>, i: nat, j: nat)
    requires Reservation(rows) && i < |rows| && j < |rows| && rows[i].subProduct != 0
    requires rows[i].status == Pending && rows[j].status == Pending
    requires rows[i].user == rows[j].user && rows[i].subProduct == rows[j].subProduct
    ensures i == j
  {
  }

  // ----- what a refund does to access -----

  /** The capture still buys time after `now`. */
  predicate BuysTime(a: Attempt, refunds: seq<Refund>, order: int, p: Provider, now: int) {
    OpenPeriod(a, refunds, order, p) && a.entitlement.value > now
  }

  ghost predicate HoldsTime(db: DB, order: int, p: Provider, now: int) {
    exists i :: 0 <= i < |db.attempts| && BuysTime(db.attempts[i], db.refunds, order, p, now)
  }

  ghost predicate HasPeriod(db: DB, order: int, p: Provider) {
    exists i :: 0 <= i < |db.attempts| && OpenPeriod(db.attempts[i], db.refunds, order, p)
  }

  /** The subscription stands at the latest period the order still holds; with none left
      it has ended by `now`. */
  ghost predicate StandsAtLatest(db: DB, order: int, p: Provider, s: Subscription, now: int) {
    if HasPeriod(db, order, p) then
      && (exists i :: 0 <= i < |db.attempts| && OpenPeriod(db.attempts[i], db.refunds, order, p)
                      && db.attempts[i].entitlement == Some(s.expires))
      && (forall i :: 0 <= i < |db.attempts| && OpenPeriod(db.attempts[i], db.refunds, order, p) ==>
            db.attempts[i].entitlement.value <= s.expires)
      && (s.status == Canceled || (s.status == Active <==> s.expires > now))
    else
      s.expires <= now && s.status != Active
  }

  lemma RollBackExact(db: DB, order: int, p: Provider, entitlement: Option<int>, now: int)
    requires db.HasOrder(order) && db.Ord(order).subProduct > 0
    requires (db.Ord(order).user, db.Ord(order).subProduct) in db.subs
    ensures var key := (db.Ord(order).user, db.Ord(order).subProduct);
      var rolled := RollBack(db, order, p, entitlement, true, now);
      && rolled.subs.Keys == db.subs.Keys
      && (forall k :: k in db.subs && k != key ==> rolled.subs[k] == db.subs[k])
      && rolled.subs[key].order == db.subs[key].order && rolled.subs[key].charge == db.subs[key].charge
      && (rolled.subs[key].status == Canceled <==> db.subs[key].status == Canceled)
      && StandsAtLatest(db, order, p, rolled.subs[key], now)
      && (Grants(rolled.subs[key], now) <==> HoldsTime(db, order, p, now))
  {
  }

  /** A refund the store committed for the first time. */
  predicate FirstRefund(db: DB, f: RefundFact, now: int) {
    RefundOnce(db, f, now).0 != db
  }

  /** The capture a refund names. */
  function RefundedCapture(db: DB, f: RefundFact): Option<nat> {
    match f.name.Normalized()
    case None => None
    case Some(p) => FindAttempt(db.attempts, p, f.parent)
  }

  /** Refunds roll access back exactly: a committed full refund of a subscription capture
      leaves the row at the latest period the order still holds, or ended by now; a partial
      refund leaves it alone; a missing row sends the order to review. */
  lemma RefundRollsBack(db: DB, f: RefundFact, now: int)
    requires FirstRefund(db, f, now)
    ensures db.HasOrder(f.order) && RefundedCapture(db, f).Some?
    ensures var db' := RefundOnce(db, f, now).0;
      var a := db.attempts[RefundedCapture(db, f).value];
      var o := db.Ord(f.order);
      var key := (o.user, o.subProduct);
      if RefundedOf(db'.refunds, a) != a.amount || o.subProduct <= 0 then db'.subs == db.subs
      else if key !in db.subs then db'.subs == db.subs && Held(db', f.order)
      else
        && key in db'.subs && db'.subs.Keys == db.subs.Keys
        && (forall k :: k in db.subs && k != key ==> db'.subs[k] == db.subs[k])
        && StandsAtLatest(db', f.order, a.provider, db'.subs[key], now)
        && (db'.subs[key].status == Canceled <==> db.subs[key].status == Canceled)
        && (Grants(db'.subs[key], now) <==> HoldsTime(db', f.order, a.provider, now))
  {
  }

  /** The rollback follows the user and product, not the order that owns the contract: a
      full refund of an older order ends access another order paid for, unless the refunded
      order itself still holds time. */
  lemma OldRefundEndsNewContract(db: DB, f: RefundFact, now: int)
    requires FirstRefund(db, f, now) && db.HasOrder(f.order)
    requires db.Ord(f.order).subProduct > 0
    requires (db.Ord(f.order).user, db.Ord(f.order).subProduct) in db.subs
    requires db.subs[(db.Ord(f.order).user, db.Ord(f.order).subProduct)].order != f.order
    requires RefundedCapture(db, f).Some?
    requires RefundedOf(RefundOnce(db, f, now).0.refunds, db.attempts[RefundedCapture(db, f).value])
          == db.attempts[RefundedCapture(db, f).value].amount
    ensures var o := db.Ord(f.order);
      var db' := RefundOnce(db, f, now).0;
      && (o.user, o.subProduct) in db'.subs
      && (Grants(db'.subs[(o.user, o.subProduct)], now)
          <==> HoldsTime(db', f.order, db.attempts[RefundedCapture(db, f).value].provider, now))
  {
    RefundRollsBack(db, f, now);
  }
}
