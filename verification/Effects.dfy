/** What each kind of write does to the invariant, one table at a time. */
module Effects {
  import opened Wrappers
  import opened Ledger
  import opened Tables
  import opened Anomalies
  import opened Recording
  import opened Reviews
  import opened Invariant

  // ----- order rows -----

  /** Rewriting one order row keeps everything that does not speak of that order. */
  lemma OrderRewrite(db: DB, id: int, o: Order)
    requires Inv(db) && db.HasOrder(id)
    requires OrderOK(db.attempts, db.refunds, id, o)
    requires db.Ord(id).pay == NeedsReview ==> o.pay == NeedsReview || AllResolved(db, id)
    ensures Inv(db.SetOrder(id, o))
  {
    var db' := db.SetOrder(id, o);
    assert Quarantine(db') by {
      forall e: nat | e < |db'.events| && OpenEvent(db', e) ensures Held(db', db'.events[e].order) {
        assert OpenEvent(db, e) && Held(db, db.events[e].order);
      }
      forall i: nat | i < |db'.anomalies| && db'.anomalies[i].attached && OpenAnomaly(db', i) ensures Held(db', db'.anomalies[i].order) {
        assert OpenAnomaly(db, i) && Held(db, db.anomalies[i].order);
      }
    }
    assert Resolutions(db') by {
      forall t | t in db'.resolutions ensures TargetInRange(db', t) { assert TargetInRange(db, t); }
      forall e: nat | e < |db'.events| ensures ResolutionOK(db', e) { assert ResolutionOK(db, e); }
    }
  }

  lemma FlagInv(db: DB, id: int)
    requires Inv(db)
    ensures Inv(Flag(db, id))
    ensures db.HasOrder(id) ==> Held(Flag(db, id), id)
  {
    if db.HasOrder(id) {
      assert OrderOK(db.attempts, db.refunds, id, db.orders[id - 1]);
      OrderRewrite(db, id, db.Ord(id).(pay := NeedsReview));
    }
  }

  // ----- anomalies -----

  lemma AnomalyRowInv(db: DB, f: AnomalyFact, now: int)
    requires Inv(db) && f.provider.Some?
    requires db.HasOrder(f.order) ==> Held(db, f.order)
    ensures Inv(db.(anomalies := db.anomalies + [AnomalyRow(db, f, now)]))
  {
    var db' := db.(anomalies := db.anomalies + [AnomalyRow(db, f, now)]);
    assert Quarantine(db') by {
      forall e: nat | e < |db'.events| && OpenEvent(db', e) ensures Held(db', db'.events[e].order) {
        assert OpenEvent(db, e);
      }
      forall i: nat | i < |db'.anomalies| && db'.anomalies[i].attached && OpenAnomaly(db', i) ensures Held(db', db'.anomalies[i].order) {
        if i < |db.anomalies| { assert OpenAnomaly(db, i); }
      }
    }
    assert Resolutions(db') by {
      forall t | t in db'.resolutions ensures TargetInRange(db', t) { assert TargetInRange(db, t); }
      forall e: nat | e < |db'.events| ensures ResolutionOK(db', e) { assert ResolutionOK(db, e); }
    }
  }

  lemma RecordAnomalyInv(db: DB, f: AnomalyFact, now: int)
    requires Inv(db)
    ensures Inv(RecordAnomaly(db, f, now).0)
  {
    if Acceptable(f) {
      FlagInv(db, f.order);
      if FindAnomaly(db.anomalies, f).None? {
        var flagged := Flag(db, f.order);
        AnomalyRowInv(flagged, f, now);
        var row := AnomalyRow(db, f, now);
        assert row == AnomalyRow(flagged, f, now);
        assert Flag(db.(anomalies := db.anomalies + [row]), f.order) == flagged.(anomalies := flagged.anomalies + [row]);
      }
    }
  }

  // ----- a new capture -----

  lemma {:induction false} NoRefundYet(refunds: seq<Refund>, p: Provider, parent: string)
    requires forall k :: 0 <= k < |refunds| ==> !(refunds[k].provider == p && refunds[k].parent == parent)
    ensures RefundSum(refunds, p, parent) == 0
  {
    if |refunds| > 0 {
      NoRefundYet(refunds[..|refunds| - 1], p, parent);
    }
  }

  ghost predicate FreshCapture(db: DB, a: Attempt, disp: Disposition) {
    && AttemptOK(|db.orders|, a)
    && (forall i :: 0 <= i < |db.attempts| ==> !IsCapture(db.attempts[i], a.provider, a.ext))
    && disp == if a.status == Quarantined then EventNeedsReview else EventSettled
  }

  lemma FreshUnrefunded(db: DB, a: Attempt, disp: Disposition)
    requires Parented(db.attempts, db.refunds) && FreshCapture(db, a, disp)
    ensures RefundedOf(db.refunds, a) == 0
  {
    forall k | 0 <= k < |db.refunds|
      ensures !(db.refunds[k].provider == a.provider && db.refunds[k].parent == a.ext)
    {
      assert HasParent(db.attempts, db.refunds[k]);
    }
    NoRefundYet(db.refunds, a.provider, a.ext);
  }

  lemma LogGrows(events: seq<Event>, e: Event, n: int, refunds: seq<Refund>)
    requires CapturesLogged(events, n) && RefundsLogged(events, refunds)
    ensures CapturesLogged(events + [e], n) && RefundsLogged(events + [e], refunds)
  {
    var events' := events + [e];
    forall i | 0 <= i < n ensures CaptureLogged(events', i) {
      assert CaptureLogged(events, i);
      var k :| 0 <= k < |events| && events[k].kind == Captured && events[k].attempt == Some(i);
      assert events'[k] == events[k];
    }
    forall k | 0 <= k < |refunds| ensures RefundLogged(events', refunds[k]) {
      assert RefundLogged(events, refunds[k]);
      var j :| 0 <= j < |events| && RepeatsRefund(events[j], refunds[k]);
      assert events'[j] == events[j];
    }
  }

  lemma CaptureBacked(events: seq<Event>, rows: seq<Attempt>, refunds: seq<Refund>, a: Attempt, disp: Disposition)
    requires EventsBacked(events, rows, refunds)
    requires disp == if a.status == Quarantined then EventNeedsReview else EventSettled
    ensures EventsBacked(events + [CaptureEvent(a, |rows|, disp)], rows + [a], refunds)
  {
  }

  lemma CaptureUnique(events: seq<Event>, rows: seq<Attempt>, refunds: seq<Refund>, a: Attempt, disp: Disposition)
    requires UniqueEvents(events) && EventsBacked(events, rows, refunds)
    requires forall i :: 0 <= i < |rows| ==> !IsCapture(rows[i], a.provider, a.ext)
    ensures UniqueEvents(events + [CaptureEvent(a, |rows|, disp)])
  {
  }

  lemma CaptureEntered(db: DB, a: Attempt, disp: Disposition)
    requires Books(db) && FreshCapture(db, a, disp)
    ensures DoubleEntry(InsertCapture(db, a, disp).attempts, InsertCapture(db, a, disp).events, db.refunds)
  {
    var last := CaptureEvent(a, |db.attempts|, disp);
    LogGrows(db.events, last, |db.attempts|, db.refunds);
    CaptureBacked(db.events, db.attempts, db.refunds, a, disp);
    CaptureUnique(db.events, db.attempts, db.refunds, a, disp);
    assert (db.events + [last])[|db.events|] == last;
    assert CaptureLogged(db.events + [last], |db.attempts|);
  }

  lemma CaptureRefunds(rows: seq<Attempt>, refunds: seq<Refund>, a: Attempt)
    requires RefundsOK(rows, refunds) && RefundedOf(refunds, a) == 0 <= a.amount
    ensures RefundsOK(rows + [a], refunds)
  {
    forall k | 0 <= k < |refunds| ensures HasParent(rows + [a], refunds[k]) {
      assert HasParent(rows, refunds[k]);
      var i :| ParentAt(rows, refunds[k], i);
      assert ParentAt(rows + [a], refunds[k], i);
    }
  }

  lemma CaptureRows(n: int, rows: seq<Attempt>, a: Attempt)
    requires AttemptsOK(n, rows) && AttemptOK(n, a)
    requires forall i :: 0 <= i < |rows| ==> !IsCapture(rows[i], a.provider, a.ext)
    ensures AttemptsOK(n, rows + [a])
  {
  }

  lemma CaptureBooks(db: DB, a: Attempt, disp: Disposition)
    requires Books(db) && FreshCapture(db, a, disp)
    ensures Books(InsertCapture(db, a, disp))
  {
    CaptureEntered(db, a, disp);
    FreshUnrefunded(db, a, disp);
    CaptureRefunds(db.attempts, db.refunds, a);
    CaptureRows(|db.orders|, db.attempts, a);
  }

  /** A capture of another order leaves this order's row alone. */
  lemma CaptureElsewhere(rows: seq<Attempt>, refunds: seq<Refund>, a: Attempt, id: int, o: Order)
    requires OrderOK(rows, refunds, id, o) && a.order != id
    ensures OrderOK(rows + [a], refunds, id, o)
  {
    var rows' := rows + [a];
    assert forall i :: 0 <= i < |rows| ==> rows'[i] == rows[i];
    if EverSettled(o) {
      var i :| 0 <= i < |rows| && PaidWith(rows[i], id, o.rail.value, o.paymentID);
      assert PaidWith(rows'[i], id, o.rail.value, o.paymentID);
    }
    if Touched(rows, refunds, id) {
      var i :| 0 <= i < |rows| && rows[i].order == id && RefundedOf(refunds, rows[i]) > 0;
      assert rows'[i].order == id;
    }
    if AllClosed(rows', refunds, id) {
      forall i | 0 <= i < |rows| && rows[i].order == id ensures Closed(refunds, rows[i]) {
        assert Closed(refunds, rows'[i]);
      }
    }
  }

  lemma CaptureQuarantine(db: DB, a: Attempt, disp: Disposition, o: Order)
    requires Quarantine(db) && 0 < a.order <= |db.orders|
    requires disp == EventNeedsReview || db.Ord(a.order).pay == NeedsReview ==> o.pay == NeedsReview
    ensures Quarantine(InsertCapture(db, a, disp).SetOrder(a.order, o))
  {
  }

  lemma CaptureResolutions(db: DB, a: Attempt, disp: Disposition, o: Order)
    requires Resolutions(db) && 0 < a.order <= |db.orders|
    requires EventsBacked(db.events, db.attempts, db.refunds)
    ensures Resolutions(InsertCapture(db, a, disp).SetOrder(a.order, o))
  {
    var db' := InsertCapture(db, a, disp).SetOrder(a.order, o);
    forall t | t in db'.resolutions ensures TargetInRange(db', t) { assert TargetInRange(db, t); }
    assert EventTarget(|db.events|) !in db.resolutions;
    forall e: nat | e < |db'.events| ensures ResolutionOK(db', e) {
      if e < |db.events| {
        assert EventOK(db.events[e], db.attempts, db.refunds);
        assert ResolutionOK(db, e);
      }
    }
  }

  lemma CaptureProjections(db: DB, a: Attempt, disp: Disposition, o: Order)
    requires Projections(db) && 0 < a.order <= |db.orders|
    requires OrderOK(db.attempts + [a], db.refunds, a.order, o)
    ensures Projections(InsertCapture(db, a, disp).SetOrder(a.order, o))
  {
    var db' := InsertCapture(db, a, disp).SetOrder(a.order, o);
    forall k: nat | k < |db'.orders| ensures OrderOK(db'.attempts, db'.refunds, k + 1, db'.orders[k]) {
      if k + 1 != a.order {
        assert OrderOK(db.attempts, db.refunds, k + 1, db.orders[k]);
        CaptureElsewhere(db.attempts, db.refunds, a, k + 1, db.orders[k]);
      }
    }
  }

  /** A new capture with its order rewritten: the order's new row must be right, and a
      quarantined capture must leave it in review. */
  lemma CaptureInv(db: DB, a: Attempt, disp: Disposition, o: Order)
    requires Inv(db) && FreshCapture(db, a, disp)
    requires OrderOK(db.attempts + [a], db.refunds, a.order, o)
    requires a.status == Quarantined || db.Ord(a.order).pay == NeedsReview ==> o.pay == NeedsReview
    ensures Inv(InsertCapture(db, a, disp).SetOrder(a.order, o))
  {
    CaptureBooks(db, a, disp);
    CaptureQuarantine(db, a, disp, o);
    CaptureResolutions(db, a, disp, o);
    CaptureProjections(db, a, disp, o);
  }

  // ----- completing an entitlement -----

  function Filled(rows: seq<Attempt>, i: nat, t: int): seq<Attempt>
    requires i < |rows|
  {
    rows[i := rows[i].(entitlement := Some(t))]
  }

  lemma FilledRows(rows: seq<Attempt>, i: nat, t: int, refunds: seq<Refund>)
    requires i < |rows|
    ensures forall k :: 0 <= k < |rows| ==> Filled(rows, i, t)[k] == rows[k].(entitlement := Filled(rows, i, t)[k].entitlement)
    ensures forall k :: 0 <= k < |rows| ==> RefundedOf(refunds, Filled(rows, i, t)[k]) == RefundedOf(refunds, rows[k])
  {
  }

  lemma EntitlementBacked(events: seq<Event>, rows: seq<Attempt>, refunds: seq<Refund>, i: nat, t: int)
    requires EventsBacked(events, rows, refunds) && i < |rows|
    ensures EventsBacked(events, Filled(rows, i, t), refunds)
  {
  }

  lemma EntitlementRefunds(rows: seq<Attempt>, refunds: seq<Refund>, i: nat, t: int)
    requires RefundsOK(rows, refunds) && i < |rows|
    ensures RefundsOK(Filled(rows, i, t), refunds)
  {
    FilledRows(rows, i, t, refunds);
    forall k | 0 <= k < |refunds| ensures HasParent(Filled(rows, i, t), refunds[k]) {
      assert HasParent(rows, refunds[k]);
      var j :| ParentAt(rows, refunds[k], j);
      assert ParentAt(Filled(rows, i, t), refunds[k], j);
    }
  }

  lemma EntitlementRows(n: int, rows: seq<Attempt>, i: nat, t: int)
    requires AttemptsOK(n, rows) && i < |rows|
    ensures AttemptsOK(n, Filled(rows, i, t))
  {
  }

  lemma EntitlementOrder(rows: seq<Attempt>, refunds: seq<Refund>, i: nat, t: int, id: int, o: Order)
    requires i < |rows| && OrderOK(rows, refunds, id, o)
    ensures OrderOK(Filled(rows, i, t), refunds, id, o)
  {
    var rows' := Filled(rows, i, t);
    FilledRows(rows, i, t, refunds);
    if EverSettled(o) {
      var k :| 0 <= k < |rows| && PaidWith(rows[k], id, o.rail.value, o.paymentID);
      assert PaidWith(rows'[k], id, o.rail.value, o.paymentID);
    }
    if Touched(rows, refunds, id) {
      var k :| 0 <= k < |rows| && rows[k].order == id && RefundedOf(refunds, rows[k]) > 0;
      assert rows'[k].order == id && RefundedOf(refunds, rows'[k]) > 0;
    }
    if AllClosed(rows', refunds, id) {
      forall k | 0 <= k < |rows| && rows[k].order == id ensures Closed(refunds, rows[k]) {
        assert Closed(refunds, rows'[k]);
      }
    }
  }

  lemma EntitlementReviews(db: DB, i: nat, t: int)
    requires Quarantine(db) && Resolutions(db) && i < |db.attempts|
    requires EventsBacked(db.events, db.attempts, db.refunds)
    ensures Quarantine(db.(attempts := Filled(db.attempts, i, t))) && Resolutions(db.(attempts := Filled(db.attempts, i, t)))
  {
    var db' := db.(attempts := Filled(db.attempts, i, t));
    forall e: nat | e < |db'.events| && OpenEvent(db', e) ensures Held(db', db'.events[e].order) {
      assert OpenEvent(db, e);
    }
    forall k: nat | k < |db'.anomalies| && db'.anomalies[k].attached && OpenAnomaly(db', k) ensures Held(db', db'.anomalies[k].order) {
      assert OpenAnomaly(db, k);
    }
    forall x | x in db'.resolutions ensures TargetInRange(db', x) { assert TargetInRange(db, x); }
    forall e: nat | e < |db'.events| ensures ResolutionOK(db', e) {
      assert EventOK(db.events[e], db.attempts, db.refunds);
      assert ResolutionOK(db, e);
    }
  }

  /** Completing a missing entitlement expiry keeps the invariant. */
  lemma EntitlementInv(db: DB, i: nat, t: int)
    requires Inv(db) && i < |db.attempts|
    ensures Inv(db.(attempts := Filled(db.attempts, i, t)))
  {
    EntitlementRows(|db.orders|, db.attempts, i, t);
    EntitlementBacked(db.events, db.attempts, db.refunds, i, t);
    EntitlementRefunds(db.attempts, db.refunds, i, t);
    EntitlementReviews(db, i, t);
    forall k: nat | k < |db.orders| ensures OrderOK(Filled(db.attempts, i, t), db.refunds, k + 1, db.orders[k]) {
      assert OrderOK(db.attempts, db.refunds, k + 1, db.orders[k]);
      EntitlementOrder(db.attempts, db.refunds, i, t, k + 1, db.orders[k]);
    }
  }
}
