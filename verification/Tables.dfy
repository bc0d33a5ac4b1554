/**
 The queries the transactions share: identity lookups, the refund sums, and the one
 law that makes the sums usable: summing an order's refunds directly is the same as
 summing, over its captures, what was refunded of each.
 */
module Tables {
  import opened Wrappers
  import opened Ledger

  // ----- identity lookups -----

  predicate IsCapture(a: Attempt, p: Provider, ext: string) {
    a.provider == p && a.ext == ext
  }

  function FindAttempt(rows: seq<Attempt>, p: Provider, ext: string): (r: Option<nat>)
    ensures r.Some? ==> r.value < |rows| && IsCapture(rows[r.value], p, ext)
    ensures r.None? ==> forall i :: 0 <= i < |rows| ==> !IsCapture(rows[i], p, ext)
  {
    if |rows| == 0 then None
    else if IsCapture(rows[|rows| - 1], p, ext) then Some(|rows| - 1)
    else FindAttempt(rows[..|rows| - 1], p, ext)
  }

  predicate IsRefund(r: Refund, p: Provider, ext: string) {
    r.provider == p && r.ext == ext
  }

  function FindRefund(rows: seq<Refund>, p: Provider, ext: string): (r: Option<nat>)
    ensures r.Some? ==> r.value < |rows| && IsRefund(rows[r.value], p, ext)
    ensures r.None? ==> forall i :: 0 <= i < |rows| ==> !IsRefund(rows[i], p, ext)
  {
    if |rows| == 0 then None
    else if IsRefund(rows[|rows| - 1], p, ext) then Some(|rows| - 1)
    else FindRefund(rows[..|rows| - 1], p, ext)
  }

  // ----- sums -----

  /** SUM(amount_minor) of the refunds of one capture. */
  function RefundSum(rows: seq<Refund>, p: Provider, parent: string): int {
    if |rows| == 0 then 0
    else
      var last := rows[|rows| - 1];
      RefundSum(rows[..|rows| - 1], p, parent)
      + if last.provider == p && last.parent == parent then last.amount else 0
  }

  /** What has been refunded of one capture. */
  function RefundedOf(rows: seq<Refund>, a: Attempt): int {
    RefundSum(rows, a.provider, a.ext)
  }

  /** SUM(amount_minor) of an order's refunds on one rail. */
  function OrderRefunded(rows: seq<Refund>, order: int, p: Provider): int {
    if |rows| == 0 then 0
    else
      var last := rows[|rows| - 1];
      OrderRefunded(rows[..|rows| - 1], order, p)
      + if last.provider == p && last.order == order then last.amount else 0
  }

  /** SUM(amount_minor) of an order's captures on one rail. */
  function OrderCaptured(rows: seq<Attempt>, order: int, p: Provider): int {
    if |rows| == 0 then 0
    else
      var last := rows[|rows| - 1];
      OrderCaptured(rows[..|rows| - 1], order, p)
      + if last.provider == p && last.order == order then last.amount else 0
  }

  /** The refunds of an order counted capture by capture. */
  function RefundedByCapture(rows: seq<Attempt>, refunds: seq<Refund>, order: int, p: Provider): int {
    if |rows| == 0 then 0
    else
      var last := rows[|rows| - 1];
      RefundedByCapture(rows[..|rows| - 1], refunds, order, p)
      + if last.provider == p && last.order == order then RefundedOf(refunds, last) else 0
  }

  // ----- appending a row -----

  lemma RefundedOfAppend(rows: seq<Refund>, r: Refund)
    ensures forall a: Attempt {:trigger RefundedOf(rows + [r], a)} ::
      RefundedOf(rows + [r], a) == RefundedOf(rows, a) + (if IsCapture(a, r.provider, r.parent) then r.amount else 0)
  {
  }

  // ----- the exchange law -----

  ghost predicate UniqueCaptures(rows: seq<Attempt>) {
    forall i, j :: 0 <= i < j < |rows| ==> !IsCapture(rows[j], rows[i].provider, rows[i].ext)
  }

  ghost predicate ParentAt(rows: seq<Attempt>, r: Refund, i: int) {
    0 <= i < |rows| && IsCapture(rows[i], r.provider, r.parent) && rows[i].order == r.order
  }

  ghost predicate HasParent(rows: seq<Attempt>, r: Refund) {
    exists i :: ParentAt(rows, r, i)
  }

  /** Every refund belongs to a capture of the same order. */
  ghost predicate Parented(rows: seq<Attempt>, refunds: seq<Refund>) {
    forall k :: 0 <= k < |refunds| ==> HasParent(rows, refunds[k])
  }

  lemma {:induction false} RefundElsewhere(rows: seq<Attempt>, refunds: seq<Refund>, r: Refund, order: int, p: Provider)
    requires forall i :: 0 <= i < |rows| ==> !IsCapture(rows[i], r.provider, r.parent)
    ensures RefundedByCapture(rows, refunds + [r], order, p) == RefundedByCapture(rows, refunds, order, p)
  {
    if |rows| > 0 {
      RefundElsewhere(rows[..|rows| - 1], refunds, r, order, p);
      RefundedOfAppend(refunds, r);
    }
  }

  lemma {:induction false} RefundHere(rows: seq<Attempt>, refunds: seq<Refund>, r: Refund, i: int, order: int, p: Provider)
    requires UniqueCaptures(rows) && ParentAt(rows, r, i)
    ensures RefundedByCapture(rows, refunds + [r], order, p)
         == RefundedByCapture(rows, refunds, order, p) + if r.provider == p && r.order == order then r.amount else 0
  {
    RefundedOfAppend(refunds, r);
    var front := rows[..|rows| - 1];
    if i == |rows| - 1 {
      RefundElsewhere(front, refunds, r, order, p);
    } else {
      assert ParentAt(front, r, i);
      RefundHere(front, refunds, r, i, order, p);
    }
  }

  /** Summing refunds by order equals summing them by capture. */
  lemma {:induction false} ExchangeLaw(rows: seq<Attempt>, refunds: seq<Refund>, order: int, p: Provider)
    requires UniqueCaptures(rows) && Parented(rows, refunds)
    ensures OrderRefunded(refunds, order, p) == RefundedByCapture(rows, refunds, order, p)
  {
    if |refunds| == 0 {
      NothingRefunded(rows, order, p);
    } else {
      var front, r := refunds[..|refunds| - 1], refunds[|refunds| - 1];
      assert refunds == front + [r];
      assert HasParent(rows, refunds[|front|]);
      assert forall k :: 0 <= k < |front| ==> HasParent(rows, refunds[k]) && front[k] == refunds[k];
      ExchangeLaw(rows, front, order, p);
      var i :| ParentAt(rows, r, i);
      RefundHere(rows, front, r, i, order, p);
    }
  }

  lemma {:induction false} NothingRefunded(rows: seq<Attempt>, order: int, p: Provider)
    ensures RefundedByCapture(rows, [], order, p) == 0
  {
    if |rows| > 0 {
      NothingRefunded(rows[..|rows| - 1], order, p);
    }
  }

  // ----- what equal sums mean -----

  predicate OfOrder(a: Attempt, order: int, p: Provider) {
    a.order == order && a.provider == p
  }

  /** No capture is refunded beyond its amount. */
  ghost predicate Bounded(rows: seq<Attempt>, refunds: seq<Refund>) {
    forall i :: 0 <= i < |rows| ==> 0 <= RefundedOf(refunds, rows[i]) <= rows[i].amount
  }

  lemma {:induction false} ClosedSums(rows: seq<Attempt>, refunds: seq<Refund>, order: int, p: Provider)
    requires Bounded(rows, refunds)
    ensures 0 <= RefundedByCapture(rows, refunds, order, p) <= OrderCaptured(rows, order, p)
    ensures RefundedByCapture(rows, refunds, order, p) == OrderCaptured(rows, order, p)
       <==> forall i :: 0 <= i < |rows| && OfOrder(rows[i], order, p) ==> RefundedOf(refunds, rows[i]) == rows[i].amount
  {
    if |rows| > 0 {
      var front := rows[..|rows| - 1];
      assert forall i :: 0 <= i < |front| ==> front[i] == rows[i];
      ClosedSums(front, refunds, order, p);
      var last := rows[|rows| - 1];
      if RefundedByCapture(rows, refunds, order, p) == OrderCaptured(rows, order, p) {
        forall i | 0 <= i < |rows| && OfOrder(rows[i], order, p)
          ensures RefundedOf(refunds, rows[i]) == rows[i].amount
        {
          if i < |front| { assert front[i] == rows[i]; }
        }
      }
    }
  }

  lemma {:induction false} PositiveSums(rows: seq<Attempt>, refunds: seq<Refund>, order: int, p: Provider)
    requires Bounded(rows, refunds)
    ensures RefundedByCapture(rows, refunds, order, p) >= 0
    ensures RefundedByCapture(rows, refunds, order, p) > 0
       <==> exists i :: 0 <= i < |rows| && OfOrder(rows[i], order, p) && RefundedOf(refunds, rows[i]) > 0
  {
    if |rows| > 0 {
      var front := rows[..|rows| - 1];
      assert forall i :: 0 <= i < |front| ==> front[i] == rows[i];
      PositiveSums(front, refunds, order, p);
      if RefundedByCapture(rows, refunds, order, p) > 0 {
        if RefundedByCapture(front, refunds, order, p) > 0 {
          var i :| 0 <= i < |front| && OfOrder(front[i], order, p) && RefundedOf(refunds, front[i]) > 0;
          assert rows[i] == front[i];
        } else {
          assert OfOrder(rows[|rows| - 1], order, p);
        }
      }
    }
  }

}
