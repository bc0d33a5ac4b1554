/**
 internal/storage/analytics.go: three revenue views as queries over the ledger, over the
 reals. They are one and the same sum, and what they net is exactly the money kept.
 */
module Analytics {
  import opened Ledger
  import opened Tables
  import opened Recording
  import opened Invariant
  import opened Runs

  // ----- the captures view -----

  /** The operator's decision that lets a quarantined capture count. */
  predicate CompensatedBy(db: DB, i: nat, e: nat)
    requires i < |db.attempts| && e < |db.events|
  {
    var a, ev := db.attempts[i], db.events[e];
    && ev == CaptureEvent(a, i, ev.disp).(at := ev.at)
    && EventTarget(e) in db.resolutions
    && db.resolutions[EventTarget(e)].order == a.order && db.resolutions[EventTarget(e)].provider == On(a.provider)
    && db.resolutions[EventTarget(e)].decision == Compensated
  }

  predicate Compensation(db: DB, i: nat)
    requires i < |db.attempts|
  {
    exists e: nat | e < |db.events| :: CompensatedBy(db, i, e)
  }

  /** A row of the captures view: settled, or quarantined and compensated. */
  predicate Counts(db: DB, i: nat)
    requires i < |db.attempts|
  {
    db.HasOrder(db.attempts[i].order)
    && (db.attempts[i].status == Succeeded || (db.attempts[i].status == Quarantined && Compensation(db, i)))
  }

  /** gross_usd. */
  function Gross(db: DB, a: Attempt): real
    requires db.HasOrder(a.order)
  {
    match a.provider
    case Crypto => a.amount as real / 100.0
    case Stars => db.Ord(a.order).totalUSD
  }

  /** refund_usd of an amount refunded of a capture. */
  function RefundUSD(db: DB, a: Attempt, amount: int): real
    requires db.HasOrder(a.order)
  {
    match a.provider
    case Crypto => amount as real / 100.0
    case Stars => if a.amount > 0 then Gross(db, a) * amount as real / a.amount as real else 0.0
  }

  // ----- GetRevenueSummary -----

  /** SUM(gross_usd) over the first n captures. */
  function GrossSum(db: DB, n: nat): real
    requires n <= |db.attempts|
  {
    if n == 0 then 0.0
    else GrossSum(db, n - 1) + if Counts(db, n - 1) then Gross(db, db.attempts[n - 1]) else 0.0
  }

  /** What one refund row adds: its capture is joined by provider and parent id. */
  function RefundValue(db: DB, r: Refund): real {
    match FindAttempt(db.attempts, r.provider, r.parent)
    case None => 0.0
    case Some(i) => if Counts(db, i) then RefundUSD(db, db.attempts[i], r.amount) else 0.0
  }

  /** SUM(refund_usd) over the first n refunds. */
  function RefundTotal(db: DB, n: nat): real
    requires n <= |db.refunds|
  {
    if n == 0 then 0.0 else RefundTotal(db, n - 1) + RefundValue(db, db.refunds[n - 1])
  }

  datatype Revenue = Revenue(gross: real, refund: real, net: real)

  function Plus(a: Revenue, b: Revenue): Revenue {
    Revenue(a.gross + b.gross, a.refund + b.refund, a.net + b.net)
  }

  const NOTHING: Revenue := Revenue(0.0, 0.0, 0.0)

  function RevenueSummary(db: DB): Revenue {
    var gross, refund := GrossSum(db, |db.attempts|), RefundTotal(db, |db.refunds|);
    Revenue(gross, refund, gross - refund)
  }

  // ----- GetPaymentMethodStats -----

  function MethodGross(db: DB, p: Provider, n: nat): real
    requires n <= |db.attempts|
  {
    if n == 0 then 0.0
    else
      MethodGross(db, p, n - 1)
      + if Counts(db, n - 1) && db.attempts[n - 1].provider == p then Gross(db, db.attempts[n - 1]) else 0.0
  }

  function MethodRefund(db: DB, p: Provider, n: nat): real
    requires n <= |db.refunds|
  {
    if n == 0 then 0.0
    else MethodRefund(db, p, n - 1) + if db.refunds[n - 1].provider == p then RefundValue(db, db.refunds[n - 1]) else 0.0
  }

  /** The row of one payment method; a method without cash flow has no row and adds nothing. */
  function MethodStats(db: DB, p: Provider): Revenue {
    var gross, refund := MethodGross(db, p, |db.attempts|), MethodRefund(db, p, |db.refunds|);
    Revenue(gross, refund, gross - refund)
  }

  // ----- TopBuyers -----

  /** A row of capture_cashflow: what a capture brought, and what went back of it. */
  function CashFlow(db: DB, i: nat): Revenue
    requires i < |db.attempts| && Counts(db, i)
  {
    var a := db.attempts[i];
    var back := RefundUSD(db, a, RefundedOf(db.refunds, a));
    Revenue(Gross(db, a), back, Gross(db, a) - back)
  }

  /** A row of capture_cashflow and the buyer it is grouped under. */
  datatype FlowRow = FlowRow(user: int, flow: Revenue)

  /** The rows of the first n captures. */
  function FlowRows(db: DB, n: nat): seq<FlowRow>
    requires n <= |db.attempts|
  {
    if n == 0 then []
    else
      FlowRows(db, n - 1)
      + if Counts(db, n - 1) then [FlowRow(db.Ord(db.attempts[n - 1].order).user, CashFlow(db, n - 1))] else []
  }

  /** One group of GROUP BY user_id. */
  function UserSum(rows: seq<FlowRow>, user: int): Revenue {
    if |rows| == 0 then NOTHING
    else Plus(UserSum(rows[..|rows| - 1], user), if rows[|rows| - 1].user == user then rows[|rows| - 1].flow else NOTHING)
  }

  /** The groups of the users listed, summed. */
  function GroupsSum(rows: seq<FlowRow>, users: seq<int>): Revenue {
    if |users| == 0 then NOTHING
    else Plus(GroupsSum(rows, users[..|users| - 1]), UserSum(rows, users[|users| - 1]))
  }

  /** The buyers listed, summed. */
  function BuyersTotal(db: DB, users: seq<int>): Revenue {
    GroupsSum(FlowRows(db, |db.attempts|), users)
  }

  ghost predicate Distinct(users: seq<int>) {
    forall i, j :: 0 <= i < j < |users| ==> users[i] != users[j]
  }

  /** Every buyer once, in whatever order. */
  ghost predicate AllBuyers(db: DB, users: seq<int>) {
    Distinct(users) && forall k :: 0 <= k < |db.orders| ==> db.orders[k].user in users
  }

  // ----- the simple sum they all refine -----

  function Flow(db: DB, i: nat): Revenue
    requires i < |db.attempts|
  {
    if Counts(db, i) then CashFlow(db, i) else NOTHING
  }

  /** Capture by capture: what it brought and what went back. */
  function CashFlows(db: DB, n: nat): Revenue
    requires n <= |db.attempts|
  {
    if n == 0 then NOTHING else Plus(CashFlows(db, n - 1), Flow(db, n - 1))
  }

  /** The same over settled captures only. */
  function KeptMoney(db: DB, n: nat): real
    requires n <= |db.attempts|
  {
    if n == 0 then 0.0
    else
      KeptMoney(db, n - 1)
      + if Counts(db, n - 1) && db.attempts[n - 1].status == Succeeded then Flow(db, n - 1).net else 0.0
  }

  // ----- by method -----

  lemma {:induction false} MethodGrossSplits(db: DB, n: nat)
    requires n <= |db.attempts|
    ensures MethodGross(db, Crypto, n) + MethodGross(db, Stars, n) == GrossSum(db, n)
  {
    if n > 0 { MethodGrossSplits(db, n - 1); }
  }

  lemma {:induction false} MethodRefundSplits(db: DB, n: nat)
    requires n <= |db.refunds|
    ensures MethodRefund(db, Crypto, n) + MethodRefund(db, Stars, n) == RefundTotal(db, n)
  {
    if n > 0 { MethodRefundSplits(db, n - 1); }
  }

  // ----- refunds row by row, and capture by capture -----

  /** Dividing a sum: kept apart because it multiplies variables. */
  lemma ShareAdds(gross: real, x: real, y: real, amount: real)
    requires amount > 0.0
    ensures gross * (x + y) / amount == gross * x / amount + gross * y / amount
  {
    assert gross * (x + y) == gross * x + gross * y;
  }

  lemma RefundUSDAdds(db: DB, a: Attempt, x: int, y: int)
    requires db.HasOrder(a.order)
    ensures RefundUSD(db, a, x + y) == RefundUSD(db, a, x) + RefundUSD(db, a, y)
    ensures RefundUSD(db, a, 0) == 0.0
  {
    if a.provider == Stars && a.amount > 0 { ShareAdds(Gross(db, a), x as real, y as real, a.amount as real); }
  }

  /** What went back of the first n captures, given these refunds. */
  function BackSum(db: DB, refunds: seq<Refund>, n: nat): real
    requires n <= |db.attempts|
  {
    if n == 0 then 0.0
    else
      BackSum(db, refunds, n - 1)
      + if Counts(db, n - 1) then RefundUSD(db, db.attempts[n - 1], RefundedOf(refunds, db.attempts[n - 1])) else 0.0
  }

  lemma {:induction false} NothingBack(db: DB, n: nat)
    requires n <= |db.attempts|
    ensures BackSum(db, [], n) == 0.0
  {
    if n > 0 {
      NothingBack(db, n - 1);
      if Counts(db, n - 1) { RefundUSDAdds(db, db.attempts[n - 1], 0, 0); }
    }
  }

  /** One more refund moves the share of its own capture and of no other. */
  lemma {:induction false} BackSumAppend(db: DB, refunds: seq<Refund>, r: Refund, n: nat)
    requires UniqueCaptures(db.attempts) && n <= |db.attempts|
    ensures var i := FindAttempt(db.attempts, r.provider, r.parent);
      BackSum(db, refunds + [r], n) == BackSum(db, refunds, n) + if i.Some? && i.value < n then RefundValue(db, r) else 0.0
  {
    if n > 0 {
      BackSumAppend(db, refunds, r, n - 1);
      RefundedOfAppend(refunds, r);
      var a := db.attempts[n - 1];
      if Counts(db, n - 1) {
        RefundUSDAdds(db, a, RefundedOf(refunds, a), r.amount);
      }
    }
  }

  lemma {:induction false} RefundsByCapture(db: DB, k: nat)
    requires UniqueCaptures(db.attempts) && k <= |db.refunds|
    ensures RefundTotal(db, k) == BackSum(db, db.refunds[..k], |db.attempts|)
  {
    if k == 0 {
      NothingBack(db, |db.attempts|);
    } else {
      RefundsByCapture(db, k - 1);
      assert db.refunds[..k] == db.refunds[..k - 1] + [db.refunds[k - 1]];
      BackSumAppend(db, db.refunds[..k - 1], db.refunds[k - 1], |db.attempts|);
    }
  }

  lemma {:induction false} GrossIs(db: DB, n: nat)
    requires n <= |db.attempts|
    ensures CashFlows(db, n).gross == GrossSum(db, n)
  {
    if n > 0 { GrossIs(db, n - 1); }
  }

  lemma {:induction false} BackIs(db: DB, n: nat)
    requires n <= |db.attempts|
    ensures CashFlows(db, n).refund == BackSum(db, db.refunds, n)
  {
    if n > 0 { BackIs(db, n - 1); }
  }

  lemma {:induction false} NetIs(db: DB, n: nat)
    requires n <= |db.attempts|
    ensures CashFlows(db, n).net == CashFlows(db, n).gross - CashFlows(db, n).refund
  {
    if n > 0 { NetIs(db, n - 1); }
  }

  /** The join over refunds equals the sum over captures. */
  lemma SummaryIsCashFlow(db: DB)
    requires UniqueCaptures(db.attempts)
    ensures RevenueSummary(db) == CashFlows(db, |db.attempts|)
  {
    RefundsByCapture(db, |db.refunds|);
    assert db.refunds[..|db.refunds|] == db.refunds;
    GrossIs(db, |db.attempts|);
    BackIs(db, |db.attempts|);
    NetIs(db, |db.attempts|);
  }

  // ----- by buyer -----

  /** All rows, ungrouped. */
  function RowsSum(rows: seq<FlowRow>): Revenue {
    if |rows| == 0 then NOTHING else Plus(RowsSum(rows[..|rows| - 1]), rows[|rows| - 1].flow)
  }

  lemma {:induction false} NoRows(users: seq<int>)
    ensures GroupsSum([], users) == NOTHING
  {
    if |users| > 0 { NoRows(users[..|users| - 1]); }
  }

  /** One more row lands in the group of its user and in no other. */
  lemma {:induction false} RowLands(rows: seq<FlowRow>, row: FlowRow, users: seq<int>)
    requires Distinct(users)
    ensures GroupsSum(rows + [row], users) == Plus(GroupsSum(rows, users), if row.user in users then row.flow else NOTHING)
  {
    assert (rows + [row])[..|rows|] == rows;
    if |users| > 0 {
      RowLands(rows, row, users[..|users| - 1]);
      assert users == users[..|users| - 1] + [users[|users| - 1]];
    }
  }

  /** Grouping loses nothing when every row's user has a group. */
  lemma {:induction false} GroupsAddUp(rows: seq<FlowRow>, users: seq<int>)
    requires Distinct(users) && forall i :: 0 <= i < |rows| ==> rows[i].user in users
    ensures GroupsSum(rows, users) == RowsSum(rows)
  {
    if |rows| == 0 {
      NoRows(users);
    } else {
      var front := rows[..|rows| - 1];
      assert rows == front + [rows[|rows| - 1]];
      GroupsAddUp(front, users);
      RowLands(front, rows[|rows| - 1], users);
    }
  }

  lemma {:induction false} RowsHaveBuyers(db: DB, users: seq<int>, n: nat)
    requires n <= |db.attempts| && AllBuyers(db, users)
    ensures forall i :: 0 <= i < |FlowRows(db, n)| ==> FlowRows(db, n)[i].user in users
  {
    if n > 0 { RowsHaveBuyers(db, users, n - 1); }
  }

  lemma RowsSumAppend(rows: seq<FlowRow>, row: FlowRow)
    ensures RowsSum(rows + [row]) == Plus(RowsSum(rows), row.flow)
  {
    assert (rows + [row])[..|rows|] == rows;
  }

  lemma {:induction false} RowsAreCashFlows(db: DB, n: nat)
    requires n <= |db.attempts|
    ensures RowsSum(FlowRows(db, n)) == CashFlows(db, n)
  {
    if n > 0 {
      RowsAreCashFlows(db, n - 1);
      if Counts(db, n - 1) {
        RowsSumAppend(FlowRows(db, n - 1), FlowRow(db.Ord(db.attempts[n - 1].order).user, CashFlow(db, n - 1)));
      } else {
        assert FlowRows(db, n) == FlowRows(db, n - 1);
      }
    }
  }

  /** The buyers listed add up to all captures. */
  lemma BuyersAddUp(db: DB, users: seq<int>)
    requires AllBuyers(db, users)
    ensures BuyersTotal(db, users) == CashFlows(db, |db.attempts|)
  {
    RowsHaveBuyers(db, users, |db.attempts|);
    GroupsAddUp(FlowRows(db, |db.attempts|), users);
    RowsAreCashFlows(db, |db.attempts|);
  }

  // ----- the net -----

  lemma WholeShare(gross: real, amount: real)
    requires amount > 0.0
    ensures gross * amount / amount == gross
  {
  }

  lemma WholeRefund(db: DB, a: Attempt)
    requires db.HasOrder(a.order) && (a.provider == Stars ==> a.amount > 0)
    ensures RefundUSD(db, a, a.amount) == Gross(db, a)
  {
    if a.provider == Stars { WholeShare(Gross(db, a), a.amount as real); }
  }

  lemma CompensatedIsClosed(db: DB, i: nat)
    requires Inv(db) && i < |db.attempts| && Compensation(db, i)
    ensures Closed(db.refunds, db.attempts[i]) && (db.attempts[i].provider == Stars ==> db.attempts[i].amount > 0)
  {
    var e: nat :| e < |db.events| && CompensatedBy(db, i, e);
    assert EventOK(db.events[e], db.attempts, db.refunds);
    assert ResolutionOK(db, e);
    assert AttemptOK(|db.orders|, db.attempts[i]);
  }

  /** A counted quarantined capture nets to nothing: its resolution had it refunded whole. */
  lemma CompensatedNetsZero(db: DB, i: nat)
    requires Inv(db) && i < |db.attempts| && db.attempts[i].status == Quarantined && Counts(db, i)
    ensures Flow(db, i).net == 0.0
  {
    CompensatedIsClosed(db, i);
    WholeRefund(db, db.attempts[i]);
  }

  /** A capture that is not settled adds nothing to the net. */
  ghost predicate NetsOut(db: DB, i: nat)
    requires i < |db.attempts|
  {
    !(Counts(db, i) && db.attempts[i].status == Succeeded) ==> Flow(db, i).net == 0.0
  }

  lemma UnsettledNetsOut(db: DB, i: nat)
    requires Inv(db) && i < |db.attempts|
    ensures NetsOut(db, i)
  {
    if Counts(db, i) && db.attempts[i].status != Succeeded { CompensatedNetsZero(db, i); }
  }

  lemma {:induction false} NetIsKept(db: DB, n: nat)
    requires n <= |db.attempts| && forall i: nat :: i < |db.attempts| ==> NetsOut(db, i)
    ensures CashFlows(db, n).net == KeptMoney(db, n)
  {
    if n > 0 {
      NetIsKept(db, n - 1);
      assert NetsOut(db, n - 1);
    }
  }

  lemma MethodsAddUp(db: DB)
    ensures Plus(MethodStats(db, Crypto), MethodStats(db, Stars)) == RevenueSummary(db)
  {
    MethodGrossSplits(db, |db.attempts|);
    MethodRefundSplits(db, |db.refunds|);
  }

  /** The join over refunds and the grouping by buyer, in a ledger with unique captures. */
  lemma BuyersMatchSummary(db: DB, users: seq<int>)
    requires UniqueCaptures(db.attempts) && AllBuyers(db, users)
    ensures BuyersTotal(db, users) == RevenueSummary(db) == CashFlows(db, |db.attempts|)
  {
    SummaryIsCashFlow(db);
    BuyersAddUp(db, users);
  }

  /** In a reachable ledger the revenue summary, the methods summed and the buyers summed
      are the same gross, refund and net, and the net is what settled captures brought less
      what went back of them: counted quarantined captures net to nothing. */
  lemma RevenueViewsAgree(db: DB, users: seq<int>)
    requires Reachable(db) && AllBuyers(db, users)
    ensures Plus(MethodStats(db, Crypto), MethodStats(db, Stars)) == RevenueSummary(db)
    ensures BuyersTotal(db, users) == RevenueSummary(db)
    ensures RevenueSummary(db).net == KeptMoney(db, |db.attempts|)
  {
    ReachableInv(db);
    MethodsAddUp(db);
    BuyersMatchSummary(db, users);
    forall i: nat | i < |db.attempts| ensures NetsOut(db, i) { UnsettledNetsOut(db, i); }
    NetIsKept(db, |db.attempts|);
  }
}
