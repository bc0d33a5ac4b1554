/**
 Single settlement as the shop's callers see it: of all the confirmations that report an
 outcome for one order, whatever ran between them, there is at most one.
 */
module Outcomes {
  import opened Ledger
  import opened Orders
  import opened Shop
  import opened Invariant
  import opened Runs
  import opened LedgerTheorems
  import opened Confirmation

  /** One ConfirmPaymentReceipt, with the other writers it met. */
  datatype Call = Call(receipt: Receipt, now: int, env: Interleaving)

  function Confirm(db: DB, c: Call): (DB, Errs) {
    ConfirmReceipt(db, c.receipt, c.now, c.env)
  }

  /** An outcome comes from the settling branch. */
  lemma OutcomeBranch(db: DB, c: Call)
    requires Confirm(db, c).1 == {}
    ensures db.HasOrder(c.receipt.order) && RailOf(c.receipt.name).Some?
    ensures RequestOf(db.Ord(c.receipt.order), c.receipt, c.now).Some?
    ensures var q := RequestOf(db.Ord(c.receipt.order), c.receipt, c.now).value;
      Confirm(db, c) == SettleAndSettleUp(Run(db, c.env.beforeWrite), c.receipt, RailOf(c.receipt.name).value, q, c.now, c.env)
  {
  }

  /** A status conflict never ends in an outcome. */
  lemma ConflictIsNoOutcome(db: DB, r: Receipt, p: Provider, q: Request, now: int, env: Interleaving)
    requires SettleAndSettleUp(db, r, p, q, now, env).1 == {}
    ensures SettleAndSettleUp(db, r, p, q, now, env) == Settle(db, r.order, q.fact, q.contract, now)
  {
  }

  /** An outcome is returned only if the settlement transaction itself confirmed, on the
      ledger as other writers had left it, and nothing was written after that. */
  lemma OutcomeIsSettlement(db: DB, c: Call)
    requires Inv(db) && Confirm(db, c).1 == {}
    ensures db.HasOrder(c.receipt.order)
    ensures var later := Run(db, c.env.beforeWrite);
      var s := Step(SettleReceipt(c.receipt), c.now);
      Confirms(later, s, c.receipt.order) && Confirm(db, c).0 == Apply(later, s)
  {
    var r, later := c.receipt, Run(db, c.env.beforeWrite);
    RunKeeps(db, c.env.beforeWrite);
    OutcomeBranch(db, c);
    TermsKeepRequest(db, later, r, RailOf(r.name).value, c.now);
    var q := RequestOf(later.Ord(r.order), r, c.now).value;
    ConflictIsNoOutcome(later, r, RailOf(r.name).value, q, c.now, c.env);
    AcceptedStep(later, r, q, c.now);
  }

  /** The ledger after a sequence of calls. */
  function After(db: DB, calls: seq<Call>): DB {
    if |calls| == 0 then db else Confirm(After(db, calls[..|calls| - 1]), calls[|calls| - 1]).0
  }

  /** How many of them reported an outcome for the order. */
  function Reported(db: DB, calls: seq<Call>, id: int): nat {
    if |calls| == 0 then 0
    else
      var c := calls[|calls| - 1];
      Reported(db, calls[..|calls| - 1], id)
      + if c.receipt.order == id && Confirm(After(db, calls[..|calls| - 1]), c).1 == {} then 1 else 0
  }

  /** Every transaction of the calls and of the writers they met, in order. */
  function Transactions(db: DB, calls: seq<Call>): seq<Step> {
    if |calls| == 0 then []
    else
      var c := calls[|calls| - 1];
      Transactions(db, calls[..|calls| - 1]) + Trace(After(db, calls[..|calls| - 1]), c.receipt, c.now, c.env)
  }

  lemma {:induction false} CallsAreRun(db: DB, calls: seq<Call>)
    requires Inv(db)
    ensures After(db, calls) == Run(db, Transactions(db, calls)) && Inv(After(db, calls))
  {
    if |calls| > 0 {
      var front, c := calls[..|calls| - 1], calls[|calls| - 1];
      CallsAreRun(db, front);
      ConfirmationIsRun(After(db, front), c.receipt, c.now, c.env);
      RunAppend(db, Transactions(db, front), Trace(After(db, front), c.receipt, c.now, c.env));
      RunKeeps(db, Transactions(db, calls));
    }
  }

  lemma {:induction false} ConfirmationsAppend(db: DB, a: seq<Step>, b: seq<Step>, id: int)
    ensures Confirmations(db, a + b, id) == Confirmations(db, a, id) + Confirmations(Run(db, a), b, id)
  {
    if |b| == 0 {
      assert a + b == a;
    } else {
      assert (a + b)[..|a + b| - 1] == a + b[..|b| - 1];
      RunAppend(db, a, b[..|b| - 1]);
      ConfirmationsAppend(db, a, b[..|b| - 1], id);
    }
  }

  lemma OutcomeTrace(db: DB, c: Call)
    requires Inv(db) && Confirm(db, c).1 == {}
    ensures Trace(db, c.receipt, c.now, c.env) == c.env.beforeWrite + [Step(SettleReceipt(c.receipt), c.now)]
  {
    OutcomeIsSettlement(db, c);
  }

  /** A call with an outcome holds a confirming settlement. */
  lemma OutcomeCounts(db: DB, c: Call)
    requires Inv(db) && Confirm(db, c).1 == {}
    ensures Confirmations(db, Trace(db, c.receipt, c.now, c.env), c.receipt.order) >= 1
  {
    var last := [Step(SettleReceipt(c.receipt), c.now)];
    OutcomeIsSettlement(db, c);
    OutcomeTrace(db, c);
    ConfirmationsAppend(db, c.env.beforeWrite, last, c.receipt.order);
    assert Confirmations(Run(db, c.env.beforeWrite), last, c.receipt.order) == 1 by {
      assert last[..0] == [];
    }
  }

  lemma {:induction false} ReportedAreConfirmed(db: DB, calls: seq<Call>, id: int)
    requires Inv(db)
    ensures Reported(db, calls, id) <= Confirmations(db, Transactions(db, calls), id)
  {
    if |calls| > 0 {
      var front, c := calls[..|calls| - 1], calls[|calls| - 1];
      ReportedAreConfirmed(db, front, id);
      CallsAreRun(db, front);
      ConfirmationsAppend(db, Transactions(db, front), Trace(After(db, front), c.receipt, c.now, c.env), id);
      if c.receipt.order == id && Confirm(After(db, front), c).1 == {} { OutcomeCounts(After(db, front), c); }
    }
  }

  /** Single settlement at the shop: however receipts are redelivered and whatever other
      writers do in between, their own confirmations included, an order without a
      subscription yields at most one outcome. */
  lemma OneOutcomePerOrder(stock: map<int, int>, promos: map<string, int>, past: seq<Step>, calls: seq<Call>, id: int)
    requires var db := After(Run(Genesis(stock, promos), past), calls); db.HasOrder(id) ==> db.Ord(id).subProduct <= 0
    ensures var db := Run(Genesis(stock, promos), past);
      && Reported(db, calls, id) <= Confirmations(db, Transactions(db, calls), id)
      && Confirmations(Genesis(stock, promos), past, id) + Confirmations(db, Transactions(db, calls), id) <= 1
  {
    var start, db := Genesis(stock, promos), Run(Genesis(stock, promos), past);
    GenesisInv(stock, promos);
    RunKeeps(start, past);
    ReportedAreConfirmed(db, calls, id);
    CallsAreRun(db, calls);
    RunAppend(start, past, Transactions(db, calls));
    ConfirmationsAppend(start, past, Transactions(db, calls), id);
    AtMostOneOutcome(stock, promos, past + Transactions(db, calls), id);
  }
}
