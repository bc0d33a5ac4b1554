/**
 worker/polling.go: the CryptoBot poll. A bounded window slides over a list that grows
 at its head while it is read; a continuation offset, a head identity and a boundary
 identity decide what is processed. Nothing between the two identities is ever skipped.
 */
module Polling {
  import opened Wrappers
  import opened Ledger
  import opened Anomalies
  import opened Invoices
  import opened Invariant
  import opened Effects
  import opened History
  import opened Runs
  import opened Confirmation

  const INVALID_INVOICE: Reason := OtherReason("polling_invalid_paid_invoice")

  /** What happens around one invoice: other writers, the clock, and interleavings. */
  datatype Turn = Turn(before: seq<Step>, now: int, env: Interleaving)

  /** One iteration of processPaidInvoices past the `seen` check: the ledger afterwards and
      whether the invoice is durably handled. */
  function HandleInvoice(db: DB, inv: Invoice, t: Turn): (DB, bool) {
    if !inv.paid then (db, true)
    else match ReceiptOf(inv)
      case Some(r) => HandleReceipt(Run(db, t.before), r, t.now, t.env)
      case None =>
        match InvoiceAnomaly(inv, INVALID_INVOICE)
        case None => (db, false)
        case Some(a) =>
          var (db', errs) := RecordAnomaly(Run(db, t.before), a, t.now);
          (db', errs == {} || PaymentNeedsReview in errs)
  }

  datatype Pass = Pass(db: DB, seen: set<string>, durable: bool)

  function Visit(p: Pass, inv: Invoice, t: Turn): Pass {
    if inv.id != "" && inv.id in p.seen then p
    else
      var (db', ok) := HandleInvoice(p.db, inv, t);
      Pass(db', if inv.id != "" then p.seen + {inv.id} else p.seen, p.durable && ok)
  }

  /** processPaidInvoices. */
  function Process(p: Pass, invoices: seq<Invoice>, turns: nat -> Turn): Pass {
    if |invoices| == 0 then p
    else Visit(Process(p, invoices[..|invoices| - 1], turns), invoices[|invoices| - 1], turns(|invoices| - 1))
  }

  // ----- the cursor -----

  datatype Cursor = Cursor(next: int, head: string, boundary: string)

  /** What one poll hears from the provider: a refreshed head and a window. */
  datatype Exchange = Exchange(head: Read, tail: Read, headTurns: nat -> Turn, tailTurns: nat -> Turn)

  datatype Outcome = ScanAborted | ScanAdvanced | ScanCompleted

  predicate ValidWindow(start: int, r: Read) {
    r.Window? && (r.more ==> r.next > start && r.invoices != [])
  }

  function FindId(rows: seq<Invoice>, id: string): (r: int)
    ensures -1 <= r < |rows|
    ensures r >= 0 ==> rows[r].id == id && forall i :: 0 <= i < r ==> rows[i].id != id
    ensures r < 0 ==> forall i :: 0 <= i < |rows| ==> rows[i].id != id
  {
    if |rows| == 0 then -1
    else
      var r := FindId(rows[..|rows| - 1], id);
      if r >= 0 then r else if rows[|rows| - 1].id == id then |rows| - 1 else -1
  }

  /** invoicesBeforeIdentity. */
  function Before(rows: seq<Invoice>, id: string): seq<Invoice> {
    if id == "" || FindId(rows, id) < 0 then rows else rows[..FindId(rows, id)]
  }

  /** invoicesAfterIdentity. */
  function After(rows: seq<Invoice>, id: string): seq<Invoice> {
    if id == "" || FindId(rows, id) < 0 then rows else rows[FindId(rows, id) + 1..]
  }

  function ScanStart(c: Cursor): int {
    if c.next > 0 then c.next - 1 else c.next
  }

  /** The second half of poll: the window at the continuation. */
  function Scan(c: Cursor, p: Pass, x: Exchange): (Cursor, DB, Outcome) {
    if !ValidWindow(ScanStart(c), x.tail) then (c, p.db, ScanAborted)
    else
      var rows := x.tail.invoices;
      var c1 := if c.next <= 0 && rows != [] then c.(head := rows[0].id) else c;
      var q := Process(p.(durable := true), if c.next > 0 then After(rows, c.boundary) else rows, x.tailTurns);
      if !q.durable then (c1, q.db, ScanAborted)
      else if !x.tail.more then (c1.(next := 0, boundary := ""), q.db, ScanCompleted)
      else if x.tail.next <= c.next then (c1, q.db, ScanAborted)
      else (c1.(next := x.tail.next, boundary := rows[|rows| - 1].id), q.db, ScanAdvanced)
  }

  /** What the head refresh processes. */
  function HeadDelta(c: Cursor, head: Read): seq<Invoice>
    requires head.Window?
  {
    if head.more then Before(head.invoices, c.head) else head.invoices
  }

  /** One poll. */
  function PollOnce(c: Cursor, db: DB, x: Exchange): (Cursor, DB, Outcome) {
    if c.next <= 0 then Scan(c, Pass(db, {}, true), x)
    else if !ValidWindow(0, x.head) then (c, db, ScanAborted)
    else
      var p := Process(Pass(db, {}, true), HeadDelta(c, x.head), x.headTurns);
      if !p.durable then (c, p.db, ScanAborted)
      else
        var c1 := if x.head.invoices != [] then c.(head := x.head.invoices[0].id) else c;
        if !x.head.more then (c1.(next := 0, boundary := ""), p.db, ScanCompleted)
        else Scan(c1, p, x)
  }

  // ----- the worker -----

  /** CryptoBotPollingWorker, with the ledger its order service writes to. */
  class PollingWorker {
    var nextPaid: int
    var paidHeadID: string
    var paidBoundaryID: string
    var ledger: DB

    constructor (db: DB)
      ensures Position() == Cursor(0, "", "") && ledger == db
    {
      nextPaid, paidHeadID, paidBoundaryID, ledger := 0, "", "", db;
    }

    function Position(): Cursor
      reads this
    {
      Cursor(nextPaid, paidHeadID, paidBoundaryID)
    }

    method ProcessPaidInvoices(invoices: seq<Invoice>, alreadySeen: set<string>, turns: nat -> Turn)
      returns (windowDurable: bool, seen: set<string>)
      modifies this`ledger
      ensures Pass(ledger, seen, windowDurable) == Process(Pass(old(ledger), alreadySeen, true), invoices, turns)
    {
      windowDurable, seen := true, alreadySeen;
      for i := 0 to |invoices|
        invariant Pass(ledger, seen, windowDurable) == Process(Pass(old(ledger), alreadySeen, true), invoices[..i], turns)
      {
        assert invoices[..i + 1][..i] == invoices[..i];
        var inv := invoices[i];
        if inv.id != "" {
          if inv.id in seen {
            continue;
          }
          seen := seen + {inv.id};
        }
        var (db', ok) := HandleInvoice(ledger, inv, turns(i));
        ledger := db';
        if !ok {
          windowDurable := false;
        }
      }
      assert invoices[..|invoices|] == invoices;
    }

    method Poll(x: Exchange) returns (outcome: Outcome)
      modifies this
      ensures (Position(), ledger, outcome) == PollOnce(old(Position()), old(ledger), x)
    {
      var seen: set<string> := {};
      var durable: bool;
      if nextPaid > 0 {
        if !ValidWindow(0, x.head) {
          return ScanAborted;
        }
        var headDelta := Before(x.head.invoices, paidHeadID);
        if !x.head.more {
          headDelta := x.head.invoices;
        }
        durable, seen := ProcessPaidInvoices(headDelta, seen, x.headTurns);
        if !durable {
          return ScanAborted;
        }
        if |x.head.invoices| > 0 {
          paidHeadID := x.head.invoices[0].id;
        }
        if !x.head.more {
          nextPaid := 0;
          paidBoundaryID := "";
          return ScanCompleted;
        }
      }
      var startFrom := nextPaid;
      if startFrom > 0 {
        startFrom := startFrom - 1;
      }
      if !ValidWindow(startFrom, x.tail) {
        return ScanAborted;
      }
      var toProcess := x.tail.invoices;
      if nextPaid > 0 {
        toProcess := After(x.tail.invoices, paidBoundaryID);
      } else if |x.tail.invoices| > 0 {
        paidHeadID := x.tail.invoices[0].id;
      }
      durable, seen := ProcessPaidInvoices(toProcess, seen, x.tailTurns);
      if !durable {
        return ScanAborted;
      }
      if x.tail.more {
        if x.tail.next <= nextPaid {
          return ScanAborted;
        }
        nextPaid := x.tail.next;
        paidBoundaryID := x.tail.invoices[|x.tail.invoices| - 1].id;
        return ScanAdvanced;
      }
      nextPaid := 0;
      paidBoundaryID := "";
      return ScanCompleted;
    }
  }

  // ----- a durable pass records every invoice -----

  /** A paid invoice is in the ledger. */
  ghost predicate Handled(db: DB, inv: Invoice) {
    inv.paid ==> Recorded(db, Crypto, inv.id)
  }

  /** Invoice ids are present and unique, as int64 provider ids are. */
  ghost predicate Listed(log: seq<Invoice>) {
    (forall i :: 0 <= i < |log| ==> log[i].id != "") && (forall i, j :: 0 <= i < j < |log| ==> log[i].id != log[j].id)
  }

  lemma InvoiceHandled(db: DB, inv: Invoice, t: Turn)
    requires Inv(db)
    ensures var (db', ok) := HandleInvoice(db, inv, t);
      Inv(db') && Extends(db, db') && (ok ==> Handled(db', inv))
  {
    if inv.paid {
      var before := Run(db, t.before);
      RunKeeps(db, t.before);
      if ReceiptOf(inv).Some? {
        ReceiptHandled(db, before, inv, t);
      } else {
        AnomalyHandled(db, before, inv, t);
      }
    }
  }

  lemma ReceiptHandled(db: DB, before: DB, inv: Invoice, t: Turn)
    requires Inv(before) && Extends(db, before) && ReceiptOf(inv).Some?
    ensures var db' := HandleReceipt(before, ReceiptOf(inv).value, t.now, t.env).0;
      Inv(db') && Extends(db, db') && Recorded(db', Crypto, inv.id)
  {
    var r := ReceiptOf(inv).value;
    InvoiceReceiptStatesFact(inv);
    HandleKeeps(before, r, t.now, t.env);
    HandledIsRecorded(before, r, t.now, t.env);
    ExtendsTransitive(db, before, HandleReceipt(before, r, t.now, t.env).0);
  }

  lemma AnomalyHandled(db: DB, before: DB, inv: Invoice, t: Turn)
    requires Inv(before) && Extends(db, before)
    ensures InvoiceAnomaly(inv, INVALID_INVOICE).Some?
    ensures var (db', errs) := RecordAnomaly(before, InvoiceAnomaly(inv, INVALID_INVOICE).value, t.now);
      Inv(db') && Extends(db, db') && (errs == {} || PaymentNeedsReview in errs ==> Recorded(db', Crypto, inv.id))
  {
    assert !IsSpace(INVALID_INVOICE.text[0]);
    var a := InvoiceAnomaly(inv, INVALID_INVOICE).value;
    RecordAnomalyInv(before, a, t.now);
    RecordAnomalyExtends(before, a, t.now);
    ExtendsTransitive(db, before, RecordAnomaly(before, a, t.now).0);
    if Acceptable(a) { AnomalyRecords(before, a, t.now); }
  }

  /** Every id seen so far belongs to a handled invoice. */
  ghost predicate SeenHandled(db: DB, log: seq<Invoice>, seen: set<string>) {
    forall i :: 0 <= i < |log| && log[i].id in seen ==> Handled(db, log[i])
  }

  lemma SeenStays(db: DB, db': DB, log: seq<Invoice>, seen: set<string>)
    requires SeenHandled(db, log, seen) && Extends(db, db')
    ensures SeenHandled(db', log, seen)
  {
  }

  lemma VisitShape(p: Pass, inv: Invoice, t: Turn)
    requires inv.id != ""
    ensures var p' := Visit(p, inv, t);
      && p'.seen == p.seen + {inv.id}
      && if inv.id in p.seen then p' == p
         else p'.db == HandleInvoice(p.db, inv, t).0 && p'.durable == (p.durable && HandleInvoice(p.db, inv, t).1)
  {
  }

  lemma VisitHandles(log: seq<Invoice>, p: Pass, k: nat, t: Turn)
    requires Inv(p.db) && Listed(log) && k < |log| && (p.durable ==> SeenHandled(p.db, log, p.seen))
    ensures var p' := Visit(p, log[k], t);
      && Inv(p'.db) && Extends(p.db, p'.db) && p'.seen == p.seen + {log[k].id}
      && (p'.durable ==> p.durable && SeenHandled(p'.db, log, p'.seen))
  {
    VisitShape(p, log[k], t);
    InvoiceHandled(p.db, log[k], t);
    var p' := Visit(p, log[k], t);
    if p'.durable && log[k].id !in p.seen { SeenStays(p.db, p'.db, log, p.seen); }
  }

  ghost predicate From(log: seq<Invoice>, rows: seq<Invoice>) {
    forall j :: 0 <= j < |rows| ==> rows[j] in log
  }

  predicate IdsIn(rows: seq<Invoice>, seen: set<string>) {
    forall j :: 0 <= j < |rows| ==> rows[j].id in seen
  }

  ghost predicate Passed(log: seq<Invoice>, p: Pass, rows: seq<Invoice>, q: Pass) {
    && Inv(q.db) && Extends(p.db, q.db)
    && (q.durable ==> SeenHandled(q.db, log, q.seen) && IdsIn(rows, q.seen))
  }

  lemma PassedOneMore(log: seq<Invoice>, p: Pass, rows: seq<Invoice>, q: Pass, k: nat, t: Turn)
    requires Listed(log) && k < |log| && Passed(log, p, rows, q)
    ensures Passed(log, p, rows + [log[k]], Visit(q, log[k], t))
  {
    VisitHandles(log, q, k, t);
    ExtendsTransitive(p.db, q.db, Visit(q, log[k], t).db);
  }

  /** A durable pass leaves every invoice it was given in the ledger. */
  lemma {:induction false} ProcessHandles(log: seq<Invoice>, p: Pass, rows: seq<Invoice>, turns: nat -> Turn)
    requires Inv(p.db) && Listed(log) && From(log, rows) && p.durable && SeenHandled(p.db, log, p.seen)
    ensures Passed(log, p, rows, Process(p, rows, turns))
  {
    if |rows| > 0 {
      var front, last := rows[..|rows| - 1], rows[|rows| - 1];
      assert rows == front + [last];
      assert From(log, front);
      ProcessHandles(log, p, front, turns);
      assert last in log;
      var k: nat :| k < |log| && log[k] == last;
      PassedOneMore(log, p, front, Process(p, front, turns), k, turns(|front|));
    }
  }

  // ----- positions: where the rows of a window stand in the log -----

  /** Between the top of a window and any of its rows, every position was passed. */
  lemma {:induction false} Passes(log: seq<Invoice>, top: int, rows: seq<Invoice>, at: seq<int>, j: nat, q: int) returns (i: nat)
    requires Sighting(log, top, rows, at) && j < |at| && at[j] <= q <= top
    ensures i <= j && at[i] == q && rows[i] == log[q]
  {
    if at[j] == q {
      i := j;
    } else {
      i := Passes(log, top, rows, at, j - 1, q);
    }
  }

  /** A position the window reaches is among its rows. */
  lemma WindowCovers(log: seq<Invoice>, top: int, rows: seq<Invoice>, last: int, q: int)
    requires Sees(log, top, rows, last) && last <= q <= top
    ensures 0 <= q < |log| && log[q] in rows
  {
    var at: seq<int> :| Sighting(log, top, rows, at) && (if |at| == 0 then last > top else last == at[|at| - 1]);
    var i := Passes(log, top, rows, at, |at| - 1, q);
  }

  /** Everything newer than the old head is in front of it, or the whole window is taken. */
  lemma BeforeCovers(log: seq<Invoice>, top: int, rows: seq<Invoice>, last: int, h: nat, q: int)
    requires Listed(log) && Sees(log, top, rows, last) && h < |log| && h < q <= top
    requires last <= h + 1 || log[h] in rows
    ensures 0 <= q < |log| && log[q] in Before(rows, log[h].id)
  {
    var at: seq<int> :| Sighting(log, top, rows, at) && (if |at| == 0 then last > top else last == at[|at| - 1]);
    var k := FindId(rows, log[h].id);
    if k < 0 {
      WindowCovers(log, top, rows, last, q);
    } else {
      assert at[k] == h;
      var i := Passes(log, top, rows, at, k, q);
      assert rows[..k][i] == log[q];
    }
  }

  /** Everything older than the boundary is behind it, or the whole window is taken. */
  lemma AfterCovers(log: seq<Invoice>, top: int, rows: seq<Invoice>, last: int, b: nat, q: int)
    requires Listed(log) && Sees(log, top, rows, last) && b < |log| && last <= q < b <= top
    ensures 0 <= q < |log| && log[q] in After(rows, log[b].id)
  {
    var at: seq<int> :| Sighting(log, top, rows, at) && (if |at| == 0 then last > top else last == at[|at| - 1]);
    var i := Passes(log, top, rows, at, |at| - 1, q);
    var k := FindId(rows, log[b].id);
    if k >= 0 {
      assert at[k] == b;
      if i < k {
        var above := Passes(log, top, rows, at, i, b);
        assert false;
      }
      assert rows[k + 1..][i - k - 1] == log[q];
    }
  }

  // ----- what every poll keeps -----

  function PositionOf(log: seq<Invoice>, id: string): int {
    FindId(log, id)
  }

  lemma PositionIs(log: seq<Invoice>, k: nat)
    requires Listed(log) && k < |log|
    ensures PositionOf(log, log[k].id) == k
  {
  }

  /** Every invoice from position lo through hi is in the ledger. */
  ghost predicate Scanned(db: DB, log: seq<Invoice>, lo: int, hi: int) {
    forall q :: 0 <= q < |log| && lo <= q <= hi ==> Handled(db, log[q])
  }

  /** With a scan under way, everything from the boundary through the head is in the ledger,
      and the continuation has not run past the boundary. */
  ghost predicate Contiguous(c: Cursor, db: DB, log: seq<Invoice>, n: nat) {
    c.next > 0 ==>
      && 0 <= PositionOf(log, c.head) < n && 0 <= PositionOf(log, c.boundary) < n
      && PositionOf(log, c.boundary) + c.next <= n
      && Scanned(db, log, PositionOf(log, c.boundary), PositionOf(log, c.head))
  }

  /** The sizes of the list as the two requests of a poll meet it. */
  datatype Sizes = Sizes(n1: nat, n1': nat, n2: nat, n2': nat)

  ghost predicate Hears(log: seq<Invoice>, c: Cursor, x: Exchange, n: nat, z: Sizes) {
    && n <= z.n1 <= z.n1' <= z.n2 <= z.n2' <= |log|
    && (c.next > 0 ==> Reads(log, z.n1, z.n1', 0, x.head))
    && (ScanStart(c) >= 0 ==> Reads(log, z.n2, z.n2', ScanStart(c), x.tail))
  }

  /** At most one window of insertions since the head was last refreshed. */
  predicate Timely(log: seq<Invoice>, c: Cursor, z: Sizes) {
    c.next > 0 ==> z.n1' - 1 - PositionOf(log, c.head) <= WINDOW
  }

  lemma ScannedStays(db: DB, db': DB, log: seq<Invoice>, lo: int, hi: int)
    requires Scanned(db, log, lo, hi) && Extends(db, db')
    ensures Scanned(db', log, lo, hi)
  {
  }

  /** Rows a durable pass was given are handled. */
  lemma PassCovers(log: seq<Invoice>, q: Pass, rows: seq<Invoice>, k: int)
    requires SeenHandled(q.db, log, q.seen) && IdsIn(rows, q.seen)
    requires 0 <= k < |log| && log[k] in rows
    ensures Handled(q.db, log[k])
  {
  }

  /** The last row of an incomplete window, where it stands. */
  lemma LastRow(log: seq<Invoice>, n: nat, n': nat, start: nat, r: Read) returns (last: nat)
    requires Listed(log) && Reads(log, n, n', start, r) && r.Window? && r.more
    ensures Sees(log, n - 1 - start, r.invoices, last) && ReachesFor(r.invoices, r.next, true, start, n, n', last)
    ensures last < |log| && r.invoices[|r.invoices| - 1] == log[last] && PositionOf(log, log[last].id) == last
  {
    var end: int :| Sees(log, n - 1 - start, r.invoices, end) && ReachesFor(r.invoices, r.next, true, start, n, n', end);
    var at: seq<int> :| Sighting(log, n - 1 - start, r.invoices, at) && (if |at| == 0 then end > n - 1 - start else end == at[|at| - 1]);
    last := end;
    PositionIs(log, last);
  }

  /** A complete window reaches every older position. */
  lemma CompleteCovers(log: seq<Invoice>, n: nat, n': nat, start: nat, r: Read, q: nat)
    requires Reads(log, n, n', start, r) && r.Window? && !r.more && q <= n - 1 - start
    ensures q < |log| && log[q] in r.invoices
  {
    var last: int :| Sees(log, n - 1 - start, r.invoices, last) && ReachesFor(r.invoices, r.next, false, start, n, n', last);
    WindowCovers(log, n - 1 - start, r.invoices, last, q);
  }

  lemma ReadFromLog(log: seq<Invoice>, n: nat, n': nat, start: nat, r: Read)
    requires Reads(log, n, n', start, r) && r.Window?
    ensures From(log, r.invoices)
  {
  }

  /** What the head refresh hands on: every position newer than the old head. */
  lemma DeltaCovers(log: seq<Invoice>, c: Cursor, head: Read, n1: nat, n1': nat, q: nat)
    requires Listed(log) && Reads(log, n1, n1', 0, head) && head.Window?
    requires 0 <= PositionOf(log, c.head) && n1' - 1 - PositionOf(log, c.head) <= WINDOW
    requires PositionOf(log, c.head) < q < n1
    ensures q < |log| && log[q] in HeadDelta(c, head)
  {
    if head.more {
      var last := LastRow(log, n1, n1', 0, head);
      BeforeCovers(log, n1 - 1, head.invoices, last, PositionOf(log, c.head), q);
    } else {
      CompleteCovers(log, n1, n1', 0, head, q);
    }
  }

  /** A durable head refresh joins the new head to the scanned range. */
  lemma RefreshScans(log: seq<Invoice>, c: Cursor, db: DB, head: Read, n: nat, n1: nat, n1': nat, p: Pass, turns: nat -> Turn)
    requires Inv(db) && Listed(log) && c.next > 0 && Contiguous(c, db, log, n) && n <= n1
    requires Reads(log, n1, n1', 0, head) && ValidWindow(0, head) && n1' - 1 - PositionOf(log, c.head) <= WINDOW
    requires p == Process(Pass(db, {}, true), HeadDelta(c, head), turns) && p.durable
    ensures Inv(p.db) && Extends(db, p.db) && SeenHandled(p.db, log, p.seen)
    ensures Scanned(p.db, log, if head.more then PositionOf(log, c.boundary) else 0, n1 - 1)
  {
    ReadFromLog(log, n1, n1', 0, head);
    DeltaFromLog(log, c, head);
    ProcessHandles(log, Pass(db, {}, true), HeadDelta(c, head), turns);
    ScannedStays(db, p.db, log, PositionOf(log, c.boundary), PositionOf(log, c.head));
    forall q | 0 <= q < |log| && (if head.more then PositionOf(log, c.boundary) else 0) <= q <= n1 - 1
      ensures Handled(p.db, log[q])
    {
      if !head.more {
        CompleteCovers(log, n1, n1', 0, head, q);
        PassCovers(log, p, HeadDelta(c, head), q);
      } else if q > PositionOf(log, c.head) {
        DeltaCovers(log, c, head, n1, n1', q);
        PassCovers(log, p, HeadDelta(c, head), q);
      }
    }
  }

  /** The rows a scan hands on. */
  function TailDelta(c: Cursor, tail: Read): seq<Invoice>
    requires tail.Window?
  {
    if c.next > 0 then After(tail.invoices, c.boundary) else tail.invoices
  }

  /** The window is read where the scanned range ends. */
  ghost predicate Meets(log: seq<Invoice>, c: Cursor, n2: nat) {
    if c.next > 0 then 0 <= PositionOf(log, c.boundary) && PositionOf(log, c.boundary) + c.next <= n2 else c.next == 0
  }

  /** The first position the scan may leave to others. */
  function Floor(log: seq<Invoice>, c: Cursor, n2: nat): int {
    if c.next > 0 then PositionOf(log, c.boundary) else n2
  }

  /** What the scan hands on: every position between the window's end and the boundary. */
  lemma TailCovers(log: seq<Invoice>, c: Cursor, tail: Read, n2: nat, n2': nat, last: int, q: nat)
    requires Listed(log) && Meets(log, c, n2) && tail.Window?
    requires Sees(log, n2 - 1 - ScanStart(c), tail.invoices, last) && last <= q < Floor(log, c, n2)
    ensures q < |log| && log[q] in TailDelta(c, tail)
  {
    if c.next > 0 {
      AfterCovers(log, n2 - 1 - ScanStart(c), tail.invoices, last, PositionOf(log, c.boundary), q);
    } else {
      WindowCovers(log, n2 - 1, tail.invoices, last, q);
    }
  }

  lemma DeltaFromLog(log: seq<Invoice>, c: Cursor, r: Read)
    requires r.Window? && From(log, r.invoices)
    ensures From(log, TailDelta(c, r)) && From(log, HeadDelta(c, r))
  {
  }

  ghost predicate Holds(log: seq<Invoice>, rows: seq<Invoice>, lo: int, hi: int) {
    forall k :: 0 <= k < |log| && lo <= k <= hi ==> log[k] in rows
  }

  lemma TailHolds(log: seq<Invoice>, c: Cursor, tail: Read, n2: nat, n2': nat, last: int)
    requires Listed(log) && Meets(log, c, n2) && tail.Window? && Sees(log, n2 - 1 - ScanStart(c), tail.invoices, last)
    ensures Holds(log, TailDelta(c, tail), last, Floor(log, c, n2) - 1)
  {
    forall k | 0 <= k < |log| && last <= k <= Floor(log, c, n2) - 1 ensures log[k] in TailDelta(c, tail) {
      TailCovers(log, c, tail, n2, n2', last, k);
    }
  }

  lemma RowsHandled(log: seq<Invoice>, q: Pass, rows: seq<Invoice>, lo: int, hi: int)
    requires SeenHandled(q.db, log, q.seen) && IdsIn(rows, q.seen) && Holds(log, rows, lo, hi)
    ensures Scanned(q.db, log, lo, hi)
  {
  }

  /** A durable scan handles everything from its end up to the boundary. */
  lemma ScanScans(log: seq<Invoice>, c: Cursor, p: Pass, tail: Read, n2: nat, n2': nat, last: int, q: Pass, turns: nat -> Turn)
    requires Inv(p.db) && Listed(log) && SeenHandled(p.db, log, p.seen) && Meets(log, c, n2)
    requires Reads(log, n2, n2', ScanStart(c), tail) && tail.Window?
    requires Sees(log, n2 - 1 - ScanStart(c), tail.invoices, last)
    requires q == Process(p.(durable := true), TailDelta(c, tail), turns) && q.durable
    ensures Inv(q.db) && Extends(p.db, q.db) && Scanned(q.db, log, last, Floor(log, c, n2) - 1)
  {
    ReadFromLog(log, n2, n2', ScanStart(c), tail);
    DeltaFromLog(log, c, tail);
    ProcessHandles(log, p.(durable := true), TailDelta(c, tail), turns);
    TailHolds(log, c, tail, n2, n2', last);
    RowsHandled(log, q, TailDelta(c, tail), last, Floor(log, c, n2) - 1);
  }

  // ----- one poll -----

  /** The continuation moved on to a boundary it has not passed. */
  ghost predicate Moved(log: seq<Invoice>, c: Cursor, c': Cursor, x: Exchange, n2': nat) {
    && c'.next > c.next && 0 <= PositionOf(log, c'.boundary) < n2' && PositionOf(log, c'.boundary) + c'.next <= n2'
    && x.tail.Window? && x.tail.invoices != []
    && c'.head == if c.next > 0 then c.head else x.tail.invoices[0].id
  }

  /** The pass a scan makes over its window. */
  function ScanPass(c: Cursor, p: Pass, x: Exchange): Pass
    requires x.tail.Window?
  {
    Process(p.(durable := true), TailDelta(c, x.tail), x.tailTurns)
  }

  lemma ScanShape(c: Cursor, p: Pass, x: Exchange)
    ensures var (c', db', outcome) := Scan(c, p, x);
      && (db' == p.db || (x.tail.Window? && db' == ScanPass(c, p, x).db))
      && (outcome == ScanAborted ==> c'.next == c.next && c'.boundary == c.boundary && (c.next > 0 ==> c' == c))
      && (outcome != ScanAborted ==> x.tail.Window? && db' == ScanPass(c, p, x).db && ScanPass(c, p, x).durable)
      && (outcome == ScanCompleted ==> !x.tail.more && c'.next == 0)
      && (outcome == ScanAdvanced ==> x.tail.more && x.tail.invoices != [] && c'.next == x.tail.next > c.next
                                      && c'.boundary == x.tail.invoices[|x.tail.invoices| - 1].id
                                      && c'.head == if c.next > 0 then c.head else x.tail.invoices[0].id)
  {
  }

  lemma ScanKeeps(log: seq<Invoice>, c: Cursor, p: Pass, x: Exchange, n2: nat, n2': nat)
    requires Inv(p.db) && Listed(log) && SeenHandled(p.db, log, p.seen) && ScanStart(c) >= 0
    requires Reads(log, n2, n2', ScanStart(c), x.tail)
    ensures Inv(Scan(c, p, x).1) && Extends(p.db, Scan(c, p, x).1)
  {
    ScanShape(c, p, x);
    if x.tail.Window? {
      ReadFromLog(log, n2, n2', ScanStart(c), x.tail);
      DeltaFromLog(log, c, x.tail);
      ProcessHandles(log, p.(durable := true), TailDelta(c, x.tail), x.tailTurns);
    }
  }

  /** A scan that advanced joined its window to what was scanned before. */
  lemma ScanAdvances(log: seq<Invoice>, c: Cursor, p: Pass, x: Exchange, n2: nat, n2': nat, h: int)
    requires Inv(p.db) && Listed(log) && SeenHandled(p.db, log, p.seen) && Meets(log, c, n2) && n2 <= n2' <= |log|
    requires Reads(log, n2, n2', ScanStart(c), x.tail) && Scan(c, p, x).2 == ScanAdvanced
    requires if c.next > 0 then Scanned(p.db, log, PositionOf(log, c.boundary), h) else h == n2 - 1
    ensures var (c', db', _) := Scan(c, p, x); Scanned(db', log, PositionOf(log, c'.boundary), h) && Moved(log, c, c', x, n2')
  {
    ScanShape(c, p, x);
    var last := LastRow(log, n2, n2', ScanStart(c), x.tail);
    ScanScans(log, c, p, x.tail, n2, n2', last, ScanPass(c, p, x), x.tailTurns);
    JoinScans(p.db, ScanPass(c, p, x).db, log, last, Floor(log, c, n2), h);
  }

  /** A scan that completed reached the oldest row. */
  lemma ScanCompletes(log: seq<Invoice>, c: Cursor, p: Pass, x: Exchange, n2: nat, n2': nat, h: int)
    requires Inv(p.db) && Listed(log) && SeenHandled(p.db, log, p.seen) && Meets(log, c, n2) && n2 <= n2' <= |log|
    requires Reads(log, n2, n2', ScanStart(c), x.tail) && Scan(c, p, x).2 == ScanCompleted
    requires if c.next > 0 then Scanned(p.db, log, PositionOf(log, c.boundary), h) else h == n2 - 1
    ensures Scanned(Scan(c, p, x).1, log, 0, h)
  {
    ScanShape(c, p, x);
    var last: int :| Sees(log, n2 - 1 - ScanStart(c), x.tail.invoices, last)
                     && ReachesFor(x.tail.invoices, x.tail.next, false, ScanStart(c), n2, n2', last);
    if x.tail.invoices != [] {
      ScanScans(log, c, p, x.tail, n2, n2', last, ScanPass(c, p, x), x.tailTurns);
      JoinScans(p.db, ScanPass(c, p, x).db, log, last, Floor(log, c, n2), h);
    } else {
      EmptyScan(log, c, n2, n2', x.tail);
    }
  }

  lemma EmptyScan(log: seq<Invoice>, c: Cursor, n2: nat, n2': nat, tail: Read)
    requires Listed(log) && Meets(log, c, n2) && tail.Window? && tail.invoices == [] && !tail.more
    requires Reads(log, n2, n2', ScanStart(c), tail)
    ensures c.next == 0 && n2 == 0
  {
  }

  /** What was scanned before stays scanned below it. */
  lemma JoinScans(db: DB, db': DB, log: seq<Invoice>, lo: int, mid: int, hi: int)
    requires Extends(db, db') && Scanned(db', log, lo, mid - 1) && (Scanned(db, log, mid, hi) || hi < mid)
    ensures Scanned(db', log, lo, hi)
  {
  }

  /** What a poll promises about the ledger and the cursor it leaves. */
  ghost predicate Kept(log: seq<Invoice>, db: DB, c': Cursor, db': DB, n': nat) {
    Inv(db') && Extends(db, db') && c'.next >= 0 && Contiguous(c', db', log, n')
  }

  lemma ContiguousStays(log: seq<Invoice>, c: Cursor, db: DB, db': DB, n: nat, n': nat)
    requires Contiguous(c, db, log, n) && Extends(db, db') && n <= n'
    ensures Contiguous(c, db', log, n')
  {
  }

  /** A poll that starts a scan. */
  lemma FreshPoll(log: seq<Invoice>, c: Cursor, db: DB, x: Exchange, z: Sizes)
    requires Inv(db) && Listed(log) && c.next == 0 && Hears(log, c, x, 0, z)
    ensures var (c', db', outcome) := Scan(c, Pass(db, {}, true), x);
      Kept(log, db, c', db', z.n2') && (outcome == ScanCompleted ==> Scanned(db', log, 0, z.n2 - 1))
  {
    var p := Pass(db, {}, true);
    ScanShape(c, p, x);
    ScanKeeps(log, c, p, x, z.n2, z.n2');
    var (c', db', outcome) := Scan(c, p, x);
    if outcome == ScanCompleted {
      ScanCompletes(log, c, p, x, z.n2, z.n2', z.n2 - 1);
    } else if outcome == ScanAdvanced {
      ScanAdvances(log, c, p, x, z.n2, z.n2', z.n2 - 1);
      HeadOfWindow(log, z.n2, z.n2', x.tail);
    }
  }

  lemma HeadOfWindow(log: seq<Invoice>, n: nat, n': nat, r: Read)
    requires Listed(log) && Reads(log, n, n', 0, r) && r.Window? && r.invoices != []
    ensures n > 0 && r.invoices[0] == log[n - 1] && PositionOf(log, r.invoices[0].id) == n - 1
  {
  }

  /** The second half of a poll that continues a scan, after a durable head refresh. */
  lemma ContinuedPoll(log: seq<Invoice>, c: Cursor, db: DB, p: Pass, x: Exchange, n1: nat, n2: nat, n2': nat)
    requires Inv(p.db) && Extends(db, p.db) && Listed(log) && SeenHandled(p.db, log, p.seen) && c.next > 0
    requires n1 <= n2 <= n2' <= |log| && Reads(log, n2, n2', ScanStart(c), x.tail) && Contiguous(c, p.db, log, n1)
    requires PositionOf(log, c.head) == n1 - 1
    ensures var (c', db', outcome) := Scan(c, p, x);
      Kept(log, db, c', db', n2') && (outcome == ScanCompleted ==> Scanned(db', log, 0, n1 - 1))
  {
    ScanShape(c, p, x);
    ScanKeeps(log, c, p, x, n2, n2');
    var (c', db', outcome) := Scan(c, p, x);
    ExtendsTransitive(db, p.db, db');
    if outcome == ScanCompleted {
      ScanCompletes(log, c, p, x, n2, n2', n1 - 1);
    } else if outcome == ScanAdvanced {
      ScanAdvances(log, c, p, x, n2, n2', n1 - 1);
    } else {
      ContiguousStays(log, c, p.db, db', n1, n2');
    }
  }

  /** The cursor after a durable head refresh. */
  lemma RefreshedCursor(log: seq<Invoice>, c: Cursor, db: DB, head: Read, n: nat, n1: nat, n1': nat)
    requires Listed(log) && c.next > 0 && Contiguous(c, db, log, n) && n <= n1 && Reads(log, n1, n1', 0, head) && ValidWindow(0, head)
    ensures head.invoices != [] && PositionOf(log, head.invoices[0].id) == n1 - 1
    ensures Scanned(db, log, PositionOf(log, c.boundary), n1 - 1) ==> Contiguous(c.(head := head.invoices[0].id), db, log, n1)
  {
  }

  /** The pass a head refresh makes. */
  function RefreshPass(c: Cursor, db: DB, x: Exchange): Pass
    requires x.head.Window?
  {
    Process(Pass(db, {}, true), HeadDelta(c, x.head), x.headTurns)
  }

  lemma RefreshShape(c: Cursor, db: DB, x: Exchange)
    requires c.next > 0 && ValidWindow(0, x.head) && x.head.invoices != []
    ensures var p := RefreshPass(c, db, x);
      var c1 := c.(head := x.head.invoices[0].id);
      PollOnce(c, db, x) == if !p.durable then (c, p.db, ScanAborted)
                            else if !x.head.more then (c1.(next := 0, boundary := ""), p.db, ScanCompleted)
                            else Scan(c1, p, x)
  {
  }

  lemma RefreshKeeps(log: seq<Invoice>, c: Cursor, db: DB, x: Exchange, n1: nat, n1': nat)
    requires Inv(db) && Listed(log) && Reads(log, n1, n1', 0, x.head) && x.head.Window?
    ensures Inv(RefreshPass(c, db, x).db) && Extends(db, RefreshPass(c, db, x).db)
  {
    ReadFromLog(log, n1, n1', 0, x.head);
    DeltaFromLog(log, c, x.head);
    ProcessHandles(log, Pass(db, {}, true), HeadDelta(c, x.head), x.headTurns);
  }

  lemma DurableRefresh(log: seq<Invoice>, c: Cursor, db: DB, x: Exchange, n: nat, z: Sizes)
    requires Inv(db) && Listed(log) && c.next > 0 && Contiguous(c, db, log, n)
    requires x.head.Window? && x.head.invoices != []
    requires Hears(log, c, x, n, z) && Timely(log, c, z) && ValidWindow(0, x.head) && RefreshPass(c, db, x).durable
    ensures var (c', db', outcome) := PollOnce(c, db, x);
      Kept(log, db, c', db', z.n2') && (outcome == ScanCompleted ==> Scanned(db', log, 0, z.n1 - 1))
  {
    var p := RefreshPass(c, db, x);
    RefreshShape(c, db, x);
    RefreshScans(log, c, db, x.head, n, z.n1, z.n1', p, x.headTurns);
    if x.head.more {
      ContiguousStays(log, c, db, p.db, n, z.n1);
      RefreshedCursor(log, c, p.db, x.head, n, z.n1, z.n1');
      ContinuedPoll(log, c.(head := x.head.invoices[0].id), db, p, x, z.n1, z.n2, z.n2');
    }
  }

  lemma RefreshedPoll(log: seq<Invoice>, c: Cursor, db: DB, x: Exchange, n: nat, z: Sizes)
    requires Inv(db) && Listed(log) && c.next > 0 && Contiguous(c, db, log, n)
    requires Hears(log, c, x, n, z) && Timely(log, c, z) && ValidWindow(0, x.head)
    ensures var (c', db', outcome) := PollOnce(c, db, x);
      Kept(log, db, c', db', z.n2') && (outcome == ScanCompleted ==> Scanned(db', log, 0, z.n1 - 1))
  {
    RefreshedCursor(log, c, db, x.head, n, z.n1, z.n1');
    if RefreshPass(c, db, x).durable {
      DurableRefresh(log, c, db, x, n, z);
    } else {
      RefreshShape(c, db, x);
      RefreshKeeps(log, c, db, x, z.n1, z.n1');
      ContiguousStays(log, c, db, RefreshPass(c, db, x).db, n, z.n2');
    }
  }

  /** Polling never skips. With at most one window of insertions between head refreshes,
      every poll leaves everything from the boundary through the head in the ledger; a
      completed scan leaves everything there that existed at the last head refresh. */
  lemma PollNeverSkips(log: seq<Invoice>, c: Cursor, db: DB, x: Exchange, n: nat, z: Sizes)
    requires Inv(db) && Listed(log) && c.next >= 0 && Contiguous(c, db, log, n)
    requires Hears(log, c, x, n, z) && Timely(log, c, z)
    ensures var (c', db', outcome) := PollOnce(c, db, x);
      && Kept(log, db, c', db', z.n2')
      && (outcome == ScanCompleted ==> Scanned(db', log, 0, (if c.next > 0 then z.n1 else z.n2) - 1))
  {
    if c.next == 0 {
      FreshPoll(log, c, db, x, z);
    } else if !ValidWindow(0, x.head) {
      ContiguousStays(log, c, db, db, n, z.n2');
    } else {
      RefreshedPoll(log, c, db, x, n, z);
    }
  }

  // ----- whole runs -----

  datatype Poll = Poll(x: Exchange, z: Sizes)

  /** The cursor and the ledger after a run of polls. */
  function PollAll(c: Cursor, db: DB, polls: seq<Poll>): (Cursor, DB)
    decreases |polls|
  {
    if |polls| == 0 then (c, db)
    else
      var (c', db', _) := PollOnce(c, db, polls[0].x);
      PollAll(c', db', polls[1..])
  }

  /** Every poll hears the same growing list, in time. */
  ghost predicate WellTimed(log: seq<Invoice>, c: Cursor, db: DB, n: nat, polls: seq<Poll>)
    decreases |polls|
  {
    |polls| == 0
    || (Hears(log, c, polls[0].x, n, polls[0].z) && Timely(log, c, polls[0].z)
        && WellTimed(log, PollOnce(c, db, polls[0].x).0, PollOnce(c, db, polls[0].x).1, polls[0].z.n2', polls[1..]))
  }

  /** How the last poll of a run ended, and how many rows its last head refresh met. */
  function LastPoll(c: Cursor, db: DB, polls: seq<Poll>): (Outcome, nat)
    requires |polls| > 0
    decreases |polls|
  {
    var (c', db', outcome) := PollOnce(c, db, polls[0].x);
    if |polls| == 1 then (outcome, if c.next > 0 then polls[0].z.n1 else polls[0].z.n2)
    else LastPoll(c', db', polls[1..])
  }

  lemma {:induction false} RunsNeverSkip(log: seq<Invoice>, c: Cursor, db: DB, n: nat, polls: seq<Poll>)
    requires Inv(db) && Listed(log) && c.next >= 0 && n <= |log| && Contiguous(c, db, log, n)
    requires WellTimed(log, c, db, n, polls)
    ensures var (c', db') := PollAll(c, db, polls); Extends(db, db') && Contiguous(c', db', log, |log|)
    ensures |polls| > 0 && LastPoll(c, db, polls).0 == ScanCompleted ==>
      Scanned(PollAll(c, db, polls).1, log, 0, LastPoll(c, db, polls).1 - 1)
    decreases |polls|
  {
    if |polls| == 0 {
      ContiguousStays(log, c, db, db, n, |log|);
    } else {
      var (c', db', _) := PollOnce(c, db, polls[0].x);
      PollNeverSkips(log, c, db, polls[0].x, n, polls[0].z);
      RunsNeverSkip(log, c', db', polls[0].z.n2', polls[1..]);
      ExtendsTransitive(db, db', PollAll(c, db, polls).1);
    }
  }

  /** From a fresh start and any reachable ledger, after any run of polls heard in time
      everything between the worker's boundary and its head is in the ledger; and if the
      last poll completed a scan, everything that existed at its head refresh is. */
  lemma FreshRunsNeverSkip(log: seq<Invoice>, db: DB, polls: seq<Poll>)
    requires Reachable(db) && Listed(log) && WellTimed(log, Cursor(0, "", ""), db, 0, polls)
    ensures var (c, db') := PollAll(Cursor(0, "", ""), db, polls);
      && (c.next > 0 ==> Scanned(db', log, PositionOf(log, c.boundary), PositionOf(log, c.head)))
      && (|polls| > 0 && LastPoll(Cursor(0, "", ""), db, polls).0 == ScanCompleted ==>
            Scanned(db', log, 0, LastPoll(Cursor(0, "", ""), db, polls).1 - 1))
  {
    ReachableInv(db);
    RunsNeverSkip(log, Cursor(0, "", ""), db, 0, polls);
  }

  // ----- how exact the conditions are -----

  lemma OnPage(log: seq<Invoice>, n: nat, start: nat, q: nat)
    requires Listed(log) && n <= |log| && q < |log|
    ensures log[q] in Page(log, n, start, WINDOW) <==> n - start - WINDOW <= q < n - start
  {
    var page := Page(log, n, start, WINDOW);
    if n - start - WINDOW <= q < n - start { assert page[n - 1 - start - q] == log[q]; }
    if log[q] in page {
      var i :| 0 <= i < |page| && page[i] == log[q];
      assert page[i] == log[n - 1 - (start + i)];
    }
  }

  /** The head refresh hands on every newer position if and only if at most one window of
      rows was inserted since the last one. */
  lemma HeadRefreshIsExact(log: seq<Invoice>, c: Cursor, n: nat)
    requires Listed(log) && n <= |log| && 0 <= PositionOf(log, c.head) < n
    ensures (forall q: nat :: PositionOf(log, c.head) < q < n ==> log[q] in HeadDelta(c, Slice(log, n, 0)))
       <==> n - 1 - PositionOf(log, c.head) <= WINDOW
  {
    var h := PositionOf(log, c.head);
    if n - 1 - h <= WINDOW {
      forall q: nat | h < q < n ensures log[q] in HeadDelta(c, Slice(log, n, 0)) { HeadRows(log, c, n, h, q); }
    } else {
      HeadRows(log, c, n, h, h + 1);
    }
  }

  /** Where an identity stands on a page, if it is there. */
  lemma FoundOnPage(log: seq<Invoice>, n: nat, start: nat, k: nat)
    requires Listed(log) && n <= |log| && k < |log|
    ensures var page := Page(log, n, start, WINDOW);
      FindId(page, log[k].id) == if n - start - WINDOW <= k < n - start then n - 1 - start - k else -1
  {
    var page := Page(log, n, start, WINDOW);
    OnPage(log, n, start, k);
    if n - start - WINDOW <= k < n - start { assert page[n - 1 - start - k] == log[k]; }
    var i := FindId(page, log[k].id);
    if i >= 0 { assert page[i] == log[n - 1 - start - i]; }
  }

  /** The positions a head refresh hands on. */
  lemma HeadRows(log: seq<Invoice>, c: Cursor, n: nat, h: nat, q: nat)
    requires Listed(log) && h < n <= |log| && q < |log| && c.head == log[h].id
    ensures log[q] in HeadDelta(c, Slice(log, n, 0)) <==> q < n && (n <= WINDOW || (q > h && q >= n - WINDOW))
  {
    var page := Page(log, n, 0, WINDOW);
    FoundOnPage(log, n, 0, h);
    OnPage(log, n, 0, q);
    if n > WINDOW && h >= n - WINDOW { PagePrefix(log, n, n - 1 - h, q); }
  }

  lemma PagePrefix(log: seq<Invoice>, n: nat, k: nat, q: nat)
    requires Listed(log) && n <= |log| && k < |Page(log, n, 0, WINDOW)| && q < |log|
    ensures log[q] in Page(log, n, 0, WINDOW)[..k] <==> n - 1 - k < q < n
  {
    var page := Page(log, n, 0, WINDOW);
    if n - 1 - k < q < n { assert page[..k][n - 1 - q] == log[q]; }
    if log[q] in page[..k] {
      var i :| 0 <= i < k && page[i] == log[q];
      assert page[i] == log[n - 1 - i];
    }
  }

  lemma PageSuffix(log: seq<Invoice>, n: nat, start: nat, k: nat, q: nat)
    requires Listed(log) && n <= |log| && k < |Page(log, n, start, WINDOW)| && q < |log|
    ensures log[q] in Page(log, n, start, WINDOW)[k + 1..] <==> n - start - WINDOW <= q < n - 1 - start - k
  {
    var page := Page(log, n, start, WINDOW);
    if n - start - WINDOW <= q < n - 1 - start - k { assert page[k + 1..][n - 1 - start - q - k - 1] == log[q]; }
    if log[q] in page[k + 1..] {
      var i :| k < i < |page| && page[i] == log[q];
      assert page[i] == log[n - 1 - start - i];
    }
  }

  /** The positions behind an identity on a page. */
  lemma RowsAfter(log: seq<Invoice>, n: nat, start: nat, b: nat, q: nat)
    requires Listed(log) && n <= |log| && b + start < n && q < |log|
    ensures log[q] in After(Page(log, n, start, WINDOW), log[b].id)
       <==> n - start - WINDOW <= q < n - start && (b >= n - start - WINDOW ==> q < b)
  {
    FoundOnPage(log, n, start, b);
    if b >= n - start - WINDOW { PageSuffix(log, n, start, n - 1 - start - b, q); }
    else { OnPage(log, n, start, q); }
  }

  /** The positions a scan hands on. */
  lemma TailRows(log: seq<Invoice>, c: Cursor, n: nat, b: nat, q: nat)
    requires Listed(log) && c.next > 0 && b + c.next <= n <= |log| && q < |log| && c.boundary == log[b].id
    ensures log[q] in TailDelta(c, Slice(log, n, c.next - 1))
       <==> (n - c.next - WINDOW < q <= n - c.next && (b > n - c.next - WINDOW ==> q < b))
  {
    RowsAfter(log, n, c.next - 1, b, q);
  }

  /** The poll hands the row on, or it was in the scanned range before. */
  predicate Covered(log: seq<Invoice>, c: Cursor, x: Exchange, q: nat)
    requires q < |log| && x.head.Window? && x.tail.Window?
  {
    || log[q] in HeadDelta(c, x.head)
    || (x.head.more && log[q] in TailDelta(c, x.tail))
    || PositionOf(log, c.boundary) <= q <= PositionOf(log, c.head)
  }

  /** Where a poll leaves its claim: from the new boundary, or the oldest row, to the head. */
  lemma ClaimOf(log: seq<Invoice>, c: Cursor, db: DB, x: Exchange, n1: nat, n2: nat)
    requires Listed(log) && c.next > 0 && 0 < n1 <= n2 <= |log|
    requires x.head == Slice(log, n1, 0) && x.tail == Slice(log, n2, c.next - 1)
    ensures var (c', _, outcome) := PollOnce(c, db, x);
      && (outcome == ScanAdvanced ==> n1 > WINDOW && n2 - c.next >= WINDOW && c'.next == c.next + WINDOW - 1)
      && (outcome == ScanAdvanced ==> PositionOf(log, c'.boundary) == n2 - c.next - WINDOW + 1 && PositionOf(log, c'.head) == n1 - 1)
      && (outcome == ScanCompleted ==> n1 <= WINDOW || n2 - c.next < WINDOW)
  {
    assert x.head.invoices[0] == log[n1 - 1];
    RefreshShape(c, db, x);
    ScanShape(c.(head := x.head.invoices[0].id), RefreshPass(c, db, x), x);
    if n2 - c.next >= WINDOW { BoundaryOf(log, n2, c.next - 1); }
  }

  lemma RowCovered(log: seq<Invoice>, c: Cursor, x: Exchange, n1: nat, n2: nat, h: nat, b: nat, q: nat)
    requires Listed(log) && c.next > 0 && n1 <= n2 <= |log| && h < n1 && b + c.next <= n1 && q < |log|
    requires c.head == log[h].id && c.boundary == log[b].id
    requires x.head == Slice(log, n1, 0) && x.tail == Slice(log, n2, c.next - 1)
    ensures Covered(log, c, x, q) <==>
      || (q < n1 && (n1 <= WINDOW || (q > h && q >= n1 - WINDOW)))
      || (n1 > WINDOW && n2 - c.next - WINDOW < q <= n2 - c.next && (b > n2 - c.next - WINDOW ==> q < b))
      || b <= q <= h
  {
    PositionIs(log, h);
    PositionIs(log, b);
    HeadRows(log, c, n1, h, q);
    TailRows(log, c, n2, b, q);
  }

  /** The tail window makes up for a late head refresh: it no longer reaches the boundary,
      so it is taken whole, and it starts no lower than the head window ended; or the head
      window itself reaches the boundary. */
  predicate MadeUp(n1: int, top: int, b: int) {
    if b < top - WINDOW + 1 then top >= n1 - 1 - WINDOW else n1 - 1 - WINDOW < b
  }

  /** On a list that stands still while it is read, a poll hands on or has scanned before
      every row of the range it then claims if and only if at most one window of rows was
      inserted since the head was last refreshed, or the tail window makes up for it. */
  lemma NothingSkippedExactly(log: seq<Invoice>, c: Cursor, db: DB, x: Exchange, n1: nat, n2: nat)
    requires Listed(log) && c.next > 0 && n1 <= n2 <= |log| && 0 <= PositionOf(log, c.head) < n1
    requires 0 <= PositionOf(log, c.boundary) <= n1 - c.next
    requires x.head == Slice(log, n1, 0) && x.tail == Slice(log, n2, c.next - 1) && PollOnce(c, db, x).2 != ScanAborted
    ensures var (c', _, outcome) := PollOnce(c, db, x);
      var low := if outcome == ScanAdvanced then PositionOf(log, c'.boundary) else 0;
      (forall q: nat :: low <= q < n1 ==> Covered(log, c, x, q))
        <==> n1 - 1 - PositionOf(log, c.head) <= WINDOW || MadeUp(n1, n2 - c.next, PositionOf(log, c.boundary))
  {
    var h, b := PositionOf(log, c.head), PositionOf(log, c.boundary);
    var (c', _, outcome) := PollOnce(c, db, x);
    var low := if outcome == ScanAdvanced then PositionOf(log, c'.boundary) else 0;
    ClaimOf(log, c, db, x, n1, n2);
    if n1 - 1 - h <= WINDOW || MadeUp(n1, n2 - c.next, b) {
      forall q: nat | low <= q < n1 ensures Covered(log, c, x, q) { RowCovered(log, c, x, n1, n2, h, b, q); }
    } else {
      RowCovered(log, c, x, n1, n2, h, b, n1 - 1 - WINDOW);
    }
  }

  lemma BoundaryOf(log: seq<Invoice>, n: nat, start: nat)
    requires Listed(log) && n <= |log| && n > start + WINDOW
    ensures var rows := Slice(log, n, start).invoices;
      |rows| == WINDOW && PositionOf(log, rows[|rows| - 1].id) == n - start - WINDOW
  {
  }

  /** Where the first poll of a scan leaves its claim. */
  lemma FirstClaim(log: seq<Invoice>, db: DB, x: Exchange, n: nat)
    requires Listed(log) && WINDOW < n <= |log| && x.tail == Slice(log, n, 0)
    requires PollOnce(Cursor(0, "", ""), db, x).2 == ScanAdvanced
    ensures var c := PollOnce(Cursor(0, "", ""), db, x).0;
      c.next == WINDOW && PositionOf(log, c.boundary) == n - WINDOW && PositionOf(log, c.head) == n - 1
  {
    ScanShape(Cursor(0, "", ""), Pass(db, {}, true), x);
    assert x.tail.invoices[0] == log[n - 1];
    BoundaryOf(log, n, 0);
  }

  /** Where a scan of two windows stands. */
  lemma TwoWindows(log: seq<Invoice>, db: DB, x1: Exchange, x2: Exchange)
    requires Listed(log) && |log| == 3 * WINDOW + 1 && x1.tail == Slice(log, 2 * WINDOW, 0)
    requires x2.head == Slice(log, 2 * WINDOW, 0) && x2.tail == Slice(log, 2 * WINDOW, WINDOW - 1)
    ensures var (c1, db1, o1) := PollOnce(Cursor(0, "", ""), db, x1);
      var (c2, db2, o2) := PollOnce(c1, db1, x2);
      o1 == o2 == ScanAdvanced ==> BetweenWindows(log, c2)
  {
    var (c1, db1, o1) := PollOnce(Cursor(0, "", ""), db, x1);
    if o1 == ScanAdvanced {
      FirstClaim(log, db, x1, 2 * WINDOW);
      ClaimOf(log, c1, db1, x2, 2 * WINDOW, 2 * WINDOW);
    }
  }

  predicate BetweenWindows(log: seq<Invoice>, c: Cursor) {
    c.next == 2 * WINDOW - 1 && PositionOf(log, c.head) == 2 * WINDOW - 1 && PositionOf(log, c.boundary) == 1
  }

  lemma ThirdSkips(log: seq<Invoice>, c: Cursor, db: DB, x: Exchange)
    requires Listed(log) && |log| == 3 * WINDOW + 1 && BetweenWindows(log, c)
    requires x.head == Slice(log, |log|, 0) && x.tail == Slice(log, |log|, 2 * WINDOW - 2)
    ensures !Covered(log, c, x, 2 * WINDOW)
    ensures PollOnce(c, db, x).2 == ScanAdvanced ==>
      PositionOf(log, PollOnce(c, db, x).0.boundary) < 2 * WINDOW < PositionOf(log, PollOnce(c, db, x).0.head)
  {
    ClaimOf(log, c, db, x, |log|, |log|);
    RowCovered(log, c, x, |log|, |log|, 2 * WINDOW - 1, 1, 2 * WINDOW);
  }

  /** A scan of two windows is under way; before the third poll a window and a row are
      inserted. The oldest of them is handed to no pass, and the cursor then stands on both
      sides of it. */
  lemma LateRefreshSkips(log: seq<Invoice>, db: DB, x1: Exchange, x2: Exchange, x3: Exchange)
    requires Listed(log) && |log| == 3 * WINDOW + 1
    requires x1.tail == Slice(log, 2 * WINDOW, 0)
    requires x2.head == Slice(log, 2 * WINDOW, 0) && x2.tail == Slice(log, 2 * WINDOW, WINDOW - 1)
    requires x3.head == Slice(log, |log|, 0) && x3.tail == Slice(log, |log|, 2 * WINDOW - 2)
    ensures var (c1, db1, o1) := PollOnce(Cursor(0, "", ""), db, x1);
      var (c2, db2, o2) := PollOnce(c1, db1, x2);
      var (c3, db3, o3) := PollOnce(c2, db2, x3);
      o1 == o2 == o3 == ScanAdvanced ==>
        !Covered(log, c2, x3, 2 * WINDOW) && PositionOf(log, c3.boundary) < 2 * WINDOW < PositionOf(log, c3.head)
  {
    TwoWindows(log, db, x1, x2);
    var (c1, db1, _) := PollOnce(Cursor(0, "", ""), db, x1);
    var (c2, db2, _) := PollOnce(c1, db1, x2);
    if BetweenWindows(log, c2) { ThirdSkips(log, c2, db2, x3); }
  }

  // ----- a list on which it happens -----

  predicate Unpaid(rows: seq<Invoice>) {
    forall j :: 0 <= j < |rows| ==> !rows[j].paid
  }

  /** Rows that are not paid for are passed over. */
  lemma {:induction false} QuietPass(p: Pass, rows: seq<Invoice>, turns: nat -> Turn)
    requires Unpaid(rows)
    ensures Process(p, rows, turns).db == p.db && Process(p, rows, turns).durable == p.durable
  {
    if |rows| > 0 { QuietPass(p, rows[..|rows| - 1], turns); }
  }

  lemma QuietScan(log: seq<Invoice>, c: Cursor, p: Pass, x: Exchange, n: nat)
    requires Listed(log) && c.next >= 0 && ScanStart(c) + WINDOW < n <= |log|
    requires x.tail == Slice(log, n, ScanStart(c)) && Unpaid(x.tail.invoices)
    ensures Scan(c, p, x).1 == p.db && Scan(c, p, x).2 == ScanAdvanced
  {
    QuietPass(p.(durable := true), TailDelta(c, x.tail), x.tailTurns);
  }

  lemma QuietPoll(log: seq<Invoice>, c: Cursor, db: DB, x: Exchange, n1: nat, n2: nat)
    requires Listed(log) && c.next > 0 && WINDOW < n1 <= n2 <= |log| && c.next - 1 + WINDOW < n2
    requires x.head == Slice(log, n1, 0) && x.tail == Slice(log, n2, c.next - 1)
    requires Unpaid(x.head.invoices) && Unpaid(x.tail.invoices)
    ensures PollOnce(c, db, x).1 == db && PollOnce(c, db, x).2 == ScanAdvanced
  {
    RefreshShape(c, db, x);
    QuietPass(Pass(db, {}, true), HeadDelta(c, x.head), x.headTurns);
    QuietScan(log, c.(head := x.head.invoices[0].id), RefreshPass(c, db, x), x, n2);
  }

  function Ones(n: nat): (s: string)
    ensures |s| == n
  {
    seq(n, i => '1')
  }

  /** One paid invoice among unpaid ones. */
  function Listing(): (log: seq<Invoice>)
    ensures |log| == 3 * WINDOW + 1 && Listed(log)
    ensures forall i :: 0 <= i < |log| ==> (log[i].paid <==> i == 2 * WINDOW)
  {
    var log := seq(3 * WINDOW + 1, (i: nat) => Invoice(Ones(i + 1), i == 2 * WINDOW, 1, "1", USDT, "1", "", Some(0)));
    assert forall i :: 0 <= i < |log| ==> |log[i].id| == i + 1;
    log
  }

  /** The second poll of a scan that meets nothing but unpaid rows. */
  lemma QuietTwice(log: seq<Invoice>, db: DB, x1: Exchange, x2: Exchange)
    requires Listed(log) && |log| == 3 * WINDOW + 1 && (forall i :: 0 <= i < 2 * WINDOW ==> !log[i].paid)
    requires x1.tail == Slice(log, 2 * WINDOW, 0)
    requires x2.head == Slice(log, 2 * WINDOW, 0) && x2.tail == Slice(log, 2 * WINDOW, WINDOW - 1)
    ensures var (c1, db1, o1) := PollOnce(Cursor(0, "", ""), db, x1);
      var (c2, db2, o2) := PollOnce(c1, db1, x2);
      o1 == o2 == ScanAdvanced && db2 == db && c2.next == 2 * WINDOW - 1
  {
    QuietScan(log, Cursor(0, "", ""), Pass(db, {}, true), x1, 2 * WINDOW);
    FirstClaim(log, db, x1, 2 * WINDOW);
    var (c1, db1, _) := PollOnce(Cursor(0, "", ""), db, x1);
    QuietPoll(log, c1, db1, x2, 2 * WINDOW, 2 * WINDOW);
    ClaimOf(log, c1, db1, x2, 2 * WINDOW, 2 * WINDOW);
  }

  /** The third poll skips the paid row. */
  lemma QuietlySkipped(log: seq<Invoice>, x1: Exchange, x2: Exchange, x3: Exchange)
    requires Listed(log) && |log| == 3 * WINDOW + 1 && (forall i :: 0 <= i < |log| ==> (log[i].paid <==> i == 2 * WINDOW))
    requires x1.tail == Slice(log, 2 * WINDOW, 0)
    requires x2.head == Slice(log, 2 * WINDOW, 0) && x2.tail == Slice(log, 2 * WINDOW, WINDOW - 1)
    requires x3.head == Slice(log, |log|, 0) && x3.tail == Slice(log, |log|, 2 * WINDOW - 2)
    ensures var (c1, db1, _) := PollOnce(Cursor(0, "", ""), Genesis(map[], map[]), x1);
      var (c2, db2, _) := PollOnce(c1, db1, x2);
      var (c3, db3, _) := PollOnce(c2, db2, x3);
      db3 == Genesis(map[], map[]) && PositionOf(log, c3.boundary) < 2 * WINDOW < PositionOf(log, c3.head)
  {
    var db := Genesis(map[], map[]);
    QuietTwice(log, db, x1, x2);
    LateRefreshSkips(log, db, x1, x2, x3);
    var (c1, db1, _) := PollOnce(Cursor(0, "", ""), db, x1);
    QuietPoll(log, PollOnce(c1, db1, x2).0, db, x3, |log|, |log|);
  }

  /** The paid invoice ends between the cursor's identities without a trace in the ledger. */
  lemma APaidInvoiceIsSkipped(x1: Exchange, x2: Exchange, x3: Exchange)
    requires x1.tail == Slice(Listing(), 2 * WINDOW, 0)
    requires x2.head == Slice(Listing(), 2 * WINDOW, 0) && x2.tail == Slice(Listing(), 2 * WINDOW, WINDOW - 1)
    requires x3.head == Slice(Listing(), 3 * WINDOW + 1, 0) && x3.tail == Slice(Listing(), 3 * WINDOW + 1, 2 * WINDOW - 2)
    ensures var (c1, db1, _) := PollOnce(Cursor(0, "", ""), Genesis(map[], map[]), x1);
      var (c2, db2, _) := PollOnce(c1, db1, x2);
      var (c3, db3, _) := PollOnce(c2, db2, x3);
      && PositionOf(Listing(), c3.boundary) < 2 * WINDOW < PositionOf(Listing(), c3.head)
      && Listing()[2 * WINDOW].paid && !Handled(db3, Listing()[2 * WINDOW])
  {
    QuietlySkipped(Listing(), x1, x2, x3);
  }

  /** The last row of an incomplete window is a window below its start, whatever came in. */
  lemma WindowEnds(log: seq<Invoice>, n: nat, n': nat, start: nat, r: Read, end: string)
    requires Listed(log) && Reads(log, n, n', start, r) && r.Window? && r.more
    requires r.invoices != [] && end == r.invoices[|r.invoices| - 1].id
    ensures PositionOf(log, end) <= n' - start - WINDOW
  {
    var last := LastRow(log, n, n', start, r);
  }

  lemma AdvancedTo(c: Cursor, p: Pass, x: Exchange)
    requires Scan(c, p, x).2 == ScanAdvanced
    ensures x.tail.Window? && x.tail.more && x.tail.invoices != []
    ensures Scan(c, p, x).0.boundary == x.tail.invoices[|x.tail.invoices| - 1].id
  {
  }

  /** What the request for the window hears, wherever it starts. */
  ghost predicate HearsTail(log: seq<Invoice>, c: Cursor, x: Exchange, n: nat, n': nat) {
    c.next > 0 && Reads(log, n, n', c.next - 1, x.tail)
  }

  lemma TailEnds(log: seq<Invoice>, c: Cursor, x: Exchange, n: nat, n': nat, end: string)
    requires Listed(log) && HearsTail(log, c, x, n, n') && x.tail.Window? && x.tail.more
    requires x.tail.invoices != [] && end == x.tail.invoices[|x.tail.invoices| - 1].id
    ensures PositionOf(log, end) <= n' - c.next + 1 - WINDOW
  {
    WindowEnds(log, n, n', c.next - 1, x.tail, end);
  }

  /** The unscanned tail shrinks whenever fewer than WINDOW - 1 rows were inserted between
      reading the boundary and the end of the window's requests. */
  lemma TailShrinks(log: seq<Invoice>, c: Cursor, p: Pass, x: Exchange, n: nat, n': nat)
    requires Listed(log) && HearsTail(log, c, x, n, n') && 0 <= PositionOf(log, c.boundary)
    requires Scan(c, p, x).2 == ScanAdvanced
    requires n' - c.next - PositionOf(log, c.boundary) < WINDOW - 1
    ensures PositionOf(log, Scan(c, p, x).0.boundary) < PositionOf(log, c.boundary)
  {
    AdvancedTo(c, p, x);
    TailEnds(log, c, x, n, n', Scan(c, p, x).0.boundary);
  }

  /** On a list that stands still meanwhile, that is also the only case. */
  lemma TailShrinksExactly(log: seq<Invoice>, c: Cursor, p: Pass, x: Exchange, n: nat)
    requires Listed(log) && c.next > 0 && n <= |log| && 0 <= PositionOf(log, c.boundary)
    requires x.tail == Slice(log, n, c.next - 1) && Scan(c, p, x).2 == ScanAdvanced
    ensures PositionOf(log, Scan(c, p, x).0.boundary) < PositionOf(log, c.boundary)
       <==> n - c.next - PositionOf(log, c.boundary) < WINDOW - 1
  {
    ScanShape(c, p, x);
    BoundaryOf(log, n, c.next - 1);
  }
}
