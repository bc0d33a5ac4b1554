/**
 internal/payment/cryptobot.go: provider invoices as receipts or anomalies, and the
 bounded window a poll reads of the provider's list.
 */
module Invoices {
  import opened Wrappers
  import opened Ledger
  import opened Anomalies
  import opened Decimals
  import opened Shop

  const WINDOW: nat := 1000
  const PAGE: nat := 100

  /** PendingInvoice. The order id is the parsed payload, or zero. */
  datatype Invoice = Invoice(
    id: string, paid: bool, order: int, payload: string, asset: Currency, amount: string, paidAt: string, at: Option<int>)

  /** parsePositiveProviderID. */
  function PositiveID(raw: string): Option<int> {
    if raw != "" && AllDigits(raw) && Representable(Value(raw)) then Some(Value(raw)) else None
  }

  /** PendingInvoice.PaymentReceipt; None is ErrInvalidCryptoReceipt. */
  function ReceiptOf(inv: Invoice): Option<Receipt> {
    if inv.order <= 0 || inv.asset != USDT || StrictAmount(inv.amount).None? || PositiveID(inv.id).None? || inv.at.None? then None
    else Some(Receipt(inv.order, Canonical(Crypto), inv.id, 0, USDT, StrictAmount(inv.amount).value, 2, inv.at, None))
  }

  /** cryptoAnomalyPayload. */
  function AnomalyPayload(payload: string, paidAt: string): string {
    var order := if payload != "" then "invoice_payload:" + payload else "";
    var time := if paidAt != "" then "paid_at:" + paidAt else "";
    if order != "" && time != "" then order + "\n" + time else order + time
  }

  /** PendingInvoice.PaymentAnomaly. */
  function InvoiceAnomaly(inv: Invoice, reason: Reason): Option<AnomalyFact> {
    if reason.IsBlank() then None
    else
      var a := AnomalyAmount(inv.amount).GetOr(Scaled(0, 0));
      Some(AnomalyFact(inv.order, Some(Crypto), Captured, inv.id, "", 0, a.units, inv.asset, a.scale, inv.amount != "",
                       RawText(AnomalyPayload(inv.payload, inv.paidAt)), reason, inv.at))
  }

  /** The cents an order asks an invoice for: the rounding of receipt validation. */
  lemma InvoiceMatchesOrder(o: Order, r: Receipt)
    requires o.totalUSD > 0.0 && Representable(Round(o.totalUSD * 100.0))
    requires r.currency == USDT && r.scale == 2 && r.ext != ""
    requires Some(r.amount) == StrictAmount(InvoiceAmount(Round(o.totalUSD * 100.0)))
    ensures Accepts(o, r, Crypto)
    ensures OrderMoney(o, Crypto) == Some(Money(r.amount, USD, 2))
  {
    PrintedAmountParses(Round(o.totalUSD * 100.0));
  }

  /** Every receipt built from an invoice states a fact the ledger can hold. */
  lemma InvoiceReceiptStatesFact(inv: Invoice)
    requires ReceiptOf(inv).Some?
    ensures var r := ReceiptOf(inv).value;
      RailOf(r.name) == Some(Crypto) && r.ext == inv.id && !Blank(r.ext) && Representable(r.amount) && r.scale == 2
  {
  }

  // ----- the provider's list -----

  /** The invoices that ever existed, oldest first. A provider lists the newest first, so
      with n of them in existence, row i is log[n - 1 - i]. */
  function Row(log: seq<Invoice>, n: nat, i: nat): Invoice
    requires i < n <= |log|
  {
    log[n - 1 - i]
  }

  /** One page of the list: getInvoices with an offset and a count. */
  function Page(log: seq<Invoice>, n: nat, offset: nat, count: nat): (page: seq<Invoice>)
    requires n <= |log|
    ensures |page| == if offset >= n then 0 else if offset + count <= n then count else n - offset
    ensures forall i :: 0 <= i < |page| ==> page[i] == Row(log, n, offset + i)
  {
    var len := if offset >= n then 0 else if offset + count <= n then count else n - offset;
    seq(len, i requires 0 <= i < len => Row(log, n, offset + i))
  }

  /** GetInvoicesWindow's answer; `more` is ErrCryptoInvoiceWindow. */
  datatype Read = Failed | Window(invoices: seq<Invoice>, next: int, more: bool)

  /** The positions of a window's rows in the log: it starts at `top` and every further row
      is at most one older than the row before, so that nothing is skipped on the way. */
  ghost predicate Sighting(log: seq<Invoice>, top: int, rows: seq<Invoice>, at: seq<int>) {
    && |at| == |rows|
    && (forall j :: 0 <= j < |at| ==> 0 <= at[j] < |log| && rows[j] == log[at[j]])
    && (|at| > 0 ==> at[0] == top)
    && (forall j :: 0 < j < |at| ==> at[j] >= at[j - 1] - 1)
  }

  /** The window reaches down to position `last`. */
  ghost predicate Sees(log: seq<Invoice>, top: int, rows: seq<Invoice>, last: int) {
    exists at: seq<int> :: Sighting(log, top, rows, at) && (if |at| == 0 then last > top else last == at[|at| - 1])
  }

  /** What a read of the list from `start` sees when the list grows from n to n' rows
      meanwhile: complete reads reach the oldest row, others exactly WINDOW rows. */
  ghost predicate Reads(log: seq<Invoice>, n: nat, n': nat, start: nat, r: Read) {
    n <= n' <= |log| && match r
    case Failed => true
    case Window(rows, next, more) =>
      exists last: int :: Sees(log, n - 1 - start, rows, last) && ReachesFor(rows, next, more, start, n, n', last)
  }

  predicate ReachesFor(rows: seq<Invoice>, next: int, more: bool, start: nat, n: nat, n': nat, last: int) {
    if more then |rows| == WINDOW && next == start + WINDOW && n - start - WINDOW <= last <= n' - start - WINDOW
    else next == 0 && (rows == [] ==> n <= start) && last <= 0
  }

  /** Sizes of the list as successive requests meet it: it only grows, at its head. */
  ghost predicate Growing(log: seq<Invoice>, sizes: seq<nat>) {
    (forall k :: 0 <= k < |sizes| ==> sizes[k] <= |log|) && (forall j, k :: 0 <= j <= k < |sizes| ==> sizes[j] <= sizes[k])
  }

  ghost predicate Steady(sizes: seq<nat>, ok: seq<bool>) {
    (forall k :: 0 <= k < |sizes| ==> sizes[k] == sizes[0]) && (forall k :: 0 <= k < |ok| ==> ok[k])
  }

  /** The positions of one page. */
  function PageAt(n: nat, offset: nat, len: nat): seq<int> {
    seq(len, j => n - 1 - offset - j)
  }

  lemma PageSighted(log: seq<Invoice>, top: int, rows: seq<Invoice>, at: seq<int>, n: nat, offset: nat, count: nat)
    requires Sighting(log, top, rows, at) && n <= |log|
    requires if |at| == 0 then n - 1 - offset == top else n - 1 - offset >= at[|at| - 1] - 1
    ensures var page := Page(log, n, offset, count); Sighting(log, top, rows + page, at + PageAt(n, offset, |page|))
  {
  }

  /** `request` full pages gathered from `start` on. */
  ghost predicate Gathered(log: seq<Invoice>, start: nat, sizes: seq<nat>, request: nat, rows: seq<Invoice>, at: seq<int>)
    requires request < |sizes|
  {
    && |rows| == PAGE * request && Sighting(log, sizes[0] - 1 - start, rows, at)
    && (request > 0 ==> at[|at| - 1] == sizes[request - 1] - start - PAGE * request)
  }

  lemma GatherMore(log: seq<Invoice>, start: nat, sizes: seq<nat>, request: nat, rows: seq<Invoice>, at: seq<int>)
    requires Growing(log, sizes) && request + 1 < |sizes| && Gathered(log, start, sizes, request, rows, at)
    requires |Page(log, sizes[request], start + PAGE * request, PAGE)| == PAGE
    ensures Gathered(log, start, sizes, request + 1, rows + Page(log, sizes[request], start + PAGE * request, PAGE),
                     at + PageAt(sizes[request], start + PAGE * request, PAGE))
  {
    PageSighted(log, sizes[0] - 1 - start, rows, at, sizes[request], start + PAGE * request, PAGE);
  }

  /** A short page is the end of the list. */
  lemma GatherLast(log: seq<Invoice>, start: nat, sizes: seq<nat>, request: nat, rows: seq<Invoice>, at: seq<int>)
    requires Growing(log, sizes) && request < |sizes| && Gathered(log, start, sizes, request, rows, at)
    requires |Page(log, sizes[request], start + PAGE * request, PAGE)| < PAGE
    ensures Reads(log, sizes[0], sizes[|sizes| - 1], start,
                  Window(rows + Page(log, sizes[request], start + PAGE * request, PAGE), 0, false))
  {
    ShortPage(log, start, sizes, request, rows, at);
    var page := Page(log, sizes[request], start + PAGE * request, PAGE);
    var at' := at + PageAt(sizes[request], start + PAGE * request, |page|);
    var top := sizes[0] - 1 - start;
    assert Sees(log, top, rows + page, 0) by { assert Sighting(log, top, rows + page, at'); }
    assert ReachesFor(rows + page, 0, false, start, sizes[0], sizes[|sizes| - 1], 0);
  }

  lemma ShortPage(log: seq<Invoice>, start: nat, sizes: seq<nat>, request: nat, rows: seq<Invoice>, at: seq<int>)
    requires Growing(log, sizes) && request < |sizes| && Gathered(log, start, sizes, request, rows, at)
    requires |Page(log, sizes[request], start + PAGE * request, PAGE)| < PAGE
    ensures var page := Page(log, sizes[request], start + PAGE * request, PAGE);
      var at' := at + PageAt(sizes[request], start + PAGE * request, |page|);
      && Sighting(log, sizes[0] - 1 - start, rows + page, at')
      && (if |at'| == 0 then sizes[0] <= start else at'[|at'| - 1] == 0)
  {
    PageSighted(log, sizes[0] - 1 - start, rows, at, sizes[request], start + PAGE * request, PAGE);
    var n, offset := sizes[request], start + PAGE * request;
    if n > offset {
      assert PageAt(n, offset, n - offset)[n - offset - 1] == 0;
    } else if request > 0 {
      assert sizes[request - 1] <= sizes[request];
    }
  }

  /** After the last page a probe decides whether rows remain. */
  lemma GatherAll(log: seq<Invoice>, start: nat, sizes: seq<nat>, rows: seq<Invoice>, at: seq<int>, more: bool)
    requires Growing(log, sizes) && |sizes| == WINDOW / PAGE + 1 && Gathered(log, start, sizes, WINDOW / PAGE, rows, at)
    requires more <==> sizes[WINDOW / PAGE] > start + WINDOW
    ensures Reads(log, sizes[0], sizes[|sizes| - 1], start, Window(rows, if more then start + WINDOW else 0, more))
  {
    var last := at[|at| - 1];
    assert Sees(log, sizes[0] - 1 - start, rows, last);
    assert ReachesFor(rows, if more then start + WINDOW else 0, more, start, sizes[0], sizes[|sizes| - 1], last);
  }

  /** Consecutive pages of a list that stands still. */
  lemma PagesJoin(log: seq<Invoice>, n: nat, start: nat, a: nat, b: nat)
    requires n <= |log| && |Page(log, n, start, a)| == a
    ensures Page(log, n, start, a) + Page(log, n, start + a, b) == Page(log, n, start, a + b)
  {
  }

  /** On a list that stands still a short page completes the slice. */
  lemma SliceEnds(log: seq<Invoice>, n: nat, start: nat, request: nat)
    requires n <= |log| && request < WINDOW / PAGE && |Page(log, n, start, PAGE * request)| == PAGE * request
    requires |Page(log, n, start + PAGE * request, PAGE)| < PAGE
    ensures Page(log, n, start, PAGE * request) + Page(log, n, start + PAGE * request, PAGE) == Page(log, n, start, WINDOW)
    ensures n <= start + WINDOW
  {
  }

  /** The window of a list that stands still: its slice, and a continuation if rows remain. */
  function Slice(log: seq<Invoice>, n: nat, start: nat): Read
    requires n <= |log|
  {
    Window(Page(log, n, start, WINDOW), if n > start + WINDOW then start + WINDOW else 0, n > start + WINDOW)
  }

  /** The window so far; on a list that stands still it is the front of the slice. */
  ghost predicate Gathering(log: seq<Invoice>, start: nat, sizes: seq<nat>, ok: seq<bool>, request: nat, rows: seq<Invoice>, at: seq<int>)
    requires request < |sizes| && sizes[0] <= |log|
  {
    && Gathered(log, start, sizes, request, rows, at)
    && (Steady(sizes, ok) ==> rows == Page(log, sizes[0], start, PAGE * request))
  }

  /** What GetInvoicesWindow promises of an answer. */
  ghost predicate Answers(log: seq<Invoice>, start: nat, sizes: seq<nat>, ok: seq<bool>, r: Read)
    requires |sizes| > 0 && sizes[0] <= |log|
  {
    Reads(log, sizes[0], sizes[|sizes| - 1], start, r) && (Steady(sizes, ok) ==> r == Slice(log, sizes[0], start))
  }

  /** One request: a short page is the answer, a full one joins the window. */
  lemma OneRequest(log: seq<Invoice>, start: nat, sizes: seq<nat>, ok: seq<bool>, request: nat, rows: seq<Invoice>, at: seq<int>)
    requires Growing(log, sizes) && |sizes| == WINDOW / PAGE + 1 && request < WINDOW / PAGE
    requires Gathering(log, start, sizes, ok, request, rows, at)
    ensures var page := Page(log, sizes[request], start + PAGE * request, PAGE);
      if |page| < PAGE then Answers(log, start, sizes, ok, Window(rows + page, 0, false))
      else Gathering(log, start, sizes, ok, request + 1, rows + page, at + PageAt(sizes[request], start + PAGE * request, PAGE))
  {
    if Steady(sizes, ok) { PagesJoin(log, sizes[0], start, PAGE * request, PAGE); }
    if |Page(log, sizes[request], start + PAGE * request, PAGE)| < PAGE {
      GatherLast(log, start, sizes, request, rows, at);
      if Steady(sizes, ok) { SliceEnds(log, sizes[0], start, request); }
    } else {
      GatherMore(log, start, sizes, request, rows, at);
    }
  }

  /** The probe behind a full window decides whether rows remain. */
  lemma LastRequest(log: seq<Invoice>, start: nat, sizes: seq<nat>, ok: seq<bool>, rows: seq<Invoice>, at: seq<int>)
    requires Growing(log, sizes) && |sizes| == WINDOW / PAGE + 1 && Gathering(log, start, sizes, ok, WINDOW / PAGE, rows, at)
    ensures var more := |Page(log, sizes[WINDOW / PAGE], start + WINDOW, 1)| > 0;
      Answers(log, start, sizes, ok, Window(rows, if more then start + WINDOW else 0, more))
  {
    GatherAll(log, start, sizes, rows, at, |Page(log, sizes[WINDOW / PAGE], start + WINDOW, 1)| > 0);
  }

  /** GetInvoicesWindow, request by request: request k is answered when ok[k], and meets a
      list of sizes[k] rows. Whatever is inserted meanwhile, no row between the window's
      ends is skipped; on a list that stands still the answer is exactly its slice. */
  method GetInvoicesWindow(log: seq<Invoice>, start: int, sizes: seq<nat>, ok: seq<bool>) returns (r: Read)
    requires |sizes| == |ok| == WINDOW / PAGE + 1 && Growing(log, sizes)
    ensures start < 0 ==> r == Failed
    ensures start >= 0 ==> Reads(log, sizes[0], sizes[|sizes| - 1], start, r)
    ensures start >= 0 && Steady(sizes, ok) ==> r == Slice(log, sizes[0], start)
  {
    if start < 0 {
      return Failed;
    }
    var invoices: seq<Invoice> := [];
    ghost var at: seq<int> := [];
    for request := 0 to WINDOW / PAGE
      invariant Gathering(log, start, sizes, ok, request, invoices, at)
    {
      if !ok[request] {
        return Failed;
      }
      var offset := start + PAGE * request;
      var page := Page(log, sizes[request], offset, PAGE);
      OneRequest(log, start, sizes, ok, request, invoices, at);
      if |page| < PAGE {
        return Window(invoices + page, 0, false);
      }
      invoices := invoices + page;
      at := at + PageAt(sizes[request], offset, PAGE);
    }
    if !ok[WINDOW / PAGE] {
      return Failed;
    }
    var probe := Page(log, sizes[WINDOW / PAGE], start + WINDOW, 1);
    LastRequest(log, start, sizes, ok, invoices, at);
    if |probe| == 0 {
      return Window(invoices, 0, false);
    }
    return Window(invoices, start + WINDOW, true);
  }
}
