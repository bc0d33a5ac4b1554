/**
 internal/launcher: the bounded page loops over Telegram's transaction list. A loop that
 says "complete" has seen the whole list, and a search finds only what is unique in it.
 */
module Paging {
  import opened Wrappers
  import opened Ledger
  import opened Decimals
  import opened Reconcile

  /** The counterparty of a transaction, as far as the normaliser looks at it. */
  datatype Party = Party(isUser: bool, isInvoicePayment: bool, payload: string, user: int)

  datatype StarTransaction = StarTransaction(
    id: string, amount: int, nano: int, date: int, source: Option<Party>, receiver: Option<Party>)

  predicate PaysInvoice(p: Option<Party>) {
    p.Some? && p.value.isUser && p.value.isInvoicePayment
  }

  /** strconv.ParseInt(text, 10, 64): the value, and whether it is one. */
  function ParseInt64(text: string): (int, bool) {
    var negative := text != "" && text[0] == '-';
    var digits := if text != "" && (text[0] == '+' || text[0] == '-') then text[1..] else text;
    if digits == "" || !AllDigits(digits) then (0, false)
    else if negative then
      if Value(digits) > MAX_INT64 + 1 then (0 - MAX_INT64 - 1, false) else (0 - Value(digits), true)
    else if Value(digits) > MAX_INT64 then (MAX_INT64, false) else (Value(digits), true)
  }

  /** normalizeStarTransaction: None is a row that is no invoice payment. */
  function NormalizeStar(row: StarTransaction): (r: Option<ProviderRow>)
    ensures r.Some? <==> PaysInvoice(row.receiver) || PaysInvoice(row.source)
    ensures r.Some? ==> r.value.amount >= 0 && r.value.ext == row.id && r.value.currency == XTR && r.value.scale == 0
    ensures r.Some? ==> r.value.kind == Some(if PaysInvoice(row.receiver) then RefundedKind else Captured)
    ensures r.Some? && r.value.payloadValid ==> r.value.order > 0
  {
    if PaysInvoice(row.receiver) then Some(Normalized(row, RefundedKind, row.receiver.value))
    else if PaysInvoice(row.source) then Some(Normalized(row, Captured, row.source.value))
    else None
  }

  function Normalized(row: StarTransaction, kind: EventKind, party: Party): ProviderRow {
    var (order, parsed) := ParseInt64(party.payload);
    ProviderRow(Some(kind), row.id, order, parsed && order > 0, if row.amount < 0 then -row.amount else row.amount,
                XTR, 0, row.nano, party.user, if row.date > 0 then Some(row.date) else None)
  }

  /** The reconcilable rows of a list. */
  function NormalizedRows(list: seq<StarTransaction>): seq<ProviderRow> {
    if |list| == 0 then []
    else
      var row := NormalizeStar(list[|list| - 1]);
      NormalizedRows(list[..|list| - 1]) + if row.Some? then [row.value] else []
  }

  /** ListStarTransactions on a list that stands still. */
  function ListPage(list: seq<StarTransaction>, offset: nat, limit: nat): (page: seq<StarTransaction>)
    ensures |page| == if offset >= |list| then 0 else if offset + limit <= |list| then limit else |list| - offset
  {
    if offset >= |list| then [] else list[offset..if offset + limit <= |list| then offset + limit else |list|]
  }

  function Prefix(list: seq<StarTransaction>, n: nat): seq<StarTransaction> {
    if n <= |list| then list[..n] else list
  }

  lemma {:induction false} NormalizedJoin(a: seq<StarTransaction>, b: seq<StarTransaction>)
    ensures NormalizedRows(a + b) == NormalizedRows(a) + NormalizedRows(b)
  {
    if |b| == 0 {
      assert a + b == a;
    } else {
      NormalizedJoin(a, b[..|b| - 1]);
      assert (a + b)[..|a + b| - 1] == a + b[..|b| - 1];
    }
  }

  // ----- the reconciliation window -----

  /** The paging loop of RunStarsReconcile (reconcile.go:105-136): `complete` if and only if
      the list has at most maxRows rows, and then every row of it was read. */
  method ReadWindow(list: seq<StarTransaction>, maxRows: nat, pageSize: nat) returns (rows: seq<ProviderRow>, complete: bool)
    requires pageSize > 0
    ensures complete <==> |list| <= maxRows
    ensures rows == NormalizedRows(Prefix(list, maxRows))
    ensures complete ==> rows == NormalizedRows(list)
  {
    rows, complete := [], false;
    var offset := 0;
    ghost var seen: nat := 0;
    while offset < maxRows
      invariant 0 <= offset && seen <= |list| && seen == (if offset < maxRows then offset else maxRows)
      invariant rows == NormalizedRows(list[..seen])
    {
      var limit := pageSize;
      if maxRows - offset < limit {
        limit := maxRows - offset;
      }
      var page := ListPage(list, offset, limit);
      FurtherRows(list, offset, limit);
      var pageRows := ReadPage(page);
      rows := rows + pageRows;
      if |page| < limit {
        complete := true;
        return;
      }
      seen := seen + limit;
      offset := offset + pageSize;
    }
    var probe := ListPage(list, maxRows, 1);
    complete := |probe| == 0;
    assert list[..|list|] == list;
  }

  /** What one more page adds to the rows read so far; a short page is the last. */
  lemma FurtherRows(list: seq<StarTransaction>, offset: nat, limit: nat)
    requires offset <= |list|
    ensures var page := ListPage(list, offset, limit);
      NormalizedRows(if |page| < limit then list else list[..offset + limit]) == NormalizedRows(list[..offset]) + NormalizedRows(page)
  {
    var page := ListPage(list, offset, limit);
    assert (if |page| < limit then list else list[..offset + limit]) == list[..offset] + page;
    NormalizedJoin(list[..offset], page);
  }

  method ReadPage(page: seq<StarTransaction>) returns (rows: seq<ProviderRow>)
    ensures rows == NormalizedRows(page)
  {
    rows := [];
    for i := 0 to |page|
      invariant rows == NormalizedRows(page[..i])
    {
      assert page[..i + 1][..i] == page[..i];
      var normalized := NormalizeStar(page[i]);
      if normalized.Some? {
        rows := rows + [normalized.value];
      }
    }
    assert page[..|page|] == page;
  }

  /** RunStarsReconcile: exit code zero if and only if the whole list was read and its
      reconciliation is green. */
  method RunStarsReconcile(db: DB, list: seq<StarTransaction>, maxRows: int, pageSize: int) returns (code: int, report: Report)
    ensures code == 0 || code == 1
    ensures code == 0 <==> Green(Reconciled(db, Stars, NormalizedRows(list), |list| <= WindowLimit(maxRows)))
  {
    var limit, size := maxRows, pageSize;
    if limit <= 0 {
      limit := 500;
    }
    if size <= 0 || size > 100 {
      size := 100;
    }
    var rows, complete := ReadWindow(list, limit, size);
    report := ReconcileWindow(db, Stars, rows, complete);
    code := 0;
    if !report.complete || report.providerOnly > 0 || report.localOnly > 0 || report.needsReview > 0 || report.duplicates > 0 {
      code := 1;
    }
  }

  function WindowLimit(maxRows: int): nat {
    if maxRows <= 0 then 500 else maxRows
  }

  // ----- the exact search -----

  predicate IsMatch(row: StarTransaction, id: string, kind: EventKind) {
    var n := NormalizeStar(row);
    n.Some? && n.value.kind == Some(kind) && n.value.ext == id
  }

  function Matches(list: seq<StarTransaction>, id: string, kind: EventKind): nat {
    if |list| == 0 then 0
    else Matches(list[..|list| - 1], id, kind) + if IsMatch(list[|list| - 1], id, kind) then 1 else 0
  }

  /** The last matching row. */
  function LastMatch(list: seq<StarTransaction>, id: string, kind: EventKind): Option<ProviderRow> {
    if |list| == 0 then None
    else if IsMatch(list[|list| - 1], id, kind) then NormalizeStar(list[|list| - 1])
    else LastMatch(list[..|list| - 1], id, kind)
  }

  /** The row at position i is the only match in the list. */
  predicate OnlyMatch(list: seq<StarTransaction>, id: string, kind: EventKind, i: nat) {
    i < |list| && IsMatch(list[i], id, kind) && forall j :: 0 <= j < |list| && IsMatch(list[j], id, kind) ==> j == i
  }

  lemma {:induction false} NoMatches(list: seq<StarTransaction>, id: string, kind: EventKind)
    ensures Matches(list, id, kind) == 0 <==> forall j :: 0 <= j < |list| ==> !IsMatch(list[j], id, kind)
  {
    if |list| > 0 {
      NoMatches(list[..|list| - 1], id, kind);
      assert forall j :: 0 <= j < |list| - 1 ==> list[..|list| - 1][j] == list[j];
    }
  }

  /** The only match is counted once, and it is the row returned. */
  lemma {:induction false} OnlyMatchCounts(list: seq<StarTransaction>, id: string, kind: EventKind, i: nat)
    requires OnlyMatch(list, id, kind, i)
    ensures Matches(list, id, kind) == 1 && LastMatch(list, id, kind) == NormalizeStar(list[i])
  {
    var front := list[..|list| - 1];
    assert forall j :: 0 <= j < |front| ==> front[j] == list[j];
    if i == |list| - 1 {
      NoMatches(front, id, kind);
    } else {
      OnlyMatchCounts(front, id, kind, i);
    }
  }

  /** A single count stands for a single position. */
  lemma {:induction false} OneMatchIsOnly(list: seq<StarTransaction>, id: string, kind: EventKind) returns (i: nat)
    requires Matches(list, id, kind) == 1
    ensures OnlyMatch(list, id, kind, i)
  {
    var front := list[..|list| - 1];
    assert forall j :: 0 <= j < |front| ==> front[j] == list[j];
    if IsMatch(list[|list| - 1], id, kind) {
      NoMatches(front, id, kind);
      i := |list| - 1;
    } else {
      i := OneMatchIsOnly(front, id, kind);
    }
  }

  lemma MatchIsUnique(list: seq<StarTransaction>, id: string, kind: EventKind)
    ensures Matches(list, id, kind) == 1 <==> exists i: nat :: OnlyMatch(list, id, kind, i)
    ensures forall i: nat :: OnlyMatch(list, id, kind, i) ==> LastMatch(list, id, kind) == NormalizeStar(list[i])
  {
    forall i: nat | OnlyMatch(list, id, kind, i)
      ensures Matches(list, id, kind) == 1 && LastMatch(list, id, kind) == NormalizeStar(list[i])
    {
      OnlyMatchCounts(list, id, kind, i);
    }
    if Matches(list, id, kind) == 1 { var i := OneMatchIsOnly(list, id, kind); }
  }

  lemma {:induction false} MatchesJoin(a: seq<StarTransaction>, b: seq<StarTransaction>, id: string, kind: EventKind)
    ensures Matches(a + b, id, kind) == Matches(a, id, kind) + Matches(b, id, kind)
    ensures LastMatch(a + b, id, kind) == if LastMatch(b, id, kind).Some? then LastMatch(b, id, kind) else LastMatch(a, id, kind)
  {
    if |b| == 0 {
      assert a + b == a;
    } else {
      MatchesJoin(a, b[..|b| - 1], id, kind);
      assert (a + b)[..|a + b| - 1] == a + b[..|b| - 1];
    }
  }

  method CountPage(page: seq<StarTransaction>, id: string, kind: EventKind, before: Option<ProviderRow>)
    returns (matches: nat, found: Option<ProviderRow>)
    ensures matches == Matches(page, id, kind)
    ensures found == if LastMatch(page, id, kind).Some? then LastMatch(page, id, kind) else before
  {
    matches, found := 0, before;
    for i := 0 to |page|
      invariant matches == Matches(page[..i], id, kind)
      invariant found == if LastMatch(page[..i], id, kind).Some? then LastMatch(page[..i], id, kind) else before
    {
      assert page[..i + 1][..i] == page[..i];
      var normalized := NormalizeStar(page[i]);
      if normalized.Some? && normalized.value.kind == Some(kind) && normalized.value.ext == id {
        found := normalized;
        matches := matches + 1;
      }
    }
    assert page[..|page|] == page;
  }

  /** The search loop: what was counted over the window, and whether it saw the list's end. */
  method SearchWindow(list: seq<StarTransaction>, id: string, kind: EventKind, maxRows: nat, pageSize: nat)
    returns (matches: nat, found: Option<ProviderRow>, complete: bool)
    requires pageSize > 0
    ensures complete <==> |list| <= maxRows
    ensures complete ==> matches == Matches(list, id, kind) && found == LastMatch(list, id, kind)
  {
    matches, found, complete := 0, None, false;
    var offset := 0;
    ghost var seen: nat := 0;
    while offset < maxRows
      invariant 0 <= offset && seen <= |list| && seen == (if offset < maxRows then offset else maxRows)
      invariant matches == Matches(list[..seen], id, kind) && found == LastMatch(list[..seen], id, kind)
    {
      var limit := pageSize;
      if maxRows - offset < limit {
        limit := maxRows - offset;
      }
      var page := ListPage(list, offset, limit);
      FurtherMatches(list, offset, limit, id, kind);
      var more: nat;
      more, found := CountPage(page, id, kind, found);
      matches := matches + more;
      if |page| < limit {
        complete := true;
        return;
      }
      seen := seen + limit;
      offset := offset + pageSize;
    }
    var probe := ListPage(list, maxRows, 1);
    complete := |probe| == 0;
    assert list[..|list|] == list;
  }

  /** What one more page adds to the rows read so far; a short page is the last. */
  lemma FurtherMatches(list: seq<StarTransaction>, offset: nat, limit: nat, id: string, kind: EventKind)
    requires offset <= |list|
    ensures var page := ListPage(list, offset, limit);
      var read := if |page| < limit then list else list[..offset + limit];
      && Matches(read, id, kind) == Matches(list[..offset], id, kind) + Matches(page, id, kind)
      && LastMatch(read, id, kind)
         == if LastMatch(page, id, kind).Some? then LastMatch(page, id, kind) else LastMatch(list[..offset], id, kind)
  {
    var page := ListPage(list, offset, limit);
    var read := if |page| < limit then list else list[..offset + limit];
    assert read == list[..offset] + page;
    MatchesJoin(list[..offset], page, id, kind);
  }

  /** findExactStarTransaction: it succeeds if and only if the list fits the window and holds
      exactly one row of that kind and id, and then returns that row. */
  method FindExactStarTransaction(list: seq<StarTransaction>, id: string, refund: bool, maxRows: nat, pageSize: nat)
    returns (row: Option<ProviderRow>)
    requires pageSize > 0
    ensures var kind := if refund then RefundedKind else Captured;
      && (row.Some? <==> |list| <= maxRows && exists i: nat :: OnlyMatch(list, id, kind, i))
      && (row.Some? ==> forall i: nat :: OnlyMatch(list, id, kind, i) ==> row == NormalizeStar(list[i]))
  {
    var kind := if refund then RefundedKind else Captured;
    var matches, found, complete := SearchWindow(list, id, kind, maxRows, pageSize);
    MatchIsUnique(list, id, kind);
    if !complete || matches != 1 {
      return None;
    }
    return found;
  }
}
