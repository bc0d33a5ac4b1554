/**
 internal/storage/reconcile.go: a provider's transactions against the local events. A
 green report means the two ledgers are equal, line by line.
 */
module Reconcile {
  import opened Wrappers
  import opened Ledger
  import opened Tables
  import opened Reviews
  import opened Invariant
  import opened Runs

  /** ProviderTransaction; a missing kind counts as a capture. */
  datatype ProviderRow = ProviderRow(
    kind: Option<EventKind>, ext: string, order: int, payloadValid: bool, amount: int, currency: Currency, scale: int,
    nano: int, payer: int, at: Option<int>)
  {
    function Key(): (EventKind, string) { (kind.GetOr(Captured), ext) }
  }

  datatype Report = Report(
    rows: int, matched: int, providerOnly: int, mismatch: int, needsReview: int, complete: bool, duplicates: int, localOnly: int)

  /** What RunStarsReconcile exits with zero on (internal/launcher/reconcile.go:146). */
  predicate Green(r: Report) {
    r.complete && r.providerOnly <= 0 && r.localOnly <= 0 && r.needsReview <= 0 && r.duplicates <= 0
  }

  // ----- one row -----

  predicate ValidMoney(p: Provider, row: ProviderRow) {
    match p
    case Stars => row.currency == XTR && row.scale == 0 && row.amount > 0 && row.nano == 0 && row.payer > 0 && row.at.Some?
    case Crypto => (row.currency == USD || row.currency == USDT) && row.scale == 2 && row.amount > 0 && row.at.Some?
  }

  predicate ValidRow(p: Provider, row: ProviderRow) {
    row.ext != "" && row.payloadValid && row.order > 0 && ValidMoney(p, row)
  }

  function EventKey(e: Event): (EventKind, string) { (e.kind, e.ext) }

  function FindEvent(events: seq<Event>, p: Provider, key: (EventKind, string)): (r: Option<nat>)
    ensures r.Some? ==> r.value < |events| && events[r.value].provider == p && EventKey(events[r.value]) == key
    ensures r.None? ==> forall e :: 0 <= e < |events| ==> !(events[e].provider == p && EventKey(events[e]) == key)
  {
    if |events| == 0 then None
    else if events[|events| - 1].provider == p && EventKey(events[|events| - 1]) == key then Some(|events| - 1)
    else FindEvent(events[..|events| - 1], p, key)
  }

  /** The payer the local row recorded, zero when it recorded none. */
  function LocalPayer(db: DB, e: Event): int {
    match e.kind
    case Captured =>
      if e.attempt.Some? && e.attempt.value < |db.attempts| then db.attempts[e.attempt.value].payer else 0
    case RefundedKind =>
      match FindRefund(db.refunds, e.provider, e.ext)
      case None => 0
      case Some(k) => db.refunds[k].payer
  }

  /** The provider row and the local event tell the same, settled or resolved, story. */
  predicate Agrees(db: DB, p: Provider, row: ProviderRow, e: nat)
    requires e < |db.events| && db.HasOrder(db.events[e].order)
  {
    var l := db.events[e];
    && l.order == row.order
    && (p == Stars ==> db.Ord(l.order).user == row.payer && (LocalPayer(db, l) > 0 ==> LocalPayer(db, l) == row.payer))
    && Some(l.at) == row.at && l.amount == row.amount && l.currency == row.currency && l.scale == row.scale
    && (l.disp == EventSettled || EventTarget(e) in db.resolutions)
  }

  datatype Tally = Tally(
    seen: map<(EventKind, string), ProviderRow>, matched: int, providerOnly: int, mismatch: int, needsReview: int, duplicates: int)

  function Classify(db: DB, p: Provider, t: Tally, row: ProviderRow): Tally {
    if row.Key() in t.seen then
      t.(duplicates := t.duplicates + 1, needsReview := t.needsReview + 1,
         mismatch := t.mismatch + if t.seen[row.Key()] != row.(kind := t.seen[row.Key()].kind) then 1 else 0)
    else
      var t' := t.(seen := t.seen[row.Key() := row]);
      if !ValidRow(p, row) then t'.(mismatch := t.mismatch + 1, needsReview := t.needsReview + 1)
      else match FindEvent(db.events, p, row.Key())
        case None => t'.(providerOnly := t.providerOnly + 1)
        case Some(e) =>
          if !db.HasOrder(db.events[e].order) then t'.(providerOnly := t.providerOnly + 1)
          else if !Agrees(db, p, row, e) then t'.(mismatch := t.mismatch + 1, needsReview := t.needsReview + 1)
          else t'.(matched := t.matched + 1)
  }

  function Classified(db: DB, p: Provider, rows: seq<ProviderRow>): Tally {
    if |rows| == 0 then Tally(map[], 0, 0, 0, 0, 0)
    else Classify(db, p, Classified(db, p, rows[..|rows| - 1]), rows[|rows| - 1])
  }

  // ----- what is local only, and what is unresolved -----

  predicate LocalOnly(e: Event, p: Provider, seen: set<(EventKind, string)>) {
    e.provider == p && EventKey(e) !in seen
  }

  function CountLocalOnly(events: seq<Event>, p: Provider, seen: set<(EventKind, string)>): int {
    if |events| == 0 then 0
    else CountLocalOnly(events[..|events| - 1], p, seen) + if LocalOnly(events[|events| - 1], p, seen) then 1 else 0
  }

  predicate UnresolvedEvent(db: DB, p: Provider, e: int) {
    0 <= e < |db.events| && db.events[e].provider == p && OpenEvent(db, e)
  }

  /** The rail an order under review is counted under. */
  function ReviewRail(o: Order): Option<Provider> {
    if o.rail.Some? then o.rail
    else if o.status == Pending && o.subProduct != 0 then Some(Stars)
    else None
  }

  predicate UnresolvedOrder(db: DB, p: Provider, k: int) {
    0 <= k < |db.orders| && db.orders[k].pay == NeedsReview && ReviewRail(db.orders[k]) == Some(p)
  }

  predicate UnresolvedAnomaly(db: DB, p: Provider, i: int) {
    0 <= i < |db.anomalies| && db.anomalies[i].provider == p && OpenAnomaly(db, i)
  }

  /** The tables an operator's work waits in. */
  datatype Table = EventTable | OrderTable | AnomalyTable

  predicate UnresolvedRow(table: Table, db: DB, p: Provider, i: int) {
    match table
    case EventTable => UnresolvedEvent(db, p, i)
    case OrderTable => UnresolvedOrder(db, p, i)
    case AnomalyTable => UnresolvedAnomaly(db, p, i)
  }

  function Size(table: Table, db: DB): nat {
    match table
    case EventTable => |db.events|
    case OrderTable => |db.orders|
    case AnomalyTable => |db.anomalies|
  }

  /** SELECT COUNT(*) over the first n rows of a table. */
  function CountUnresolved(table: Table, db: DB, p: Provider, n: nat): int {
    if n == 0 then 0 else CountUnresolved(table, db, p, n - 1) + if UnresolvedRow(table, db, p, n - 1) then 1 else 0
  }

  lemma {:induction false} CountIsZero(table: Table, db: DB, p: Provider, n: nat)
    ensures CountUnresolved(table, db, p, n) >= 0
    ensures CountUnresolved(table, db, p, n) == 0 <==> forall i: int :: 0 <= i < n ==> !UnresolvedRow(table, db, p, i)
  {
    if n > 0 { CountIsZero(table, db, p, n - 1); }
  }

  lemma {:induction false} NothingLocalOnly(events: seq<Event>, p: Provider, seen: set<(EventKind, string)>)
    ensures CountLocalOnly(events, p, seen) >= 0
    ensures CountLocalOnly(events, p, seen) == 0 <==> forall e :: 0 <= e < |events| ==> !LocalOnly(events[e], p, seen)
  {
    if |events| > 0 {
      var front := events[..|events| - 1];
      NothingLocalOnly(front, p, seen);
      assert forall e :: 0 <= e < |front| ==> front[e] == events[e];
    }
  }

  function Largest(a: int, b: int): int { if b > a then b else a }

  function Unresolved(db: DB, p: Provider): int {
    Largest(Largest(CountUnresolved(EventTable, db, p, |db.events|), CountUnresolved(OrderTable, db, p, |db.orders|)),
            CountUnresolved(AnomalyTable, db, p, |db.anomalies|))
  }

  function Reconciled(db: DB, p: Provider, rows: seq<ProviderRow>, complete: bool): Report {
    var t := Classified(db, p, rows);
    Report(|rows|, t.matched, t.providerOnly, t.mismatch, Largest(t.needsReview, Unresolved(db, p)), complete, t.duplicates,
           if complete then CountLocalOnly(db.events, p, t.seen.Keys) else 0)
  }

  /** The identity map and the classification loop. */
  method ClassifyRows(db: DB, p: Provider, rows: seq<ProviderRow>) returns (t: Tally)
    ensures t == Classified(db, p, rows)
  {
    t := Tally(map[], 0, 0, 0, 0, 0);
    for i := 0 to |rows|
      invariant t == Classified(db, p, rows[..i])
    {
      assert rows[..i + 1][..i] == rows[..i];
      var row := rows[i];
      if row.Key() in t.seen {
        var previous := t.seen[row.Key()];
        t := t.(duplicates := t.duplicates + 1, needsReview := t.needsReview + 1);
        if previous != row.(kind := previous.kind) {
          t := t.(mismatch := t.mismatch + 1);
        }
        continue;
      }
      t := t.(seen := t.seen[row.Key() := row]);
      if !ValidRow(p, row) {
        t := t.(mismatch := t.mismatch + 1, needsReview := t.needsReview + 1);
        continue;
      }
      var local := FindEvent(db.events, p, row.Key());
      if local.None? || !db.HasOrder(db.events[local.value].order) {
        t := t.(providerOnly := t.providerOnly + 1);
        continue;
      }
      if !Agrees(db, p, row, local.value) {
        t := t.(mismatch := t.mismatch + 1, needsReview := t.needsReview + 1);
        continue;
      }
      t := t.(matched := t.matched + 1);
    }
    assert rows[..|rows|] == rows;
  }

  /** The pass over the local identities. */
  method LocalOnlyRows(events: seq<Event>, p: Provider, seen: map<(EventKind, string), ProviderRow>) returns (n: int)
    ensures n == CountLocalOnly(events, p, seen.Keys)
  {
    n := 0;
    for e := 0 to |events|
      invariant n == CountLocalOnly(events[..e], p, seen.Keys)
    {
      assert events[..e + 1][..e] == events[..e];
      if events[e].provider == p && EventKey(events[e]) !in seen {
        n := n + 1;
      }
    }
    assert events[..|events|] == events;
  }

  /** SQLPaymentLedgerStore.Reconcile. */
  method ReconcileWindow(db: DB, p: Provider, rows: seq<ProviderRow>, windowComplete: bool) returns (report: Report)
    ensures report == Reconciled(db, p, rows, windowComplete)
  {
    var t := ClassifyRows(db, p, rows);
    report := Report(|rows|, t.matched, t.providerOnly, t.mismatch, t.needsReview, windowComplete, t.duplicates, 0);
    if windowComplete {
      var localOnly := LocalOnlyRows(db.events, p, t.seen);
      report := report.(localOnly := localOnly);
    }
    var unresolvedEvents := CountUnresolved(EventTable, db, p, |db.events|);
    var unresolvedOrders := CountUnresolved(OrderTable, db, p, |db.orders|);
    var unresolvedAnomalies := CountUnresolved(AnomalyTable, db, p, |db.anomalies|);
    if unresolvedEvents > report.needsReview {
      report := report.(needsReview := unresolvedEvents);
    }
    if unresolvedOrders > report.needsReview {
      report := report.(needsReview := unresolvedOrders);
    }
    if unresolvedAnomalies > report.needsReview {
      report := report.(needsReview := unresolvedAnomalies);
    }
  }

  // ----- what a green report means -----

  function KeysOf(rows: seq<ProviderRow>): set<(EventKind, string)> {
    if |rows| == 0 then {} else KeysOf(rows[..|rows| - 1]) + {rows[|rows| - 1].Key()}
  }

  /** No identity is listed twice. */
  predicate DistinctKeys(rows: seq<ProviderRow>) {
    |rows| == 0 || (DistinctKeys(rows[..|rows| - 1]) && rows[|rows| - 1].Key() !in KeysOf(rows[..|rows| - 1]))
  }

  /** The provider row has a local event that tells the same story. */
  predicate Confirmed(db: DB, p: Provider, row: ProviderRow) {
    var e := FindEvent(db.events, p, row.Key());
    ValidRow(p, row) && e.Some? && db.HasOrder(db.events[e.value].order) && Agrees(db, p, row, e.value)
  }

  predicate AllConfirmed(db: DB, p: Provider, rows: seq<ProviderRow>) {
    |rows| == 0 || (AllConfirmed(db, p, rows[..|rows| - 1]) && Confirmed(db, p, rows[|rows| - 1]))
  }

  predicate Clean(t: Tally) { t.providerOnly == 0 && t.needsReview == 0 && t.duplicates == 0 }

  lemma {:induction false} CleanTally(db: DB, p: Provider, rows: seq<ProviderRow>)
    ensures var t := Classified(db, p, rows);
      && t.providerOnly >= 0 && t.needsReview >= 0 && t.duplicates >= 0 && t.seen.Keys == KeysOf(rows)
      && (Clean(t) <==> DistinctKeys(rows) && AllConfirmed(db, p, rows))
  {
    if |rows| > 0 {
      CleanTally(db, p, rows[..|rows| - 1]);
      var t := Classified(db, p, rows[..|rows| - 1]);
      assert t.seen[rows[|rows| - 1].Key() := rows[|rows| - 1]].Keys == t.seen.Keys + {rows[|rows| - 1].Key()};
    }
  }

  /** Nothing on this rail waits for an operator. */
  ghost predicate NothingUnresolved(db: DB, p: Provider) {
    forall table: Table, i: int :: 0 <= i < Size(table, db) ==> !UnresolvedRow(table, db, p, i)
  }

  lemma UnresolvedCount(db: DB, p: Provider)
    ensures Unresolved(db, p) >= 0 && (Unresolved(db, p) == 0 <==> NothingUnresolved(db, p))
  {
    forall table: Table
      ensures CountUnresolved(table, db, p, Size(table, db)) >= 0
      ensures CountUnresolved(table, db, p, Size(table, db)) == 0
         <==> forall i: int :: 0 <= i < Size(table, db) ==> !UnresolvedRow(table, db, p, i)
    {
      CountIsZero(table, db, p, Size(table, db));
    }
    assert Size(EventTable, db) == |db.events| && Size(OrderTable, db) == |db.orders| && Size(AnomalyTable, db) == |db.anomalies|;
  }

  /** Every local event of the rail is listed by the provider. */
  ghost predicate AllListed(db: DB, p: Provider, rows: seq<ProviderRow>) {
    forall e :: 0 <= e < |db.events| ==> !LocalOnly(db.events[e], p, KeysOf(rows))
  }

  /** A report is green exactly when the window was complete, every provider row is new and
      confirmed by a local event, every local event is listed, and nothing is unresolved. */
  lemma GreenExactly(db: DB, p: Provider, rows: seq<ProviderRow>, complete: bool)
    ensures Green(Reconciled(db, p, rows, complete)) <==>
      complete && DistinctKeys(rows) && AllConfirmed(db, p, rows) && AllListed(db, p, rows) && NothingUnresolved(db, p)
  {
    CleanTally(db, p, rows);
    UnresolvedCount(db, p);
    NothingLocalOnly(db.events, p, KeysOf(rows));
  }

  // ----- the two ledgers, line by line -----

  datatype Line = Line(kind: EventKind, ext: string, order: int, amount: int, currency: Currency, scale: int, at: int) {
    function Key(): (EventKind, string) { (kind, ext) }
  }

  function ProviderLines(rows: seq<ProviderRow>): seq<Line> {
    if |rows| == 0 then []
    else
      var row := rows[|rows| - 1];
      ProviderLines(rows[..|rows| - 1])
      + [Line(row.Key().0, row.ext, row.order, row.amount, row.currency, row.scale, row.at.GetOr(0))]
  }

  function LocalLines(events: seq<Event>, p: Provider): seq<Line> {
    if |events| == 0 then []
    else
      var e := events[|events| - 1];
      LocalLines(events[..|events| - 1], p)
      + if e.provider == p then [Line(e.kind, e.ext, e.order, e.amount, e.currency, e.scale, e.at)] else []
  }

  function LineOf(e: Event): Line {
    Line(e.kind, e.ext, e.order, e.amount, e.currency, e.scale, e.at)
  }

  ghost predicate LocalLine(events: seq<Event>, p: Provider, l: Line) {
    exists e :: 0 <= e < |events| && events[e].provider == p && LineOf(events[e]) == l
  }

  /** Each line once. */
  ghost predicate Single<T>(lines: seq<T>) {
    forall i, j :: 0 <= i < j < |lines| ==> lines[i] != lines[j]
  }

  lemma {:induction false} SingleCount<T>(lines: seq<T>, l: T)
    requires Single(lines)
    ensures multiset(lines)[l] == if l in lines then 1 else 0
  {
    if |lines| > 0 {
      var front := lines[..|lines| - 1];
      assert lines == front + [lines[|lines| - 1]];
      SingleCount(front, l);
    }
  }

  /** Two duplicate-free lists with the same members are the same multiset. */
  lemma SameMembers<T>(a: seq<T>, b: seq<T>)
    requires Single(a) && Single(b) && (forall l :: l in a <==> l in b)
    ensures multiset(a) == multiset(b)
  {
    forall l ensures multiset(a)[l] == multiset(b)[l] {
      SingleCount(a, l);
      SingleCount(b, l);
    }
  }

  lemma {:induction false} LocalLinesAre(events: seq<Event>, p: Provider)
    requires UniqueEvents(events)
    ensures Single(LocalLines(events, p))
    ensures forall l :: l in LocalLines(events, p) <==> LocalLine(events, p, l)
  {
    if |events| > 0 {
      var front, last := events[..|events| - 1], events[|events| - 1];
      LocalLinesAre(front, p);
      FreshLine(events, p);
      if last.provider == p { SingleGrows(LocalLines(front, p), LineOf(last)); }
      forall l ensures l in LocalLines(events, p) <==> LocalLine(events, p, l) {
        LineGrows(events, p, l);
      }
    }
  }

  lemma SingleGrows<T>(lines: seq<T>, l: T)
    requires Single(lines) && l !in lines
    ensures Single(lines + [l])
  {
  }

  lemma FreshLine(events: seq<Event>, p: Provider)
    requires |events| > 0 && UniqueEvents(events)
    ensures events[|events| - 1].provider == p ==> !LocalLine(events[..|events| - 1], p, LineOf(events[|events| - 1]))
  {
  }

  lemma LineGrows(events: seq<Event>, p: Provider, l: Line)
    requires |events| > 0
    ensures LocalLine(events, p, l) <==>
      LocalLine(events[..|events| - 1], p, l) || (events[|events| - 1].provider == p && LineOf(events[|events| - 1]) == l)
  {
  }

  // ----- equality -----

  lemma {:induction false} ProviderLinesAre(db: DB, p: Provider, rows: seq<ProviderRow>)
    requires DistinctKeys(rows) && AllConfirmed(db, p, rows)
    ensures Single(ProviderLines(rows))
    ensures forall l :: l in ProviderLines(rows) ==> l.Key() in KeysOf(rows) && LocalLine(db.events, p, l)
    ensures forall key :: key in KeysOf(rows) ==> exists l :: l in ProviderLines(rows) && l.Key() == key
  {
    if |rows| > 0 {
      var front, row := rows[..|rows| - 1], rows[|rows| - 1];
      ProviderLinesAre(db, p, front);
      var line := ProviderLines(rows)[|ProviderLines(rows)| - 1];
      var e := FindEvent(db.events, p, row.Key()).value;
      assert LineOf(db.events[e]) == line;
      assert ProviderLines(rows) == ProviderLines(front) + [line];
      assert line.Key() == row.Key();
      SingleGrows(ProviderLines(front), line);
      forall key | key in KeysOf(rows) ensures exists l :: l in ProviderLines(rows) && l.Key() == key {
        if key in KeysOf(front) {
          var l :| l in ProviderLines(front) && l.Key() == key;
          assert l in ProviderLines(rows);
        } else {
          assert line.Key() == key;
        }
      }
    }
  }

  /** A listed local event is one of the provider's lines. */
  lemma ListedLine(db: DB, p: Provider, rows: seq<ProviderRow>, l: Line)
    requires UniqueEvents(db.events) && DistinctKeys(rows) && AllConfirmed(db, p, rows) && AllListed(db, p, rows)
    requires LocalLine(db.events, p, l)
    ensures l in ProviderLines(rows)
  {
    ProviderLinesAre(db, p, rows);
    var e :| 0 <= e < |db.events| && db.events[e].provider == p && LineOf(db.events[e]) == l;
    assert !LocalOnly(db.events[e], p, KeysOf(rows));
    var m :| m in ProviderLines(rows) && m.Key() == l.Key();
    LineByKey(db.events, p, l, m);
  }

  /** Two local lines of a rail with one identity are one line. */
  lemma LineByKey(events: seq<Event>, p: Provider, l: Line, m: Line)
    requires UniqueEvents(events) && LocalLine(events, p, l) && LocalLine(events, p, m) && l.Key() == m.Key()
    ensures l == m
  {
    var e :| 0 <= e < |events| && events[e].provider == p && LineOf(events[e]) == l;
    var d :| 0 <= d < |events| && events[d].provider == p && LineOf(events[d]) == m;
    assert SameKey(events[d], events[e]) && SameKey(events[e], events[d]);
  }

  function Total(lines: seq<Line>, kind: EventKind): int {
    if |lines| == 0 then 0
    else Total(lines[..|lines| - 1], kind) + if lines[|lines| - 1].kind == kind then lines[|lines| - 1].amount else 0
  }

  lemma {:induction false} TotalWithout(lines: seq<Line>, i: nat, kind: EventKind)
    requires i < |lines|
    ensures Total(lines, kind) == Total(lines[..i] + lines[i + 1..], kind) + if lines[i].kind == kind then lines[i].amount else 0
  {
    var front := lines[..|lines| - 1];
    if i < |front| {
      TotalWithout(front, i, kind);
      assert (lines[..i] + lines[i + 1..])[..|lines| - 2] == front[..i] + front[i + 1..];
    } else {
      assert lines[..i] + lines[i + 1..] == front;
    }
  }

  lemma RestOf<T>(s: seq<T>, i: nat)
    requires i < |s|
    ensures multiset(s[..i] + s[i + 1..]) == multiset(s) - multiset{s[i]}
  {
    assert s == s[..i] + [s[i]] + s[i + 1..];
  }

  lemma {:induction false} SameTotal(a: seq<Line>, b: seq<Line>, kind: EventKind)
    requires multiset(a) == multiset(b)
    ensures Total(a, kind) == Total(b, kind)
  {
    assert |multiset(a)| == |a| && |multiset(b)| == |b|;
    if |a| > 0 {
      var i := LastIn(a, b);
      SameTotal(a[..|a| - 1], b[..i] + b[i + 1..], kind);
      TotalWithout(b, i, kind);
    }
  }

  /** The last line of one list, found in the other; what remains of both is the same. */
  lemma LastIn<T>(a: seq<T>, b: seq<T>) returns (i: nat)
    requires multiset(a) == multiset(b) && |a| > 0
    ensures i < |b| && b[i] == a[|a| - 1] && multiset(a[..|a| - 1]) == multiset(b[..i] + b[i + 1..])
  {
    var last := a[|a| - 1];
    assert last in multiset(a);
    i :| i < |b| && b[i] == last;
    RestOf(a, |a| - 1);
    RestOf(b, i);
    assert a[..|a| - 1] + a[|a|..] == a[..|a| - 1];
  }

  /** Green reconciliation means equality: in a reachable ledger the provider's rows and the
      local captured and refunded events of that rail are the same lines, identity, order,
      money and time, so both sides total the same; and nothing is left unresolved. */
  lemma GreenMeansEqual(db: DB, p: Provider, rows: seq<ProviderRow>, complete: bool)
    requires Reachable(db) && Green(Reconciled(db, p, rows, complete))
    ensures multiset(ProviderLines(rows)) == multiset(LocalLines(db.events, p))
    ensures forall kind :: Total(ProviderLines(rows), kind) == Total(LocalLines(db.events, p), kind)
    ensures NothingUnresolved(db, p)
  {
    ReachableInv(db);
    GreenExactly(db, p, rows, complete);
    ProviderLinesAre(db, p, rows);
    LocalLinesAre(db.events, p);
    forall l ensures l in ProviderLines(rows) <==> l in LocalLines(db.events, p) {
      if LocalLine(db.events, p, l) { ListedLine(db, p, rows, l); }
    }
    SameMembers(ProviderLines(rows), LocalLines(db.events, p));
    forall kind ensures Total(ProviderLines(rows), kind) == Total(LocalLines(db.events, p), kind) {
      SameTotal(ProviderLines(rows), LocalLines(db.events, p), kind);
    }
  }
}
