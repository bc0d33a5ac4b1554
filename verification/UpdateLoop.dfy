/**
 internal/bot/bot.go:270-371: the getUpdates loop. The offset confirms every update below
 it to Telegram for good, so it must not pass a payment that is not durably handled.
 */
module UpdateLoop {

  /** What decodeTelegramUpdate makes of a raw update. A broken payment is undecodable but
      recognisable; any other broken update is skipped. */
  datatype Kind = Ordinary | Payment | BrokenPayment | Broken

  datatype Update = Update(id: int, kind: Kind) {
    predicate Pays() { kind == Payment || kind == BrokenPayment }
  }

  const BATCH: nat := 100

  /** The offset, and the payments whose settlement or quarantine returned success. */
  datatype State = State(offset: int, handled: set<int>)

  function Passed(s: State, id: int): State {
    if id >= s.offset then s.(offset := id + 1) else s
  }

  function Handled(s: State, id: int): State {
    Passed(s.(handled := s.handled + {id}), id)
  }

  /** One batch: the state it leaves and whether the loop backs off before it retries. A
      handled payment ends the batch; ok(id) is what processing update id returns. */
  function Drain(s: State, updates: seq<Update>, ok: int -> bool): (State, bool)
    decreases |updates|
  {
    if |updates| == 0 then (s, false)
    else
      var u := updates[0];
      match u.kind
      case Broken => Drain(s, updates[1..], ok)
      case BrokenPayment => if ok(u.id) then Drain(Handled(s, u.id), updates[1..], ok) else (s, true)
      case Payment => if ok(u.id) then (Handled(s, u.id), false) else (s, true)
      case Ordinary => Drain(Passed(s, u.id), updates[1..], ok)
  }

  /** The polling half of the bot. */
  class Poller {
    var offset: int
    var handled: set<int>

    constructor ()
      ensures Now() == State(0, {})
    {
      offset, handled := 0, {};
    }

    function Now(): State
      reads this
    {
      State(offset, handled)
    }

    /** The inner loop of Run over one batch. */
    method Process(rawUpdates: seq<Update>, ok: int -> bool) returns (retryBatch: bool)
      modifies this
      ensures (Now(), retryBatch) == Drain(old(Now()), rawUpdates, ok)
    {
      retryBatch := false;
      var index := 0;
      while index < |rawUpdates|
        invariant 0 <= index <= |rawUpdates| && !retryBatch
        invariant Drain(Now(), rawUpdates[index..], ok) == Drain(old(Now()), rawUpdates, ok)
      {
        var u := rawUpdates[index];
        index := index + 1;
        match u.kind {
          case Broken =>
          case BrokenPayment =>
            if !ok(u.id) {
              retryBatch := true;
              return;
            }
            handled := handled + {u.id};
            if u.id >= offset {
              offset := u.id + 1;
            }
          case Payment =>
            if !ok(u.id) {
              retryBatch := true;
              return;
            }
            handled := handled + {u.id};
            if u.id >= offset {
              offset := u.id + 1;
            }
            if index < |rawUpdates| {
              return;
            }
          case Ordinary =>
            if u.id >= offset {
              offset := u.id + 1;
            }
        }
      }
    }
  }

  // ----- what Telegram returns -----

  /** Update ids ascend in the order the updates came in. */
  ghost predicate Ascending(log: seq<Update>) {
    forall i, j :: 0 <= i < j < |log| ==> log[i].id < log[j].id
  }

  /** The first update that is still pending. */
  function FirstPending(log: seq<Update>, offset: int): (k: nat)
    ensures k <= |log|
    ensures k < |log| ==> log[k].id >= offset
    ensures forall i :: 0 <= i < k ==> log[i].id < offset
  {
    if |log| == 0 then 0
    else
      var k := FirstPending(log[..|log| - 1], offset);
      if k < |log| - 1 then k else if log[|log| - 1].id >= offset then |log| - 1 else |log|
  }

  /** getUpdates: at most a batch of the pending updates, oldest first, when n have come in. */
  function Fetch(log: seq<Update>, n: nat, offset: int): seq<Update>
    requires n <= |log|
  {
    var k := FirstPending(log[..n], offset);
    log[k..if k + BATCH <= n then k + BATCH else n]
  }

  // ----- the barrier -----

  /** Every payment below the offset has been handled. */
  ghost predicate Barrier(log: seq<Update>, s: State) {
    forall i :: 0 <= i < |log| && log[i].Pays() && log[i].id < s.offset ==> log[i].id in s.handled
  }

  /** Draining a stretch of the log that starts where the offset stands keeps the barrier. */
  lemma {:induction false} DrainKeepsBarrier(log: seq<Update>, s: State, from: nat, to: nat, ok: int -> bool)
    requires Ascending(log) && from <= to <= |log| && Barrier(log, s)
    requires forall i :: 0 <= i < from ==> log[i].id < s.offset || !log[i].Pays() || log[i].id in s.handled
    requires forall i :: from <= i < |log| ==> log[i].id >= s.offset
    ensures Barrier(log, Drain(s, log[from..to], ok).0) && s.handled <= Drain(s, log[from..to], ok).0.handled
    decreases |log| - from
  {
    if from < to {
      var u := log[from];
      assert log[from..to][1..] == log[from + 1..to];
      assert log[from..to][0] == u;
      match u.kind
      case Broken => DrainKeepsBarrier(log, s, from + 1, to, ok);
      case BrokenPayment => if ok(u.id) { DrainKeepsBarrier(log, Handled(s, u.id), from + 1, to, ok); }
      case Payment =>
      case Ordinary => DrainKeepsBarrier(log, Passed(s, u.id), from + 1, to, ok);
    }
  }

  /** One turn of the loop: how much has come in, and what processing returns. */
  datatype Turn = Turn(n: nat, ok: int -> bool)

  function Step(log: seq<Update>, s: State, t: Turn): State
    requires t.n <= |log|
  {
    Drain(s, Fetch(log, t.n, s.offset), t.ok).0
  }

  lemma StepKeepsBarrier(log: seq<Update>, s: State, t: Turn)
    requires Ascending(log) && t.n <= |log| && Barrier(log, s)
    ensures Barrier(log, Step(log, s, t)) && s.handled <= Step(log, s, t).handled
  {
    var k := FirstPending(log[..t.n], s.offset);
    if k < t.n {
      DrainKeepsBarrier(log, s, k, if k + BATCH <= t.n then k + BATCH else t.n, t.ok);
    }
  }

  function Run(log: seq<Update>, turns: seq<Turn>): State
    requires forall i :: 0 <= i < |turns| ==> turns[i].n <= |log|
  {
    if |turns| == 0 then State(0, {})
    else Step(log, Run(log, turns[..|turns| - 1]), turns[|turns| - 1])
  }

  /** The offset never passes an unhandled payment: whatever comes in and whichever handlers
      fail, a recognisable payment update below the offset has been handled, so an unhandled
      one is still pending at Telegram. */
  lemma {:induction false} OffsetNeverPassesAPayment(log: seq<Update>, turns: seq<Turn>)
    requires Ascending(log) && (forall i :: 0 <= i < |log| ==> log[i].id >= 0)
    requires forall i :: 0 <= i < |turns| ==> turns[i].n <= |log|
    ensures Barrier(log, Run(log, turns))
  {
    if |turns| > 0 {
      OffsetNeverPassesAPayment(log, turns[..|turns| - 1]);
      StepKeepsBarrier(log, Run(log, turns[..|turns| - 1]), turns[|turns| - 1]);
    }
  }

  // ----- progress -----

  predicate Skipped(u: Update) { u.kind == Broken }

  lemma {:induction false} DrainGrows(s: State, updates: seq<Update>, ok: int -> bool)
    ensures Drain(s, updates, ok).0.offset >= s.offset
    decreases |updates|
  {
    if |updates| > 0 {
      DrainGrows(s, updates[1..], ok);
      DrainGrows(Handled(s, updates[0].id), updates[1..], ok);
      DrainGrows(Passed(s, updates[0].id), updates[1..], ok);
    }
  }

  /** A batch that is not retried moves the offset exactly when it holds an update that is
      not merely skipped: a batch of broken updates is fetched again for ever. */
  lemma {:induction false} ProgressIsExact(s: State, updates: seq<Update>, ok: int -> bool)
    requires forall i :: 0 <= i < |updates| ==> updates[i].id >= s.offset
    requires !Drain(s, updates, ok).1
    ensures Drain(s, updates, ok).0.offset > s.offset <==> exists i :: 0 <= i < |updates| && !Skipped(updates[i])
    decreases |updates|
  {
    if |updates| > 0 {
      var rest := updates[1..];
      assert forall i :: 0 <= i < |rest| ==> rest[i] == updates[i + 1];
      if Skipped(updates[0]) {
        ProgressIsExact(s, rest, ok);
        if i :| 0 <= i < |updates| && !Skipped(updates[i]) { assert rest[i - 1] == updates[i]; }
      } else {
        DrainGrows(Handled(s, updates[0].id), rest, ok);
        DrainGrows(Passed(s, updates[0].id), rest, ok);
      }
    }
  }

  // ----- a jam -----

  /** Where the batch that holds update k has to end. */
  function BatchEnd(log: seq<Update>, k: nat): nat {
    if k + BATCH <= |log| then k + BATCH else |log|
  }

  /** Nothing but broken updates in the whole batch the offset stands at. */
  predicate Jammed(log: seq<Update>, offset: int) {
    var k := FirstPending(log, offset);
    forall i :: k <= i < BatchEnd(log, k) ==> Skipped(log[i])
  }

  /** However much has come in, a batch is the beginning of the batch of the whole log. */
  lemma FetchIsPrefix(log: seq<Update>, n: nat, offset: int)
    requires n <= |log|
    ensures var k := FirstPending(log, offset);
      Fetch(log, n, offset) == [] || (k < n && Fetch(log, n, offset) == log[k..BatchEnd(log[..n], k)])
  {
    var k', k := FirstPending(log[..n], offset), FirstPending(log, offset);
    if k' < n {
      assert log[..n][k'] == log[k'];
      assert forall i :: 0 <= i < k' ==> log[..n][i] == log[i];
    }
  }

  lemma {:induction false} BrokenDrain(s: State, updates: seq<Update>, ok: int -> bool)
    requires forall i :: 0 <= i < |updates| ==> Skipped(updates[i])
    ensures Drain(s, updates, ok) == (s, false)
    decreases |updates|
  {
    if |updates| > 0 { BrokenDrain(s, updates[1..], ok); }
  }

  lemma JamHolds(log: seq<Update>, s: State, t: Turn)
    requires t.n <= |log| && Jammed(log, s.offset)
    ensures Step(log, s, t) == s
  {
    FetchIsPrefix(log, t.n, s.offset);
    BrokenDrain(s, Fetch(log, t.n, s.offset), t.ok);
  }

  lemma {:induction false} WillingDrain(s: State, updates: seq<Update>)
    ensures !Drain(s, updates, id => true).1
    decreases |updates|
  {
    if |updates| > 0 {
      WillingDrain(s, updates[1..]);
      WillingDrain(Handled(s, updates[0].id), updates[1..]);
      WillingDrain(Passed(s, updates[0].id), updates[1..]);
    }
  }

  lemma JamBreaks(log: seq<Update>, s: State)
    requires Ascending(log) && !Jammed(log, s.offset)
    ensures Step(log, s, Turn(|log|, id => true)) != s
  {
    var k := FirstPending(log, s.offset);
    assert log[..|log|] == log;
    var batch := Fetch(log, |log|, s.offset);
    assert batch == log[k..BatchEnd(log, k)];
    var i :| k <= i < BatchEnd(log, k) && !Skipped(log[i]);
    assert batch[i - k] == log[i];
    WillingDrain(s, batch);
    ProgressIsExact(s, batch, id => true);
  }

  /** No turn changes anything, whatever comes in and whatever the handlers return, if and
      only if the batch at the offset holds nothing but broken updates. */
  lemma JammedExactly(log: seq<Update>, s: State)
    requires Ascending(log)
    ensures (forall t: Turn :: t.n <= |log| ==> Step(log, s, t) == s) <==> Jammed(log, s.offset)
  {
    if Jammed(log, s.offset) {
      forall t: Turn | t.n <= |log| ensures Step(log, s, t) == s { JamHolds(log, s, t); }
    } else {
      JamBreaks(log, s);
    }
  }

  /** A bot that starts with a full batch of broken updates in front of it never gets past
      them: no payment behind them is ever handled. */
  lemma {:induction false} BrokenBatchJams(log: seq<Update>, turns: seq<Turn>)
    requires |log| >= BATCH && (forall i :: 0 <= i < BATCH ==> Skipped(log[i]) && log[i].id >= 0)
    requires forall i :: 0 <= i < |turns| ==> turns[i].n <= |log|
    ensures Run(log, turns) == State(0, {})
  {
    if |turns| > 0 {
      BrokenBatchJams(log, turns[..|turns| - 1]);
      assert Skipped(log[0]) && log[0].id >= 0;
      assert FirstPending(log, 0) == 0;
      JamHolds(log, State(0, {}), turns[|turns| - 1]);
    }
  }
}
