/**
 Two things every step leaves in balance: goods (stock and promo uses against the
 orders that settled) and, except for an operator's decision, quarantine.
 */
module Conservation {
  import opened Wrappers
  import opened Ledger
  import opened Tables
  import opened Anomalies
  import opened Recording
  import opened Refunds
  import opened Reviews
  import opened Subscriptions
  import opened Orders
  import opened Invariant
  import opened OrderEffects
  import opened History
  import opened Runs

  // ----- quantities -----

  /** How much of a product an item list asks for. */
  function Quantity(items: seq<Item>, product: int): int {
    if |items| == 0 then 0
    else
      Quantity(items[..|items| - 1], product)
      + if items[|items| - 1].product == product then items[|items| - 1].quantity else 0
  }

  function Taken(o: Order, product: int): int {
    if EverSettled(o) then Quantity(o.items, product) else 0
  }

  /** What all orders that ever settled took of a product. */
  function SettledQuantity(rows: seq<Order>, product: int): int {
    if |rows| == 0 then 0
    else SettledQuantity(rows[..|rows| - 1], product) + Taken(rows[|rows| - 1], product)
  }

  /** How often a promo code was used. */
  function Uses(rows: seq<Usage>, promo: string): int {
    if |rows| == 0 then 0
    else Uses(rows[..|rows| - 1], promo) + if rows[|rows| - 1].promo == promo then 1 else 0
  }

  lemma {:induction false} QuantityUpdate(rows: seq<Order>, i: nat, o: Order, product: int)
    requires i < |rows|
    ensures SettledQuantity(rows[i := o], product)
         == SettledQuantity(rows, product) - Taken(rows[i], product) + Taken(o, product)
  {
    var front := rows[..|rows| - 1];
    if i == |rows| - 1 {
      assert rows[i := o][..|rows| - 1] == front;
    } else {
      assert rows[i := o][..|rows| - 1] == front[i := o];
      QuantityUpdate(front, i, o, product);
    }
  }

  // ----- the balance -----

  ghost predicate Balanced(db: DB, db': DB, product: int) {
    product in db.stock && product in db'.stock
    && db'.stock[product] + SettledQuantity(db'.orders, product) == db.stock[product] + SettledQuantity(db.orders, product)
    && (db.stock[product] >= 0 ==> db'.stock[product] >= 0)
  }

  ghost predicate KeepsStock(db: DB, db': DB) {
    db'.stock.Keys == db.stock.Keys && forall p :: p in db.stock ==> Balanced(db, db', p)
  }

  ghost predicate Counted(db: DB, db': DB, promo: string) {
    promo in db.promos && promo in db'.promos
    && db'.promos[promo] - Uses(db'.usages, promo) == db.promos[promo] - Uses(db.usages, promo)
  }

  ghost predicate KeepsPromos(db: DB, db': DB) {
    db'.promos.Keys == db.promos.Keys && forall c :: c in db.promos ==> Counted(db, db', c)
  }

  ghost predicate Conserves(db: DB, db': DB) {
    KeepsStock(db, db') && KeepsPromos(db, db')
  }

  /** Paid for and not taken back. */
  predicate Earned(db: DB, id: int) {
    db.HasOrder(id) && (db.Ord(id).status == Paid || db.Ord(id).status == Delivered)
  }

  /** An order in review stays in review, and a paid order stays paid or delivered. */
  ghost predicate KeepsStates(db: DB, db': DB) {
    && (forall id :: Held(db, id) ==> Held(db', id))
    && (forall id :: Earned(db, id) ==> Earned(db', id))
  }

  /** The same, for a step that creates no order. */
  ghost predicate KeepsReview(db: DB, db': DB) {
    KeepsStates(db, db') && |db'.orders| == |db.orders|
  }

  lemma ConservesTransitive(a: DB, b: DB, c: DB)
    requires Conserves(a, b) && Conserves(b, c)
    ensures Conserves(a, c)
  {
  }

  // ----- writes -----

  /** A step on other tables. */
  ghost predicate SameGoods(db: DB, db': DB) {
    db'.orders == db.orders && db'.stock == db.stock && db'.promos == db.promos && db'.usages == db.usages
  }

  lemma SameGoodsSteady(db: DB, db': DB)
    requires SameGoods(db, db')
    ensures Conserves(db, db') && KeepsReview(db, db')
  {
  }

  /** The rewrite neither ends a review nor takes a paid order back. */
  predicate Gentle(o: Order, o': Order) {
    && (o.pay == NeedsReview ==> o'.pay == NeedsReview)
    && (o.status == Paid || o.status == Delivered ==> o'.status == Paid || o'.status == Delivered)
  }

  /** A step that rewrites one order without settling it. */
  lemma OrderSteady(db: DB, db': DB, id: int, o: Order)
    requires db.HasOrder(id) && SameGoods(db.SetOrder(id, o), db')
    requires o.items == db.Ord(id).items && (EverSettled(o) <==> EverSettled(db.Ord(id)))
    ensures Conserves(db, db')
    ensures Gentle(db.Ord(id), o) ==> KeepsReview(db, db')
  {
    forall p | p in db.stock ensures Balanced(db, db', p) {
      QuantityUpdate(db.orders, id - 1, o, p);
    }
  }

  lemma FlagSteady(db: DB, db': DB, id: int)
    requires SameGoods(Flag(db, id), db')
    ensures Conserves(db, db') && KeepsReview(db, db')
  {
    if db.HasOrder(id) { OrderSteady(db, db', id, db.Ord(id).(pay := NeedsReview)); }
    else { SameGoodsSteady(db, db'); }
  }

  lemma RecordAnomalySteady(db: DB, f: AnomalyFact, now: int)
    ensures Conserves(db, RecordAnomaly(db, f, now).0) && KeepsReview(db, RecordAnomaly(db, f, now).0)
  {
    var db' := RecordAnomaly(db, f, now).0;
    if db' == db { SameGoodsSteady(db, db'); } else { FlagSteady(db, db', f.order); }
  }

  lemma RecordCaptureSteady(db: DB, id: int, f: Fact, reason: Reason, now: int)
    requires db.HasOrder(id)
    ensures Conserves(db, RecordCapture(db, id, f, reason, now).0) && KeepsReview(db, RecordCapture(db, id, f, reason, now).0)
  {
    var db' := RecordCapture(db, id, f, reason, now).0;
    match FindAttempt(db.attempts, f.provider, f.ext)
    case Some(i) =>
      SameGoodsSteady(db, db);
      RecordAnomalySteady(db, AnomalyFromFact(id, f, if db.attempts[i].order != id then IdentityConflict else reason), now);
    case None => FlagSteady(db, db', id);
  }

  lemma RecordUnexpectedSteady(db: DB, id: int, f: Fact, reason: Reason, now: int)
    ensures Conserves(db, RecordUnexpected(db, id, f, reason, now).0) && KeepsReview(db, RecordUnexpected(db, id, f, reason, now).0)
  {
    SameGoodsSteady(db, db);
    if db.HasOrder(id) {
      RecordAnomalySteady(db, AnomalyFromFact(id, f, FactMismatch), now);
      RecordCaptureSteady(db, id, f, reason, now);
    }
  }

  lemma IngestCaptureSteady(db: DB, id: int, f: Fact, now: int)
    ensures Conserves(db, IngestCapture(db, id, f, now).0) && KeepsReview(db, IngestCapture(db, id, f, now).0)
  {
    SameGoodsSteady(db, db);
    if db.HasOrder(id) {
      RecordCaptureSteady(db, id, f, OtherReason("operator_ingested_provider_capture"), now);
      RecordAnomalySteady(db, IngestAnomaly(id, f), now);
    }
  }

  // ----- settlement takes the goods -----

  /** The stock loop takes each product's whole quantity, and never more than there is. */
  lemma {:induction false} TakeStockExact(stock: map<int, int>, items: seq<Item>, product: int)
    requires TakeStock(stock, items).Some?
    ensures TakeStock(stock, items).value.Keys == stock.Keys
    ensures product in stock ==> TakeStock(stock, items).value[product] == stock[product] - Quantity(items, product)
    ensures product in stock && stock[product] >= 0 ==> TakeStock(stock, items).value[product] >= 0
  {
    if |items| > 0 {
      TakeStockExact(stock, items[..|items| - 1], product);
    }
  }

  lemma UsePromoCounts(db: DB, id: int)
    requires db.HasOrder(id)
    ensures KeepsPromos(db, UsePromo(db, id))
  {
    var db' := UsePromo(db, id);
    forall c | c in db.promos ensures Counted(db, db', c) {
      if db' != db { assert db'.usages[..|db.usages|] == db.usages; }
    }
  }

  lemma SettleFreshGoods(db: DB, id: int, f: Fact, c: Option<Contract>, now: int)
    requires db.HasOrder(id)
    ensures SettleFresh(db, id, f, c, now).1 == {} ==>
      var db' := SettleFresh(db, id, f, c, now).0;
      && db'.orders == db.SetOrder(id, SettledOrder(db.Ord(id), f)).orders
      && TakeStock(db.stock, db.Ord(id).items) == Some(db'.stock)
      && KeepsPromos(db, db')
  {
    if SettleFresh(db, id, f, c, now).1 == {} {
      var seen := Observe(db, id, f, ExpiryOf(c), now).0;
      var paid := MarkSettled(seen).SetOrder(id, SettledOrder(db.Ord(id), f));
      var stocked := paid.(stock := TakeStock(db.stock, db.Ord(id).items).value);
      UsePromoCounts(stocked, id);
      assert UsePromo(stocked, id).orders == stocked.orders && UsePromo(stocked, id).stock == stocked.stock;
    }
  }

  lemma SettleFreshSteady(db: DB, id: int, f: Fact, c: Option<Contract>, now: int)
    requires db.HasOrder(id) && f.ext != "" && !EverSettled(db.Ord(id)) && db.Ord(id).pay == PayPending
    ensures Conserves(db, SettleFresh(db, id, f, c, now).0) && KeepsReview(db, SettleFresh(db, id, f, c, now).0)
  {
    SettleFreshShape(db, id, f, c, now);
    SettleFreshGoods(db, id, f, c, now);
    var (db', errs) := SettleFresh(db, id, f, c, now);
    if errs == {} {
      TakeStockExact(db.stock, db.Ord(id).items, 0);
      forall p | p in db.stock ensures Balanced(db, db', p) {
        TakeStockExact(db.stock, db.Ord(id).items, p);
        QuantityUpdate(db.orders, id - 1, SettledOrder(db.Ord(id), f), p);
      }
    } else {
      SameGoodsSteady(db, db');
    }
  }

  lemma SettleReplaySteady(db: DB, id: int, f: Fact, c: Option<Contract>, now: int)
    requires db.HasOrder(id)
    requires ReplaysSettlement(db.Ord(id), f) ==> FindAttempt(db.attempts, f.provider, f.ext).Some?
    ensures Conserves(db, SettleReplay(db, id, f, c, now).db) && KeepsReview(db, SettleReplay(db, id, f, c, now).db)
  {
    SettleReplayRepairs(db, id, f, c, now);
    SameGoodsSteady(db, SettleReplay(db, id, f, c, now).db);
  }

  lemma SettleOnceSteady(db: DB, id: int, f: Fact, c: Option<Contract>, now: int)
    requires Inv(db)
    ensures Conserves(db, SettleOnce(db, id, f, c, now).db) && KeepsReview(db, SettleOnce(db, id, f, c, now).db)
  {
    SameGoodsSteady(db, db);
    if db.HasOrder(id) && ValidateFact(db.Ord(id), f) == {} {
      ValidMoney(db.Ord(id), f);
      SettlementFacts(db, id, f);
      SettleReplaySteady(db, id, f, c, now);
      if db.Ord(id).pay == PayPending { SettleFreshSteady(db, id, f, c, now); }
    }
  }

  lemma SettleSteady(db: DB, id: int, f: Fact, c: Option<Contract>, now: int)
    requires Inv(db)
    ensures Conserves(db, Settle(db, id, f, c, now).0) && KeepsReview(db, Settle(db, id, f, c, now).0)
  {
    SettleOnceSteady(db, id, f, c, now);
    var s := SettleOnce(db, id, f, c, now);
    if PaymentIdentityConflict in s.errs {
      RecordAnomalySteady(s.db, AnomalyFromFact(id, s.fact, IdentityConflict), now);
      ConservesTransitive(db, s.db, Settle(db, id, f, c, now).0);
    } else if SubscriptionOrderConflict in s.errs && c.Some? {
      RecordUnexpectedSteady(s.db, id, s.fact, EntitlementConflict, now);
      ConservesTransitive(db, s.db, Settle(db, id, f, c, now).0);
    }
  }

  // ----- renewals, refunds, decisions -----

  lemma RenewOnceSteady(db: DB, id: int, f: Fact, c: Contract, now: int)
    ensures Conserves(db, RenewOnce(db, id, f, c, now).0) && KeepsReview(db, RenewOnce(db, id, f, c, now).0)
  {
    var db' := RenewOnce(db, id, f, c, now).0;
    SameGoodsSteady(db, db);
    if db' != db {
      match FindAttempt(db.attempts, f.provider, f.ext)
      case Some(i) => SameGoodsSteady(db, db');
      case None => OrderSteady(db, db', id, db'.Ord(id));
    }
  }

  lemma RenewSteady(db: DB, id: int, f: Fact, c: Contract, now: int)
    ensures Conserves(db, Renew(db, id, f, c, now).0) && KeepsReview(db, Renew(db, id, f, c, now).0)
  {
    SameGoodsSteady(db, db);
    RenewOnceSteady(db, id, f, c, now);
    RenewEnds(db, id, f, c, now);
    var (once, errs) := RenewOnce(db, id, f, c, now);
    if RenewalReason(errs).Some? {
      RecordUnexpectedSteady(once, id, f, RenewalReason(errs).value, now);
      ConservesTransitive(db, once, RecordUnexpected(once, id, f, RenewalReason(errs).value, now).0);
    }
  }

  lemma EnterRefundSteady(db: DB, i: nat, r: Refund, rolled: Rollback)
    requires i < |db.attempts| && db.HasOrder(r.order)
    ensures Conserves(db, EnterRefund(db, i, r, rolled)) && KeepsReview(db, EnterRefund(db, i, r, rolled))
  {
    var db' := EnterRefund(db, i, r, rolled);
    OrderSteady(db, db', r.order, db'.Ord(r.order));
  }

  lemma RefundOnceSteady(db: DB, f: RefundFact, now: int)
    ensures Conserves(db, RefundOnce(db, f, now).0) && KeepsReview(db, RefundOnce(db, f, now).0)
  {
    SameGoodsSteady(db, db);
    if RefundOnce(db, f, now).0 != db {
      var p := f.name.Normalized().value;
      var i := FindAttempt(db.attempts, p, f.parent).value;
      var r := RefundRow(f, p, now);
      EnterRefundSteady(db, i, r, RefundRollback(db, i, r, now));
    }
  }

  lemma RecordRefundSteady(db: DB, f: RefundFact, now: int)
    ensures Conserves(db, RecordRefund(db, f, now).0) && KeepsReview(db, RecordRefund(db, f, now).0)
  {
    RefundOnceSteady(db, f, now);
    var (once, errs) := RefundOnce(db, f, now);
    if RefusalReason(errs).Some? {
      var a := RefundAnomaly(once, f, RefusalReason(errs).value);
      RecordAnomalySteady(once, a, now);
      ConservesTransitive(db, once, RecordAnomaly(once, a, now).0);
    }
  }

  lemma CloseConserves(db: DB, r: ReviewRequest, targets: set<Target>)
    requires forall t :: t in targets ==> Decide(db, t, r.decision, r.result).Some?
    ensures Conserves(db, Close(db, r, targets).0) && |Close(db, r, targets).0.orders| == |db.orders|
  {
    var db' := Close(db, r, targets).0;
    CloseEnds(db, r, targets);
    if SameGoods(db, db') { SameGoodsSteady(db, db'); } else { OrderSteady(db, db', r.order, db'.Ord(r.order)); }
  }

  lemma ResolveConserves(db: DB, r: ReviewRequest)
    ensures Conserves(db, Resolve(db, r).0) && |Resolve(db, r).0.orders| == |db.orders|
  {
    SameGoodsSteady(db, db);
    if Resolve(db, r).0 != db {
      CloseConserves(db, r, CaseTargets(db, r).value);
    }
  }

  // ----- steps and runs -----

  lemma CreateSteady(db: DB, d: Draft, now: int)
    ensures Conserves(db, CreateOrder(db, d, now).0) && KeepsStates(db, CreateOrder(db, d, now).0)
  {
  }

  lemma CancelSteady(db: DB, id: int, user: int)
    ensures Conserves(db, CancelOrder(db, id, user).0) && KeepsReview(db, CancelOrder(db, id, user).0)
  {
    var db' := CancelOrder(db, id, user).0;
    if db' == db { SameGoodsSteady(db, db'); } else { OrderSteady(db, db', id, db'.Ord(id)); }
  }

  lemma DeliverSteady(db: DB, id: int)
    ensures Conserves(db, Deliver(db, id).0) && KeepsReview(db, Deliver(db, id).0)
  {
    var db' := Deliver(db, id).0;
    if db' == db { SameGoodsSteady(db, db'); } else { OrderSteady(db, db', id, db'.Ord(id)); }
  }

  lemma SettleStepSteady(db: DB, s: Step)
    requires Inv(db) && s.op.SettleReceipt?
    ensures Conserves(db, Apply(db, s)) && KeepsReview(db, Apply(db, s))
  {
    SameGoodsSteady(db, db);
    assert Apply(db, s) == SettleStep(db, s.op.receipt, s.now).0;
    if Apply(db, s) != db {
      var r := s.op.receipt;
      var q := Shop.RequestOf(db.Ord(r.order), r, s.now).value;
      SettleSteady(db, r.order, q.fact, q.contract, s.now);
    }
  }

  lemma RefundStepSteady(db: DB, s: Step)
    requires s.op.RecordRefundFact?
    ensures Conserves(db, Apply(db, s)) && KeepsReview(db, Apply(db, s))
  {
    assert Apply(db, s) == RecordRefund(db, s.op.refund, s.now).0;
    RecordRefundSteady(db, s.op.refund, s.now);
  }

  lemma IngestRefundSteady(db: DB, f: RefundFact, now: int)
    requires Conserves(db, RecordRefund(db, f, now).0) && KeepsReview(db, RecordRefund(db, f, now).0)
    ensures Conserves(db, IngestRefund(db, f, now).0) && KeepsReview(db, IngestRefund(db, f, now).0)
  {
  }

  lemma IngestRefundStepSteady(db: DB, s: Step)
    requires s.op.IngestRefundFact?
    ensures Conserves(db, Apply(db, s)) && KeepsReview(db, Apply(db, s))
  {
    assert Apply(db, s) == IngestRefund(db, s.op.refund, s.now).0;
    RecordRefundSteady(db, s.op.refund, s.now);
    IngestRefundSteady(db, s.op.refund, s.now);
  }

  lemma CaptureStepSteady(db: DB, s: Step)
    requires s.op.RecordUnexpectedCharge? || s.op.IngestCaptureFact? || s.op.RecordFact?
    ensures Conserves(db, Apply(db, s)) && KeepsReview(db, Apply(db, s))
  {
    match s.op {
      case RecordUnexpectedCharge(id, f, reason) => RecordUnexpectedSteady(db, id, f, reason, s.now);
      case IngestCaptureFact(id, f) => IngestCaptureSteady(db, id, f, s.now);
      case RecordFact(a) => RecordAnomalySteady(db, a, s.now);
    }
  }

  lemma CustomerStepSteady(db: DB, s: Step)
    requires s.op.Cancel? || s.op.DeliverOrder?
    ensures Conserves(db, Apply(db, s)) && KeepsReview(db, Apply(db, s))
  {
    match s.op {
      case Cancel(id, user) => CancelSteady(db, id, user);
      case DeliverOrder(id) => DeliverSteady(db, id);
    }
  }

  lemma CreateStepSteady(db: DB, s: Step)
    requires s.op.Create?
    ensures Conserves(db, Apply(db, s)) && KeepsStates(db, Apply(db, s))
  {
    assert Apply(db, s) == CreateOrder(db, s.op.draft, s.now).0;
    CreateSteady(db, s.op.draft, s.now);
  }

  lemma RenewStepSteady(db: DB, s: Step)
    requires s.op.RenewCharge?
    ensures Conserves(db, Apply(db, s)) && KeepsReview(db, Apply(db, s))
  {
    assert Apply(db, s) == Renew(db, s.op.id, s.op.fact, s.op.contract, s.now).0;
    RenewSteady(db, s.op.id, s.op.fact, s.op.contract, s.now);
  }

  lemma ResolveStepConserves(db: DB, s: Step)
    requires s.op.ResolveReview?
    ensures Conserves(db, Apply(db, s)) && |Apply(db, s).orders| == |db.orders|
  {
    assert Apply(db, s) == Resolve(db, s.op.request).0;
    ResolveConserves(db, s.op.request);
  }

  lemma LifecycleSteady(db: DB, s: Step)
    requires s.op.CancelSubscription? || s.op.ExpireOverdue?
    ensures Conserves(db, Apply(db, s)) && KeepsReview(db, Apply(db, s))
  {
    SameGoodsSteady(db, Apply(db, s));
  }

  /** No step makes or loses goods, and only a decision can end a review. */
  lemma StepSteady(db: DB, s: Step)
    requires Inv(db)
    ensures Conserves(db, Apply(db, s))
    ensures !s.op.ResolveReview? ==> KeepsStates(db, Apply(db, s))
    ensures !s.op.Create? ==> |Apply(db, s).orders| == |db.orders|
  {
    match s.op {
      case Create(_) => CreateStepSteady(db, s);
      case Cancel(_, _) => CustomerStepSteady(db, s);
      case DeliverOrder(_) => CustomerStepSteady(db, s);
      case SettleReceipt(_) => SettleStepSteady(db, s);
      case RenewCharge(_, _, _) => RenewStepSteady(db, s);
      case RecordRefundFact(_) => RefundStepSteady(db, s);
      case IngestRefundFact(_) => IngestRefundStepSteady(db, s);
      case ResolveReview(_) => ResolveStepConserves(db, s);
      case CancelSubscription(_, _) => LifecycleSteady(db, s);
      case ExpireOverdue => LifecycleSteady(db, s);
      case _ => CaptureStepSteady(db, s);
    }
  }

  lemma {:induction false} RunConserves(db: DB, steps: seq<Step>)
    requires Inv(db)
    ensures Conserves(db, Run(db, steps))
  {
    if |steps| == 0 {
      SameGoodsSteady(db, db);
    } else {
      var before := Run(db, steps[..|steps| - 1]);
      RunKeeps(db, steps[..|steps| - 1]);
      RunConserves(db, steps[..|steps| - 1]);
      StepSteady(before, steps[|steps| - 1]);
      ConservesTransitive(db, before, Run(db, steps));
    }
  }

  /** Stock plus everything settled orders took is the initial stock, stock never goes
      negative, and a promo code's counter grew by exactly its usage rows. */
  lemma GoodsAreConserved(stock: map<int, int>, promos: map<string, int>, steps: seq<Step>)
    requires forall p :: p in stock ==> stock[p] >= 0
    ensures var db := Run(Genesis(stock, promos), steps);
      && db.stock.Keys == stock.Keys && db.promos.Keys == promos.Keys
      && (forall p :: p in stock ==> db.stock[p] >= 0 && db.stock[p] + SettledQuantity(db.orders, p) == stock[p])
      && (forall c :: c in promos ==> db.promos[c] == promos[c] + Uses(db.usages, c))
  {
    var start := Genesis(stock, promos);
    var db := Run(start, steps);
    GenesisInv(stock, promos);
    RunConserves(start, steps);
    forall p | p in stock ensures db.stock[p] >= 0 && db.stock[p] + SettledQuantity(db.orders, p) == stock[p] {
      assert Balanced(start, db, p);
    }
    forall c | c in promos ensures db.promos[c] == promos[c] + Uses(db.usages, c) {
      assert Counted(start, db, c);
    }
  }
}
