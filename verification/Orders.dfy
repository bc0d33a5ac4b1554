/**
 internal/storage/orders.go and the renewal half of payment_recording.go: the order
 transactions. A pair (db', errs) is one SQL transaction; db' == db is a rollback.
 */
module Orders {
  import opened Wrappers
  import opened Ledger
  import opened Tables
  import opened Anomalies
  import opened Recording
  import opened Subscriptions

  // ----- create, cancel, deliver -----

  datatype Draft = Draft(
    user: int, totalUSD: real, totalStars: int, promo: string, subProduct: int, subDays: int, items: seq<Item>)

  function OrderOf(d: Draft): Order {
    Order(d.user, d.totalUSD, d.totalStars, None, "", Pending, Placed, PayPending, Unfulfilled,
          d.promo, d.subProduct, d.subDays, d.items)
  }

  /** createOrderOnce for the pending orders the shop creates. */
  function CreateOrder(db: DB, d: Draft, now: int): (DB, Errs) {
    if d.subProduct != 0 && (d.subDays <= 0 || |d.items| != 1 || d.items[0] != Item(d.subProduct, 1)) then
      (db, {InvalidSubscriptionCart})
    else if d.subProduct != 0 && Reserved(db, d.user, d.subProduct, now) then
      (db, {SubscriptionOrderConflict})
    else
      (db.(orders := db.orders + [OrderOf(d)]), {})
  }

  function CancelOrder(db: DB, id: int, user: int): (DB, Errs) {
    if db.HasOrder(id) && db.Ord(id).user == user && db.Ord(id).status == Pending && db.Ord(id).pay == PayPending then
      (db.SetOrder(id, db.Ord(id).(status := Cancelled, axis := OrderCancelled, pay := PayCancelled, fulfillment := Unfulfilled)), {})
    else
      (db, {NotFound})
  }

  /** UpdateOrderStatus from paid to delivered. */
  function Deliver(db: DB, id: int): (DB, Errs) {
    if db.HasOrder(id) && db.Ord(id).status == Paid
       && (db.Ord(id).pay == Settled || db.Ord(id).pay == PartiallyRefunded) then
      (db.SetOrder(id, db.Ord(id).(status := Delivered, axis := Completed, fulfillment := Fulfilled)), {})
    else
      (db, {OrderStatusConflict})
  }

  // ----- settlement -----

  /** The stock loop: every line must be covered or nothing is taken. */
  function TakeStock(stock: map<int, int>, items: seq<Item>): Option<map<int, int>> {
    if |items| == 0 then Some(stock)
    else
      match TakeStock(stock, items[..|items| - 1])
      case None => None
      case Some(left) =>
        var line := items[|items| - 1];
        if line.product in left && left[line.product] >= line.quantity
        then Some(left[line.product := left[line.product] - line.quantity])
        else None
  }

  predicate HasUsage(rows: seq<Usage>, promo: string, user: int) {
    exists i: nat | i < |rows| :: rows[i].promo == promo && rows[i].user == user
  }

  /** A promo code counts one use per user, and only if it still exists. */
  function UsePromo(db: DB, id: int): DB
    requires db.HasOrder(id)
  {
    var o := db.Ord(id);
    if o.promo == "" || o.promo !in db.promos || HasUsage(db.usages, o.promo, o.user) then db
    else db.(usages := db.usages + [Usage(o.promo, o.user, id)],
             promos := db.promos[o.promo := db.promos[o.promo] + 1])
  }

  /** A transaction that may also have completed the fact it was given. */
  datatype Settlement = Settlement(db: DB, errs: Errs, fact: Fact)

  function FillEntitlement(db: DB, i: nat, expiry: int): DB
    requires i < |db.attempts|
  {
    db.(attempts := db.attempts[i := db.attempts[i].(entitlement := Some(expiry))])
  }

  /** observePayment on an identity the ledger already holds. */
  function ObserveExisting(db: DB, id: int, i: nat, f: Fact, expiry: Option<int>): (DB, Errs)
    requires i < |db.attempts|
  {
    var a := db.attempts[i];
    if a.order != id then (db, {PaymentIdentityConflict})
    else if a.amount != f.amount || a.currency != f.currency || a.scale != f.scale || a.status != Succeeded
         || (f.payer > 0 && a.payer != f.payer) || (f.at.Some? && a.at != f.at.value) then
      (db, {PaymentIdentityConflict})
    else if expiry.Some? && a.entitlement.Some? && a.entitlement != expiry then (db, {PaymentIdentityConflict})
    else if expiry.Some? && a.entitlement.None? then (FillEntitlement(db, i, expiry.value), {OrderStatusConflict})
    else (db, {OrderStatusConflict})
  }

  /** observePayment: the capture is inserted as observed, or meets its own identity. */
  function Observe(db: DB, id: int, f: Fact, expiry: Option<int>, now: int): (DB, Errs) {
    match FindAttempt(db.attempts, f.provider, f.ext)
    case Some(i) => ObserveExisting(db, id, i, f, expiry)
    case None => (InsertCapture(db, AttemptOf(id, f, Observed, expiry, now), EventObserved), {})
  }

  /** markPaymentSettled on the row `Observe` has just appended. */
  function MarkSettled(db: DB): DB
    requires |db.attempts| > 0 && |db.events| > 0
  {
    var i, e := |db.attempts| - 1, |db.events| - 1;
    db.(attempts := db.attempts[i := db.attempts[i].(status := Succeeded)],
        events := db.events[e := db.events[e].(disp := EventSettled)])
  }

  function SettledOrder(o: Order, f: Fact): Order {
    o.(status := Paid, axis := Placed, pay := Settled, fulfillment := Unfulfilled,
       rail := Some(f.provider), paymentID := f.ext)
  }

  /** The order's own charge came back after it was settled: repair the entitlement
      and nothing else. */
  predicate ReplaysSettlement(o: Order, f: Fact) {
    && (o.status == Paid || o.status == Delivered)
    && (o.pay == Settled || o.pay == PartiallyRefunded)
    && o.rail == Some(f.provider) && o.paymentID == f.ext
  }

  function PersistedExpiry(db: DB, id: int, f: Fact): Option<int> {
    match FindAttempt(db.attempts, f.provider, f.ext)
    case None => None
    case Some(i) =>
      if db.attempts[i].order == id && db.attempts[i].status == Succeeded then db.attempts[i].entitlement else None
  }

  /** The conflict branch of updateOrderStatusOnce (orders.go:400-450). */
  function SettleReplay(db: DB, id: int, f: Fact, c: Option<Contract>, now: int): Settlement
    requires db.HasOrder(id)
  {
    var o := db.Ord(id);
    var own := o.rail == Some(f.provider) && o.paymentID == f.ext;
    if c.Some? && ReplaysSettlement(o, f) then
      var persisted := PersistedExpiry(db, id, f);
      if persisted.Some? && f.entitlement.Some? && f.entitlement != persisted then
        Settlement(db, {PaymentIdentityConflict}, f)
      else
        var c' := if persisted.Some? then c.value.(expires := persisted.value) else c.value;
        var f' := if persisted.Some? then f.(entitlement := persisted) else f;
        match Activate(db.subs, c', now)
        case None => Settlement(db, {SubscriptionOrderConflict}, f')
        case Some(subs) =>
          var (db', errs) := Observe(db.(subs := subs), id, f', Some(c'.expires), now);
          if errs == {} || errs == {OrderStatusConflict} then Settlement(db', {OrderStatusConflict}, f')
          else Settlement(db, errs, f')
    else
      var (_, errs) := if own then Observe(db, id, f, if c.Some? then Some(c.value.expires) else None, now) else (db, {});
      Settlement(db, if errs == {} then {OrderStatusConflict} else errs, f)
  }

  /** The settling branch of updateOrderStatusOnce (orders.go:452-603). */
  function SettleFresh(db: DB, id: int, f: Fact, c: Option<Contract>, now: int): (DB, Errs)
    requires db.HasOrder(id)
  {
    var (seen, errs) := Observe(db, id, f, if c.Some? then Some(c.value.expires) else None, now);
    if errs != {} then (db, errs)
    else
      var paid := MarkSettled(seen).SetOrder(id, SettledOrder(db.Ord(id), f));
      match TakeStock(db.stock, db.Ord(id).items)
      case None => (db, {ProductOutOfStock})
      case Some(stock) =>
        var used := UsePromo(paid.(stock := stock), id);
        if c.None? then (used, {})
        else match Activate(db.subs, c.value, now)
          case None => (db, {SubscriptionOrderConflict})
          case Some(subs) => (used.(subs := subs), {})
  }

  /** updateOrderStatusOnce from pending to paid. */
  function SettleOnce(db: DB, id: int, f: Fact, c: Option<Contract>, now: int): Settlement {
    if !db.HasOrder(id) then Settlement(db, {OrderStatusConflict}, f)
    else if c.Some? && !Settles(db.Ord(id), id, f.provider, f.ext, c.value) then
      Settlement(db, {PaymentReceiptMismatch}, f)
    else if ValidateFact(db.Ord(id), f) != {} then Settlement(db, ValidateFact(db.Ord(id), f), f)
    else if db.Ord(id).status != Pending || db.Ord(id).pay != PayPending then SettleReplay(db, id, f, c, now)
    else
      var (db', errs) := SettleFresh(db, id, f, c, now);
      Settlement(db', errs, f)
  }

  /** updateOrderStatus (orders.go:297): a refused capture is recorded before returning. */
  function Settle(db: DB, id: int, f: Fact, c: Option<Contract>, now: int): (DB, Errs) {
    var s := SettleOnce(db, id, f, c, now);
    if PaymentIdentityConflict in s.errs then
      var (db', errs) := RecordAnomaly(s.db, AnomalyFromFact(id, s.fact, IdentityConflict), now);
      (db', {PaymentIdentityConflict} + if PaymentNeedsReview in errs then {} else errs)
    else if SubscriptionOrderConflict in s.errs && c.Some? then
      var (db', errs) := RecordUnexpected(s.db, id, s.fact, EntitlementConflict, now);
      if errs == {} then (db', {})
      else if PaymentNeedsReview in errs then (db', {PaymentNeedsReview})
      else (db', {PaymentNeedsReview} + errs)
    else (s.db, s.errs)
  }

  // ----- renewal -----

  /** recordSubscriptionRenewalOnce on a charge the ledger already holds. */
  function RenewExisting(db: DB, id: int, i: nat, f: Fact, c: Contract, now: int): (DB, Errs)
    requires db.HasOrder(id) && i < |db.attempts| && f.entitlement.Some?
  {
    var a := db.attempts[i];
    if a.order != id || a.amount != f.amount || a.currency != f.currency || a.scale != f.scale
       || (f.payer > 0 && a.payer != f.payer) || (f.at.Some? && a.at != f.at.value)
       || (a.entitlement.Some? && a.entitlement != f.entitlement) then
      (db, {PaymentIdentityConflict})
    else if a.entitlement.None? && a.status == Quarantined then
      (FillEntitlement(db, i, f.entitlement.value), {PaymentNeedsReview})
    else if a.status == Quarantined then
      (db, if ResolvedCapture(db, i) then {} else {PaymentNeedsReview})
    else if a.status != Succeeded then (db, {PaymentIdentityConflict})
    else match Extend(db.subs, c, db.Ord(id).subDays, true, now)
      case None => (db, {SubscriptionOrderConflict})
      case Some(subs) =>
        (if a.entitlement.None? then FillEntitlement(db.(subs := subs), i, c.expires) else db.(subs := subs), {})
  }

  /** A renewal charge seen for the first time. */
  function RenewFresh(db: DB, id: int, f: Fact, c: Contract, now: int): (DB, Errs)
    requires db.HasOrder(id)
  {
    match Extend(db.subs, c, db.Ord(id).subDays, false, now)
    case None => (db, {SubscriptionOrderConflict})
    case Some(subs) =>
      var pay := if OrderRefunded(db.refunds, id, f.provider) > 0 then PartiallyRefunded else Settled;
      (InsertCapture(db, AttemptOf(id, f, Succeeded, Some(c.expires), now), EventSettled).(subs := subs).SetPay(id, pay), {})
  }

  function RenewOnce(db: DB, id: int, f: Fact, c: Contract, now: int): (DB, Errs) {
    if f.provider != Stars || f.ext == "" || f.entitlement.None? then (db, {PaymentReceiptMismatch})
    else if !db.HasOrder(id) then (db, {NotFound})
    else
      var o := db.Ord(id);
      if (o.status != Paid && o.status != Delivered)
         || (o.pay != Settled && o.pay != PartiallyRefunded && o.pay != Refunded) then (db, {OrderStatusConflict})
      else if ValidateFact(o, f) != {} then (db, ValidateFact(o, f))
      else if f.entitlement != Some(c.expires) || !Settles(o, id, f.provider, f.ext, c) then (db, {PaymentReceiptMismatch})
      else match FindAttempt(db.attempts, f.provider, f.ext)
        case Some(i) => RenewExisting(db, id, i, f, c, now)
        case None => RenewFresh(db, id, f, c, now)
  }

  /** The reason a refused renewal is quarantined under, if it is. */
  function RenewalReason(errs: Errs): Option<Reason> {
    if PaymentIdentityConflict in errs then Some(RenewalIdentityConflict)
    else if SubscriptionOrderConflict in errs then Some(RenewalEntitlementConflict)
    else if OrderStatusConflict in errs then Some(RenewalOrderStateConflict)
    else None
  }

  /** RecordSubscriptionRenewalFact (payment_recording.go:176). */
  function Renew(db: DB, id: int, f: Fact, c: Contract, now: int): (DB, Errs) {
    if !db.HasOrder(id) then (db, {NotFound})
    else if ValidateFact(db.Ord(id), f) != {} then (db, ValidateFact(db.Ord(id), f))
    else if f.entitlement != Some(c.expires) then (db, {PaymentReceiptMismatch})
    else
      var (once, errs) := RenewOnce(db, id, f, c, now);
      match RenewalReason(errs)
      case None => (once, errs)
      case Some(reason) =>
        var (db', recordErrs) := RecordUnexpected(once, id, f, reason, now);
        var kept := if reason == RenewalIdentityConflict then PaymentIdentityConflict else PaymentNeedsReview;
        if recordErrs == {} then (db', {})
        else if PaymentNeedsReview in recordErrs then (db', {kept})
        else (db', {kept} + recordErrs)
  }
}
