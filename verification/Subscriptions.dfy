/** internal/storage/subscription_orders.go: one recurring contract per user and product. */
module Subscriptions {
  import opened Wrappers
  import opened Ledger

  const DAY: int := 86400

  /** The contract a capture asks for. */
  datatype Contract = Contract(user: int, product: int, order: int, charge: string, expires: int)
  {
    function Key(): (int, int) { (user, product) }
  }

  /** Still granting access: a cancelled subscription runs until it expires. */
  predicate Grants(s: Subscription, now: int) {
    s.status != Expired && s.expires > now
  }

  predicate Reserved(db: DB, user: int, product: int, now: int) {
    || ((user, product) in db.subs && Grants(db.subs[(user, product)], now))
    || exists i: nat | i < |db.orders| :: Reserves(db.orders[i], user, product)
  }

  predicate Reserves(o: Order, user: int, product: int) {
    o.user == user && o.subProduct == product && o.status == Pending
  }

  /** validateSubscriptionSettlement. */
  predicate Settles(o: Order, id: int, p: Provider, ext: string, c: Contract) {
    && p == Stars && ext != "" && o.subProduct > 0 && o.subDays > 0
    && c.user == o.user && c.product == o.subProduct && c.order == id && c.charge == ext
  }

  /** activateSubscriptionTx; None is ErrSubscriptionOrderConflict. */
  function Activate(subs: map<(int, int), Subscription>, c: Contract, now: int): Option<map<(int, int), Subscription>> {
    var replaced := subs[c.Key() := Subscription(c.order, c.charge, Active, c.expires)];
    if c.Key() !in subs then Some(replaced)
    else
      var s := subs[c.Key()];
      if s.order == c.order && s.charge == c.charge then Some(subs)
      else if Grants(s, now) then None
      else Some(replaced)
  }

  /** The latest expiry one renewal may buy. */
  function RenewalLimit(s: Subscription, days: int, now: int): int {
    (if now > s.expires then now else s.expires) + days * DAY + DAY
  }

  /** renewSubscriptionTx; None is ErrSubscriptionOrderConflict. */
  function Extend(subs: map<(int, int), Subscription>, c: Contract, days: int, replay: bool, now: int):
    Option<map<(int, int), Subscription>>
  {
    if c.Key() !in subs then None
    else
      var s := subs[c.Key()];
      if s.status != Active || s.order != c.order then None
      else if c.expires <= s.expires then if replay then Some(subs) else None
      else if days <= 0 || c.expires <= now || c.expires > RenewalLimit(s, days, now) then None
      else Some(subs[c.Key() := s.(expires := c.expires)])
  }
}
