/** internal/shop/order.go: what the shop checks before it asks the store to move money. */
module Shop {
  import opened Wrappers
  import opened Ledger
  import opened Anomalies
  import opened Subscriptions

  /** PaymentReceipt. */
  datatype Receipt = Receipt(
    order: int,
    name: ProviderName,
    ext: string,
    payer: int,
    currency: Currency,
    amount: int,
    scale: int,
    at: Option<int>,
    expires: Option<int>)

  /** The rail of the provider switch (order.go:297-313); other names are refused. */
  function RailOf(name: ProviderName): Option<Provider> {
    match name
    case Canonical(p) => Some(p)
    case Cryptobot => Some(Crypto)
    case _ => None
  }

  /** The receipt pays exactly this order. */
  predicate Accepts(o: Order, r: Receipt, p: Provider) {
    r.amount > 0 && r.ext != "" && match p
    case Stars => r.payer == o.user && r.currency == XTR && r.amount == o.totalStars && r.scale == 0
    case Crypto =>
      (r.currency == USD || r.currency == USDT) && r.amount == Round(o.totalUSD * 100.0) && r.scale == 2
  }

  /** paymentFactFromReceipt, with the provider already normalised. */
  function FactOf(r: Receipt, p: Provider): Fact {
    Fact(p, r.ext, r.payer, r.amount, r.currency, r.scale, r.expires, r.at)
  }

  /** subscriptionFromReceipt (order.go:468); None is ErrPaymentReceiptMismatch. */
  function ContractOf(o: Order, r: Receipt, fallback: bool, now: int): Option<Contract> {
    if o.subProduct <= 0 || o.subDays <= 0 || r.name != Canonical(Stars) || r.ext == "" then None
    else
      var expires := if r.expires.Some? then r.expires
                     else if fallback && r.at.Some? then Some(r.at.value + o.subDays * DAY)
                     else None;
      if expires.None? || expires.value <= now || expires.value > now + 2 * o.subDays * DAY + DAY then None
      else Some(Contract(o.user, o.subProduct, r.order, r.ext, expires.value))
  }

  /** What ConfirmPaymentReceipt asks the store to settle, if it asks at all. */
  datatype Request = Request(fact: Fact, contract: Option<Contract>)

  function RequestOf(o: Order, r: Receipt, now: int): Option<Request> {
    match RailOf(r.name)
    case None => None
    case Some(p) =>
      if !Accepts(o, r, p) then None
      else if o.subProduct <= 0 then Some(Request(FactOf(r, p), None))
      else if ContractOf(o, r, true, now).None? then None
      else Some(Request(FactOf(r, p), ContractOf(o, r, true, now)))
  }

  /** The renewal checks of RecordSubscriptionRenewal (order.go:443-451). */
  predicate AcceptsRenewal(o: Order, r: Receipt, now: int) {
    && r.name == Canonical(Stars) && r.payer == o.user && r.currency == XTR && r.amount == o.totalStars
    && r.scale == 0 && r.ext != "" && (o.status == Paid || o.status == Delivered)
    && o.subProduct > 0 && o.subDays > 0 && r.expires.Some?
    && ContractOf(o, r, false, now).Some?
  }

  /** quarantineReceipt (order.go:380): the receipt as an anomaly. */
  function AnomalyOf(r: Receipt, reason: Reason): AnomalyFact {
    AnomalyFact(r.order, r.name.Normalized(), Captured, r.ext, "", r.payer, r.amount, r.currency, r.scale, false,
                if r.expires.Some? then SubscriptionAt(r.expires.value) else NoPayload, reason, r.at)
  }

  /** quarantineReceipt: an anomaly already resolved still reads as "needs review". */
  function QuarantineReceipt(db: DB, r: Receipt, reason: Reason, now: int): (DB, Errs) {
    var (db', errs) := RecordAnomaly(db, AnomalyOf(r, reason), now);
    (db', if errs == {} then {PaymentNeedsReview} else errs)
  }
}
