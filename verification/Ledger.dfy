/**
 The tables of the payment ledger (internal/storage/models.go, order_state.go and
 migration 017). A table whose rows are never deleted is a sequence, and a row is
 named by its position; order ids are one-based, as AUTOINCREMENT hands them out.
 */
module Ledger {
  import opened Wrappers

  datatype Provider = Stars | Crypto

  /** Every spelling of a provider a receipt or a refund can carry: the two canonical
      names, the legacy alias "cryptobot", a spelling that only trimming and
      lower-casing turn into a provider, and anything else. */
  datatype ProviderName =
    | Canonical(p: Provider)
    | Cryptobot
    | Spelling(like: Provider)
    | Unsupported
  {
    function Normalized(): Option<Provider> {
      match this
      case Canonical(p) => Some(p)
      case Cryptobot => Some(Crypto)
      case Spelling(p) => Some(p)
      case Unsupported => None
    }
  }

  datatype Currency = XTR | USD | USDT | OtherCurrency(code: string) {
    predicate IsBlank() { OtherCurrency? && Blank(code) }
  }

  /** The sentinel errors of internal/storage/db.go:20-32. An error value is the set of
      sentinels `errors.Is` finds in it: nil is the empty set and `errors.Join` is union. */
  datatype Err =
    | NotFound
    | OrderStatusConflict
    | PaymentIdentityConflict
    | PaymentNeedsReview
    | RefundExceedsPayment
    | InvalidMoney
    | PaymentReceiptMismatch
    | PaymentReviewConflict
    | InvalidSubscriptionCart
    | SubscriptionOrderConflict
    | ProductOutOfStock
    | OtherError

  type Errs = set<Err>

  // ----- orders -----

  datatype Status = Pending | Paid | Delivered | Cancelled
  datatype OrderAxis = Placed | OrderCancelled | Completed
  datatype Fulfillment = Unfulfilled | Fulfilled
  datatype PayState = PayPending | Settled | PartiallyRefunded | Refunded | PayCancelled | NeedsReview

  datatype Item = Item(product: int, quantity: int)

  datatype Order = Order(
    user: int,
    totalUSD: real,
    totalStars: int,
    rail: Option<Provider>,
    paymentID: string,
    status: Status,
    axis: OrderAxis,
    pay: PayState,
    fulfillment: Fulfillment,
    promo: string,
    subProduct: int,
    subDays: int,
    items: seq<Item>)

  // ----- provider facts -----

  datatype AttemptStatus = Observed | Succeeded | Quarantined

  /** A row of payment_attempts. */
  datatype Attempt = Attempt(
    order: int,
    provider: Provider,
    ext: string,
    payer: int,
    amount: int,
    currency: Currency,
    scale: int,
    status: AttemptStatus,
    entitlement: Option<int>,
    at: int)

  datatype EventKind = Captured | RefundedKind
  datatype Disposition = EventObserved | EventSettled | EventNeedsReview

  /** A row of payment_events; `attempt` is payment_attempt_id. */
  datatype Event = Event(
    order: int,
    attempt: Option<nat>,
    provider: Provider,
    kind: EventKind,
    ext: string,
    amount: int,
    currency: Currency,
    scale: int,
    disp: Disposition,
    at: int)

  /** A row of refunds; every row the bot writes has status 'succeeded'. */
  datatype Refund = Refund(
    order: int,
    provider: Provider,
    ext: string,
    parent: string,
    payer: int,
    amount: int,
    currency: Currency,
    scale: int,
    at: int)

  datatype Reason =
    | UnknownOrder
    | ReceiptMismatch
    | IdentityConflict
    | FactMismatch
    | CaptureOnUnresolvedOrder
    | SecondCharge
    | CaptureAfterTerminalState
    | EntitlementConflict
    | RenewalIdentityConflict
    | RenewalEntitlementConflict
    | RenewalOrderStateConflict
    | RefundParentNotFound
    | RefundIdentityConflict
    | RefundExceeds
    | RefundInvalidFact
    | OperatorIngestConflict
    | SoldOut
    | LegacyCaptureUnverifiable
    | OtherReason(text: string)
  {
    predicate IsBlank() { OtherReason? && Blank(text) }
  }

  /** The raw_payload column. */
  datatype Payload =
    | NoPayload
    | EntitlementAt(expiry: int)
    | SubscriptionAt(expires: int)
    | RefundNote(badProvider: bool, noExt: bool, noParent: bool)
    | RawText(text: string)
  {
    predicate IsEmpty() {
      NoPayload? || (RawText? && text == "") || (RefundNote? && !badProvider && !noExt && !noParent)
    }
  }

  /** A row of payment_anomalies. `stamp` is the occurrence time inside the fingerprint
      (absent when the provider gave none), `attached` remembers whether the proposed
      order existed when the row was written; no operation reads `attached`. */
  datatype Anomaly = Anomaly(
    order: int,
    provider: Provider,
    kind: EventKind,
    ext: string,
    related: string,
    payer: int,
    amount: int,
    currency: Currency,
    scale: int,
    payload: Payload,
    reason: Reason,
    stamp: Option<int>,
    at: int,
    attached: bool)

  // ----- operator decisions -----

  datatype ReviewProvider = On(p: Provider) | UnknownProvider
  datatype Decision = Compensated | AcceptedRefund | Dismissed | CancelledOrder

  datatype Target = EventTarget(event: nat) | AnomalyTarget(anomaly: nat) | OrderTarget(order: int)

  /** A row of payment_resolutions; (target_kind, target_id) is unique. */
  datatype Resolution = Resolution(
    order: int,
    provider: ReviewProvider,
    decision: Decision,
    actor: string,
    note: string,
    result: Option<PayState>)

  // ----- subscriptions, stock, promo codes -----

  datatype SubStatus = Active | Canceled | Expired

  /** The subscriptions row of one (user, product) pair. */
  datatype Subscription = Subscription(order: int, charge: string, status: SubStatus, expires: int)

  datatype Usage = Usage(promo: string, user: int, order: int)

  datatype DB = DB(
    orders: seq<Order>,
    attempts: seq<Attempt>,
    events: seq<Event>,
    refunds: seq<Refund>,
    anomalies: seq<Anomaly>,
    resolutions: map<Target, Resolution>,
    subs: map<(int, int), Subscription>,
    stock: map<int, int>,
    promos: map<string, int>,
    usages: seq<Usage>)
  {
    predicate HasOrder(id: int) { 0 < id <= |orders| }

    function Ord(id: int): Order
      requires HasOrder(id)
    {
      orders[id - 1]
    }

    function SetOrder(id: int, o: Order): DB
      requires HasOrder(id)
    {
      this.(orders := orders[id - 1 := o])
    }

    function SetPay(id: int, pay: PayState): DB
      requires HasOrder(id)
    {
      SetOrder(id, Ord(id).(pay := pay))
    }
  }

  /** A database right after the migrations, holding only a catalogue and promo codes. */
  function Genesis(stock: map<int, int>, promos: map<string, int>): DB {
    DB([], [], [], [], [], map[], map[], stock, promos, [])
  }

  // ----- order_state.go -----

  /** `math.Round`: half away from zero. */
  function Round(x: real): int {
    if x >= 0.0 then (x + 0.5).Floor else -((-x + 0.5).Floor)
  }

  datatype Money = Money(amount: int, currency: Currency, scale: int)

  /** What the order costs on one rail; None is ErrInvalidMoney. */
  function OrderMoney(o: Order, p: Provider): Option<Money> {
    match p
    case Stars => if o.totalStars <= 0 then None else Some(Money(o.totalStars, XTR, 0))
    case Crypto => if o.totalUSD <= 0.0 then None else Some(Money(Round(o.totalUSD * 100.0), USD, 2))
  }

  /** A validated capture on its way into the ledger. A missing time is the zero time. */
  datatype Fact = Fact(
    provider: Provider,
    ext: string,
    payer: int,
    amount: int,
    currency: Currency,
    scale: int,
    entitlement: Option<int>,
    at: Option<int>)

  /** validatePaymentFact for a supported provider; the empty set is acceptance. */
  function ValidateFact(o: Order, f: Fact): Errs {
    match OrderMoney(o, f.provider)
    case None => {InvalidMoney}
    case Some(m) =>
      if f.ext == "" || f.amount != m.amount || f.scale != m.scale then {PaymentReceiptMismatch}
      else match f.provider
        case Stars =>
          if f.currency != XTR || (f.payer > 0 && f.payer != o.user) then {PaymentReceiptMismatch} else {}
        case Crypto =>
          if f.currency != USD && f.currency != USDT then {PaymentReceiptMismatch} else {}
  }
}
