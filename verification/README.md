# Payment ledger of the Telegram shop bot, verified

This project models the money side of the shop bot: the payment ledger its SQLite store
keeps, the order service that confirms provider receipts against it, the CryptoBot poll
that feeds it, the reconciliation and revenue views that read it, the exact decimal parser
in front of it and the Telegram update loop that must not lose a payment.

**The ledger.** `Ledger.dfy` holds the tables as one value: orders, payment attempts,
payment events, refunds, anomalies, operator resolutions, subscriptions, stock and promo
codes. One SQL transaction is one step, because `_txlock=immediate` serialises writers.
Each transaction has a specification function from a ledger to a ledger and an error set
(`Anomalies`, `Recording`, `Subscriptions`, `Orders`, `Refunds`, `Reviews`), and a method of
the class `Store.LedgerStore` that updates the tables in place, statement by statement, and
is proved to do exactly that. `Service.OrderService` drives the store as the shop does,
with any run of other transactions between its own. An error value is the set of sentinels
`errors.Is` finds in it; nil is the empty set.

**The invariant.** `Invariant.Inv` has four parts that only hold together: the books
(double entry and bounded refunds), quarantine (an unresolved target holds its order under
review), resolutions (what is resolved is compensated) and projections (an order's payment
state tells the truth about its money). `Effects`, `RefundEffects`, `ReviewEffects` and
`OrderEffects` prove it of every transaction, `History` that nothing is ever taken back,
`Runs` of every run from a fresh database. `LedgerTheorems`, `Conservation`, `Confirmation`,
`Outcomes`, `Access` and `AccessBound` draw the consequences; `Limits` and `Dismissals` say
where the promises stop, and exactly where, and `Witnesses` runs that get there.

**Around the ledger.** `Invoices` and `Polling` prove that the sliding poll window skips no
invoice and that what it handled is in the ledger. `Reconcile` and `Paging` prove that a
green report means equal ledgers and that a bounded page loop says "complete" only when it
was. `Analytics` proves that three SQL aggregates are one sum. `Decimals` proves the amount
parsers exact, `Ingress` the operator previews, `UpdateLoop` the offset barrier.

## What the proofs found

Each finding has its exact condition and, where it is about the ledger or the poll, a run
from an empty database that gets there (`Limits`, `Witnesses`, `Polling`).

* A paid order can be cancelled without a refund. The fingerprint of an anomaly leaves out
  the order it proposes, so a stored fact redelivered under another order puts that order
  under review without a target of its own; a dismissal for the provider `unknown`, meant for
  imported rows, then cancels it (`Limits.PaidIsLostExactly`, run: `Limits.APaidOrderIsLost`).
* Such a cancelled order can later read `refunded` or `partially_refunded`: some step takes it
  to a state other than `cancelled` and `needs_review` if and only if one of its captures is
  not fully refunded (`Dismissals.WrittenOffMovesExactly`, run:
  `Witnesses.ADismissedOrderIsRefunded`). Even then the state says exactly what was refunded
  (`LedgerTheorems.ProjectionIsTruthful`).
* A subscription order can be confirmed twice, exactly when its own charge is redelivered
  while another contract has taken its subscription row (`Limits.ConfirmedAgainExactly`, run:
  `Witnesses.AChargeIsConfirmedAgain`). Orders without a subscription cannot
  (`Outcomes.OneOutcomePerOrder`).
* A full refund rolls back the subscription row of the user and product, whichever order
  owns it: refunding an old order ends access a newer order paid for
  (`Access.OldRefundEndsNewContract`, run: `Witnesses.AnOldRefundEndsALiveContract`).
* A quarantined capture recorded without an expiry can gain one from a later renewal; the
  fact an operator disposed of is then no longer exact (`LedgerTheorems.DecisionsAreFinal` is
  an equivalence for this reason, run: `Witnesses.ADecisionIsUndone`).
* A fact that disagrees with a disposed capture is dropped without a trace when it is proposed
  under another order whose terms it does not meet
  (`LedgerTheorems.DisagreementIsKept`, run: `Witnesses.AForeignDisagreementIsDropped`).
* The poll skips rows once more than one window of invoices arrives between two head
  refreshes, unless the tail window makes up for it (`Polling.NothingSkippedExactly`, run:
  `Polling.APaidInvoiceIsSkipped`).
* The refund preview announces a quarantine for captures without a recorded payer, which the
  store then applies; CryptoBot captures never have one (`Ingress.QuarantinePreviewIsExact`,
  run: `Witnesses.AnAnnouncedQuarantineIsApplied`).
* A batch of a hundred undecodable updates that are no payments is fetched again for ever, and
  nothing behind it is handled (`UpdateLoop.JammedExactly`, `UpdateLoop.BrokenBatchJams`).

## Model

| member | source | states |
|---|---|---|
| `Store.LedgerStore.RecordPaymentAnomaly` | `internal/storage/payment_anomalies.go:22-182` | the quarantine inbox writes a new fact once, meets its own row again on a retry, puts a known order under review unless the fact was resolved, and refuses a retry whose time disagrees |
| `Store.LedgerStore.InsertAttempt` | `internal/storage/order_ledger_helpers.go:23-110` | a capture and its captured event enter together, with the same identity and money |
| `Store.LedgerStore.ObservePayment` | `internal/storage/order_ledger_helpers.go:23-114` | a capture is inserted as observed, or meets its own identity: another order, other money, payer or time is an identity conflict, an exact replay is a status conflict that may fill in a missing expiry |
| `Store.LedgerStore.MarkPaymentSettled` | `internal/storage/order_ledger_helpers.go:116-127` | the attempt just observed becomes succeeded and its event settled, nothing else changes |
| `Store.LedgerStore.RecordUnexpectedCapture` | `internal/storage/payment_recording.go:449-634` | a capture that cannot be applied becomes a quarantined attempt with its order under review; an exact replay of a settled or resolved capture is silent; any disagreement becomes an anomaly |
| `Store.LedgerStore.RecordUnexpectedPaymentFact` | `internal/storage/payment_recording.go:38-137` | a resolved capture redelivered exactly is silent, redelivered otherwise becomes an anomaly; other facts are validated against the order before they are recorded |
| `Store.LedgerStore.RecordSubscriptionRenewalOnce` | `internal/storage/payment_recording.go:246-411` | a first renewal charge extends the contract and is entered as settled; a charge already held extends at most its recorded period, or reports review or conflict |
| `Store.LedgerStore.RenewAgain` | `internal/storage/payment_recording.go:289-357` | a renewal charge the ledger holds: conflicts on other money, payer, time or expiry, fills a missing expiry once, stays quarantined until resolved |
| `Store.LedgerStore.RenewFirst` | `internal/storage/payment_recording.go:358-410` | a first renewal writes attempt, event, subscription and the order projection together or not at all |
| `Store.LedgerStore.RecordSubscriptionRenewalFact` | `internal/storage/payment_recording.go:176-244` | a refused renewal is recorded as an unexpected capture under the reason its error names, and the error kept is the one callers act on |
| `Store.LedgerStore.IngestProviderCapture` | `internal/storage/payment_ingress.go:118-177` | an operator can enter an authoritative capture only as a replay, a quarantined capture or an anomaly |
| `Store.LedgerStore.ActivateSubscription` | `internal/storage/subscription_orders.go:54-93` | a contract is opened, met again, or refused while another one still grants access |
| `Store.LedgerStore.RenewSubscription` | `internal/storage/subscription_orders.go:95-135` | an active contract of the same order is extended by at most one period and a day past the later of now and its expiry |
| `Store.LedgerStore.CreatePendingOrder` | `internal/storage/orders.go:43-110` | a subscription cart must be one line of one, and is refused while access or a pending order reserves it; otherwise one pending order is appended under the next id |
| `Store.LedgerStore.CancelPendingOrder` | `internal/storage/orders.go:629-658` | only the buyer, and only while status and payment state are pending |
| `Store.LedgerStore.DeliverOrder` | `internal/storage/orders.go:455-490` | only a paid order that is settled or partially refunded is delivered, and keeps its payment state |
| `Store.LedgerStore.DecrementStock` | `internal/storage/orders.go:542-560` | every line is covered and taken in full, or the loop fails at the first line that is not |
| `Store.LedgerStore.CountPromo` | `internal/storage/orders.go:562-590` | one usage row and one count per user and existing code |
| `Store.LedgerStore.SettlePending` | `internal/storage/orders.go:467-603` | capture, order, stock, promo and contract commit together; any refusal rolls all of it back |
| `Store.LedgerStore.SettleAgain` | `internal/storage/orders.go:400-450` | an order that is no longer payable only has the entitlement of its own exact charge repaired; a failed observation rolls the repair back |
| `Store.LedgerStore.UpdateOrderStatusOnce` | `internal/storage/orders.go:362-603` | which of the two settlements runs, and what is refused before either |
| `Store.LedgerStore.UpdateOrderStatus` | `internal/storage/orders.go:297-360` | an identity conflict is recorded as an anomaly and a contract conflict as an unexpected capture before the error is returned |
| `Store.LedgerStore.ReconcileRefundedEntitlement` | `internal/storage/ledger.go:391-464` | after a full refund the row moves to the latest period still held, or ends by now; a missing row is suspicious |
| `Store.LedgerStore.CommitRefund` | `internal/storage/ledger.go:299-383` | refund row, refunded event, entitlement and order projection are written together |
| `Store.LedgerStore.RecordRefundOnce` | `internal/storage/ledger.go:233-389` | a refund needs a captured parent of the same order, currency and scale, is idempotent for the same facts, and may not exceed what is left |
| `Store.LedgerStore.RecordProviderRefund` | `internal/storage/ledger.go:148-231` | a refused refund leaves an anomaly under the reason its error names |
| `Store.LedgerStore.IngestProviderRefund` | `internal/storage/ledger.go:127-146` | an operator-entered refund names the paying user and a time, and a Stars refund its own charge |
| `Store.LedgerStore.DecideTargets` | `internal/storage/payment_resolutions.go:271-278` | the whole request is refused unless the ledger supports a decision for every target |
| `Store.LedgerStore.InsertResolutions` | `internal/storage/payment_resolutions.go:300-309` | one resolution row per decided target, and no other |
| `Store.LedgerStore.CloseReview` | `internal/storage/payment_resolutions.go:279-343` | the order leaves review only into the projection the ledger derives and the operator named, and stays while another rail is open; a mismatch rolls back |
| `Store.LedgerStore.ResolvePaymentReview` | `internal/storage/payment_resolutions.go:218-343` | an exact batch replay is silent, the named ids must be the whole case, and an order that is not under review is refused |
| `Store.StockShort` | `internal/storage/orders.go:548-558` | a line that cannot be covered fails the whole list, whatever follows it |
| `Service.OrderService.Transact` | `internal/storage/db.go:115-123` | every transaction of the live system, run against the store, keeps the ledger invariant and only extends the ledger |
| `Service.OrderService.OtherWriters` | `internal/storage/db.go:115-123` | serialised writers in between are a run of such transactions |
| `Service.OrderService.ConfirmPaymentReceipt` | `internal/shop/order.go:286-371` | the store after a confirmation with other writers between its reads and writes, and the error reported |
| `Service.OrderService.ReviewConflict` | `internal/shop/order.go:350-370` | after a status conflict the reloaded order decides between an exact replay, a second charge and a charge after a terminal state |
| `Service.OrderService.HandlePaidReceipt` | `worker/polling.go:222-251` | a receipt that states a fact is in the ledger afterwards, sold-out orders included |
| `Service.OrderService.RecordSubscriptionRenewal` | `internal/shop/order.go:433-466` | the store after a renewal receipt, with other writers before its transaction |
| `Tables.ExchangeLaw` | `internal/storage/ledger.go:336-367` | summing an order's refunds directly is summing them capture by capture |
| `Tables.ClosedSums` | `internal/storage/ledger.go:336-367` | an order's refunds equal its captures exactly when each capture is refunded in full |
| `Tables.PositiveSums` | `internal/storage/payment_recording.go:390-399` | an order has refunds exactly when one of its captures has |
| `Anomalies.FindAnomaly` | `internal/storage/payment_anomalies.go:40-80` | a retry meets the row with its own fingerprint, or without a time the oldest row that agrees |
| `Refunds.LatestOpenPeriod` | `internal/storage/ledger.go:408-421` | the latest expiry among settled captures that are not fully refunded |
| `Invariant.ClosedOutsideReview` | `internal/storage/payment_resolutions.go:759-774` | outside review a quarantined capture is refunded exactly to its amount |
| `Invariant.GenesisInv` | `internal/storage/migrations/017_commerce_ledger.sql:146-260` | a freshly migrated database satisfies the ledger invariant |
| `Effects.RecordAnomalyInv` | `internal/storage/payment_anomalies.go:22-182` | quarantining a fact keeps the invariant |
| `Effects.CaptureInv` | `internal/storage/order_ledger_helpers.go:23-127` | entering a capture with its event keeps the invariant, whatever the projection it is entered with |
| `Effects.EntitlementInv` | `internal/storage/order_ledger_helpers.go:86-108` | filling a missing expiry keeps the invariant |
| `OrderEffects.CreateOrderInv` | `internal/storage/orders.go:43-110` | a new order keeps the invariant: no anomaly, event or capture is its own yet |
| `OrderEffects.CancelOrderInv` | `internal/storage/orders.go:629-658` | cancelling keeps the invariant |
| `OrderEffects.DeliverInv` | `internal/storage/orders.go:455-490` | delivering keeps the invariant |
| `OrderEffects.RecordUnexpectedInv` | `internal/storage/payment_recording.go:38-137` | recording an unexpected capture keeps the invariant |
| `OrderEffects.IngestCaptureInv` | `internal/storage/payment_ingress.go:118-177` | operator ingress of a capture keeps the invariant |
| `OrderEffects.OwnCharge` | `internal/storage/orders.go:410-420` | the charge on a settled order is found as a settled capture of that order |
| `OrderEffects.SettleFreshShape` | `internal/storage/orders.go:467-603` | a first settlement is all or nothing: refused, it leaves the ledger as it was; confirmed, it adds exactly one settled capture with its event and marks exactly this order |
| `OrderEffects.SettleInv` | `internal/storage/orders.go:297-603` | settling, replaying and refusing a payment keep the invariant |
| `OrderEffects.RenewInv` | `internal/storage/payment_recording.go:176-411` | a renewal keeps the invariant, including the projection it derives from the refunds |
| `RefundEffects.RecordRefundInv` | `internal/storage/ledger.go:148-389` | a refund keeps the invariant: sums stay bounded and the projection follows them |
| `ReviewEffects.ResolveInv` | `internal/storage/payment_resolutions.go:218-343` | an operator decision keeps the invariant, above all that what is resolved is compensated |
| `ReviewEffects.NothingOpen` | `internal/storage/payment_resolutions.go:594-611` | when the named case was the whole rail and no other rail is open, nothing of the order is left open |
| `ReviewEffects.DerivedOK` | `internal/storage/payment_resolutions.go:681-735` | the projection derived from the ledger is one the ledger justifies |
| `History.SettleExtends` | `internal/storage/orders.go:297-603` | a settlement takes nothing back |
| `History.RenewExtends` | `internal/storage/payment_recording.go:176-411` | a renewal takes nothing back |
| `History.RecordRefundExtends` | `internal/storage/ledger.go:148-389` | a refund takes nothing back |
| `History.ResolveExtends` | `internal/storage/payment_resolutions.go:218-343` | a decision overwrites no decision and takes nothing back |
| `Runs.StepKeeps` | `internal/storage/migrations/018_provider_fact_immutability.sql:1-16` | no transaction breaks the invariant or takes a ledger row back |
| `Runs.RunKeeps` | `internal/storage/db.go:115-123` | nor does any interleaving of transactions |
| `Runs.ReachableInv` | `internal/storage/db.go:115-123` | every ledger reachable from a fresh database satisfies the invariant |
| `LedgerTheorems.QuarantineIsSound` | `internal/storage/payment_recording.go:449-634` | an unresolved event, or an unresolved anomaly recorded while its order existed, holds the order in review; outside review every quarantined capture is refunded to its amount |
| `LedgerTheorems.BooksBalance` | `internal/storage/ledger.go:256-335` | every capture and refund has exactly one event with equal money, no capture is over-refunded, none is left observed, and captured minus refunded is never negative on any rail |
| `LedgerTheorems.FactsAreForever` | `internal/storage/migrations/018_provider_fact_immutability.sql:1-16` | identity, money and status of a capture, and every event, refund, anomaly and decision, survive every further run |
| `LedgerTheorems.ProjectionIsTruthful` | `internal/storage/ledger.go:336-367` | an order's payment state says what its money justifies, whatever its status: a pending order is pending or in review, a cancelled one cancelled or in review, and every other state of a settled order, cancelled later or not, is settled only if nothing was refunded, refunded if and only if everything captured was, partially refunded only strictly in between |
| `LedgerTheorems.PaidOrdersAreFunded` | `internal/storage/orders.go:467-505` | a paid or delivered order's charge is a settled capture of that very order |
| `LedgerTheorems.ChargesAreNotShared` | `internal/storage/order_ledger_helpers.go:57-86` | no two paid orders share a provider charge |
| `LedgerTheorems.AtMostOneOutcome` | `internal/storage/orders.go:297-603` | under every interleaving the settlement transaction of an order without a subscription confirms at most once |
| `LedgerTheorems.OnlyDecisionsEndReview` | `internal/storage/payment_resolutions.go:218-343` | an order leaves review only by a decision that names exactly the unresolved targets of its rail, and then no rail has any left |
| `LedgerTheorems.OnlyDismissalUnpays` | `internal/storage/payment_resolutions.go:613-635` | a paid order loses its status only to a provider-neutral dismissal while nothing of its own is unresolved |
| `LedgerTheorems.DecisionsAreFinal` | `internal/storage/payment_recording.go:101-137` | after any further run, redelivering the fact of a disposed capture is silent if and only if the stored expiry is still the fact's, which is always so when it was recorded |
| `LedgerTheorems.NoEntryPointReopens` | `internal/storage/payment_recording.go:478-514` | ingress, settlement and renewal are silent on such a fact as well |
| `LedgerTheorems.DisagreementIsKept` | `internal/storage/payment_recording.go:44-79` | a fact that disagrees with a disposed capture, proposed under any order, is in the inbox afterwards if and only if it was there before, the order is the capture's own, or the fact meets that order's terms; otherwise nothing is written, and captures, events and refunds never change |
| `LedgerTheorems.IngestedDisagreementIsKept` | `internal/storage/payment_ingress.go:131-159` | a valid fact with the identity of a recorded capture is silent through operator ingress if and only if it is its exact replay, and otherwise in the inbox; captures, events and refunds never change |
| `Conservation.TakeStockExact` | `internal/storage/orders.go:542-560` | the stock loop takes each product's whole quantity and never goes below zero |
| `Conservation.GoodsAreConserved` | `internal/storage/orders.go:512-603` | stock plus what every order that ever settled took is the initial stock, stock is never negative, and a promo counter grew by exactly its usage rows |
| `Conservation.StepSteady` | `internal/storage/orders.go:512-603` | no transaction makes or loses goods, and none but a decision ends a review or takes a paid status away |
| `Confirmation.SettleRecordsMoney` | `internal/storage/orders.go:297-360` | a settlement records the charge, finds the order moved on, or is sold out with the charge still unknown |
| `Confirmation.NoMoneyIsLost` | `internal/shop/order.go:286-405` | an outcome or a durable error means an attempt or anomaly with the receipt's identity is in the ledger, whatever ran in between |
| `Confirmation.EveryReceiptIsRecorded` | `worker/polling.go:222-251` | end to end every receipt that states a fact is recorded |
| `Confirmation.EveryRenewalIsRecorded` | `internal/shop/order.go:433-466` | every renewal receipt that states a fact is recorded |
| `Confirmation.ConfirmationIsRun` | `internal/shop/order.go:286-371` | a confirmation, other writers in between included, leaves the ledger where a run of single transactions leaves it |
| `Outcomes.OutcomeIsSettlement` | `internal/shop/order.go:338-371` | an outcome is reported only if the settlement transaction itself confirmed, on the ledger other writers had left, and nothing was written after it |
| `Outcomes.OneOutcomePerOrder` | `internal/shop/order.go:286-371` | of any sequence of confirmations, redelivered and interleaved in any way, at most one reports an outcome for an order without a subscription, the confirmations of the interleaved writers and of the past included |
| `Access.OnePendingOrder` | `internal/storage/subscription_orders.go:15-31` | at most one pending order per user and subscription product ever exists |
| `Access.RollBackExact` | `internal/storage/ledger.go:391-464` | after a full refund the row stands at the latest period still held, or has ended; other rows and its owner are untouched |
| `Access.RefundRollsBack` | `internal/storage/ledger.go:318-323` | a committed full refund rolls access back exactly, a partial one leaves it alone, a missing row sends the order to review |
| `Access.OldRefundEndsNewContract` | `internal/storage/ledger.go:412-460` | the rollback follows user and product: refunding an older order ends a newer contract unless the old order still holds time |
| `AccessBound.RenewalsExtend` | `internal/storage/subscription_orders.go:95-135` | each first-time renewal strictly extends its contract, by at most a period and a day |
| `AccessBound.ContractsChangeAfterLapse` | `internal/storage/subscription_orders.go:54-93` | a contract changes owner or charge only after it has lapsed |
| `AccessBound.AccessIsBounded` | `internal/storage/subscription_orders.go:95-135` | from any reachable ledger and over every run, n first renewals buy at most n periods and days past the later of the initial bound and the clock; a run that opens a new contract may also start from two periods and a day ahead of the clock |
| `Limits.DismissalUnpays` | `internal/storage/payment_resolutions.go:613-635` | a dismissal cancels a paid order and leaves its captures as they are |
| `Limits.PaidIsLostExactly` | `internal/storage/payment_resolutions.go:613-635` | some step takes a paid order's status away if and only if the order is under review with nothing of its own unresolved |
| `Limits.RetryFlagsAnotherOrder` | `internal/storage/payment_anomalies.go:40-52` | a recorded fact redelivered under another order puts that order under review without a target of its own |
| `Limits.APaidOrderIsLost` | `internal/storage/payment_anomalies.go:110-171` | a concrete run that leads to such an order and a dismissal that cancels it with its capture unrefunded |
| `Limits.ConfirmedAgainExactly` | `internal/storage/orders.go:319-335` | an order no longer payable is confirmed again if and only if it is a subscription order whose own charge returns as recorded while its row belongs to another contract |
| `Dismissals.WrittenOffMovesExactly` | `internal/storage/ledger.go:336-367` | some step takes a cancelled, written-off order to a payment state other than cancelled and needs_review if and only if one of its captures is not fully refunded |
| `Witnesses.ADismissedOrderIsRefunded` | `internal/storage/ledger.go:336-383` | a run after which a dismissed order is cancelled and reads refunded |
| `Witnesses.AnOldRefundEndsALiveContract` | `internal/storage/ledger.go:412-460` | a run in which the refund of a lapsed order ends the running contract of another, unrefunded order |
| `Witnesses.AChargeIsConfirmedAgain` | `internal/storage/orders.go:319-335` | a run after which the receipt that settled a subscription order is confirmed once more |
| `Witnesses.ADecisionIsUndone` | `internal/storage/payment_recording.go:289-357` | a run in which a renewal gives a disposed capture an expiry, after which the fact as it was decided on is no longer silent |
| `Witnesses.AForeignDisagreementIsDropped` | `internal/storage/payment_recording.go:58-79` | a run after which a disposed charge, redelivered under an order of another price, changes nothing and is in no inbox |
| `Witnesses.AnAnnouncedQuarantineIsApplied` | `internal/storage/payment_ingress.go:68-84` | a run after which the preview of a CryptoBot refund announces a quarantine and ingress enters the refund |
| `Ingress.CapturePreviewIsExact` | `internal/storage/payment_ingress.go:17-49` | an announced error or replay writes nothing; an announced quarantine is a new quarantined capture with its order in review, or for a known capture a row of the inbox with the capture untouched, unless the inbox refuses it |
| `Ingress.IngestedCaptureBuysNothing` | `internal/storage/payment_ingress.go:115-177` | ingress touches no stock, promo code or subscription and moves an order only into review |
| `Ingress.RefundPreviewKeepsItsWord` | `internal/storage/payment_ingress.go:51-113` | an announced replay is silent and an announced application enters exactly that refund |
| `Ingress.QuarantinePreviewIsExact` | `internal/storage/payment_ingress.go:68-84` | where a quarantine is announced the refund is applied all the same if and only if the capture's payer is unknown and everything else fits |
| `Analytics.SummaryIsCashFlow` | `internal/storage/analytics.go:95-147` | the join over refunds equals the sum over captures |
| `Analytics.MethodsAddUp` | `internal/storage/analytics.go:252-319` | the payment methods add up to the summary |
| `Analytics.BuyersMatchSummary` | `internal/storage/analytics.go:322-386` | the buyers add up to the summary |
| `Analytics.CompensatedNetsZero` | `internal/storage/analytics.go:105-121` | a quarantined capture that counts nets to nothing |
| `Analytics.RevenueViewsAgree` | `internal/storage/analytics.go:95-386` | in every reachable ledger the three views agree on gross, refund and net, and the net is what settled captures brought less what went back |
| `Invoices.InvoiceMatchesOrder` | `internal/payment/cryptobot.go:106-111` | an invoice created for an order, paid as printed, is accepted as payment of that order |
| `Invoices.InvoiceReceiptStatesFact` | `internal/payment/cryptobot.go:210-223` | every receipt built from an invoice states a fact the ledger can hold |
| `Invoices.GetInvoicesWindow` | `internal/payment/cryptobot.go:443-480` | a window skips no row between its ends even if the list grows between its requests; on a list at rest it is exactly the 1000-row slice, with a continuation if and only if rows remain |
| `Polling.PollingWorker.ProcessPaidInvoices` | `worker/polling.go:196-245` | the ledger, the ids seen and the durability verdict after a pass |
| `Polling.PollingWorker.Poll` | `worker/polling.go:76-153` | the cursor and the ledger after a poll |
| `Polling.ProcessHandles` | `worker/polling.go:196-245` | a durable pass leaves every invoice it was given in the ledger |
| `Polling.BeforeCovers` | `worker/polling.go:168-180` | everything newer than the old head is in front of it in a window that reaches it, or the whole window is taken |
| `Polling.AfterCovers` | `worker/polling.go:182-194` | everything older than the boundary is behind it, or the whole window is taken |
| `Polling.PollNeverSkips` | `worker/polling.go:76-153` | with at most one window of insertions between head refreshes, after every poll everything from boundary through head is in the ledger, and a completed scan leaves everything there that existed at the last head refresh |
| `Polling.FreshRunsNeverSkip` | `worker/polling.go:76-153` | the same over any run of polls from a fresh worker and any reachable ledger: everything from boundary through head is there, and when the last poll completed a scan everything its last head refresh met |
| `Polling.HeadRefreshIsExact` | `worker/polling.go:83-106` | a head refresh takes every newer row if and only if at most one window of rows was inserted |
| `Polling.NothingSkippedExactly` | `worker/polling.go:83-150` | on a list at rest while it is read, every row of the range a poll claims was handed to a pass or scanned before if and only if at most one window was inserted since the last head refresh, or the tail window makes up for it |
| `Polling.LateRefreshSkips` | `worker/polling.go:83-150` | three polls of a growing list after which a row that no pass was given lies between the cursor's identities |
| `Polling.APaidInvoiceIsSkipped` | `worker/polling.go:83-150` | such a list on which the skipped row is paid and is not in the ledger |
| `Polling.TailShrinks` | `worker/polling.go:116-150` | however the list grows while the tail window is read, the unscanned tail shrinks if fewer than a window less one was inserted since the boundary was read |
| `Polling.TailShrinksExactly` | `worker/polling.go:116-150` | on a list at rest meanwhile, only then |
| `Reconcile.ClassifyRows` | `internal/storage/reconcile.go:41-122` | the identity map and the counters after the classification loop |
| `Reconcile.ReconcileWindow` | `internal/storage/reconcile.go:41-175` | the report of a window |
| `Reconcile.CleanTally` | `internal/storage/reconcile.go:41-122` | the counters are clean exactly when no identity repeats and every row is confirmed locally |
| `Reconcile.GreenExactly` | `internal/storage/reconcile.go:123-175` | a report is green exactly when the window is complete, rows are distinct and confirmed, every local event is listed and nothing is unresolved |
| `Reconcile.GreenMeansEqual` | `internal/launcher/reconcile.go:138-150` | a green report means both ledgers are the same multiset of lines, so both sides total the same |
| `Paging.NormalizeStar` | `internal/launcher/reconcile.go:152-184` | only invoice payments are kept, refunds before captures, with a non-negative amount |
| `Paging.ReadWindow` | `internal/launcher/reconcile.go:105-136` | complete if and only if the list has at most maxRows rows, and then all of them were read |
| `Paging.RunStarsReconcile` | `internal/launcher/reconcile.go:60-150` | exit code zero if and only if the whole list was read and its reconciliation is green |
| `Paging.FindExactStarTransaction` | `internal/launcher/payment_ingress.go:114-154` | the search succeeds if and only if the list fits the window and holds exactly one matching row, and returns that row |
| `Decimals.ParsePositiveFixedDecimal` | `internal/payment/cryptobot.go:369-395` | the parser answers the units and scale of the one reading of its text |
| `Decimals.ParseStrictProviderAmount` | `internal/payment/cryptobot.go:262-275` | the scaling loop answers the amount in hundredths or overflows |
| `Decimals.StrictAmountIsExact` | `internal/payment/cryptobot.go:262-275` | accepted are precisely the unsigned positive decimals with at most two fraction digits whose hundredfold fits an int64, and that is the answer |
| `Decimals.PrintedAmountParses` | `internal/payment/cryptobot.go:106-111` | parsing a printed invoice amount gives the cents back |
| `Decimals.NormalizeAnomalyAmount` | `internal/payment/cryptobot.go:281-367` | the normaliser answers the reading of its text, exponents included |
| `Decimals.PlainAmountIsExact` | `internal/payment/cryptobot.go:281-301` | without an exponent exactly the decimals that fit after dropping trailing zeros are normalised |
| `Decimals.ScientificIsExact` | `internal/payment/cryptobot.go:303-367` | a power of ten only moves the point: units and scale are the written number |
| `Decimals.AnomalyAmountIsExact` | `internal/payment/cryptobot.go:281-367` | whatever is normalised has positive int64 units, a scale from 0 to 9, and is the written value |
| `UpdateLoop.Poller.Process` | `internal/bot/bot.go:308-360` | offset, handled payments and the retry verdict after a batch |
| `UpdateLoop.OffsetNeverPassesAPayment` | `internal/bot/bot.go:274-371` | whatever comes in and whichever handlers fail, a recognisable payment below the offset has been handled |
| `UpdateLoop.ProgressIsExact` | `internal/bot/bot.go:309-330` | a batch that is not retried moves the offset exactly when it holds an update that is not merely skipped |
| `UpdateLoop.JammedExactly` | `internal/bot/bot.go:274-330` | no turn of the loop changes anything, whatever comes in and whatever handlers return, if and only if the batch at the offset holds nothing but broken updates |
| `UpdateLoop.BrokenBatchJams` | `internal/bot/bot.go:274-330` | a full batch of broken updates in front of a fresh bot keeps every later payment from ever being handled |

## Left out

- The order timeline (`order_events`) and the ingress audit rows: append-only notes that no modelled operation reads.
- Retry loops, timers, context cancellation and real database failures: a transaction runs once and fails only for a reason of the domain.
- The compatibility paths without a provider fact (`RecordUnexpectedPayment`, `ConfirmPayment`, settling by method and id alone) and stores without the fact interfaces: the live services always carry a fact.
- Receipts whose provider is neither Stars, crypto nor the alias cryptobot: the service refuses them without a record, and so does the model; the recording theorems are about receipts that state a fact.
- int64 wrap-around of sums: money is a mathematical integer in the ledger; int64 bounds are explicit in `Decimals` and `Paging`.
- Trimming of actor, reason and identity texts before they are compared, and the JSON and hash encoding of a fingerprint, which is modelled as the tuple it encodes.
- The reads `recordPaymentAnomaly` and `RecordUnexpectedPaymentFact` make before their own transaction opens: each is one step here.
- Rows imported by migrations before 017, and `Upsert`, admin edits of stock and prices, and promo lookup: not part of the live payment path.
- Loyalty points, referral awards, wishlist, backups, FSM stores, rate limiting, keyboards, HTTP, HMAC and JSON: no ledger state depends on them.
- Daily revenue, top products and promo usage reports, and the Stars columns of the revenue views: the same aggregates again.
- The poll over a fetcher without windows (`GetInvoices` once per tick): it processes the first window and keeps no cursor.
- Row order and LIMIT of the buyers' report: the theorem sums all buyers.
- `ListPaymentReviews` and `PreviewPaymentReviewResolution`: read-only listings of the case that `Reviews.CaseTargets` computes.
- Concurrency of the update loop's handler goroutines: a handler is a step that succeeds or fails.
- Page loops of the launcher run against a list that stands still; only the invoice window is proved against a growing one.
- Invoices.InvoiceMatchesOrder: takes the order total as a real and its cents as an exact rounding, because the float64 product and its `%.2f` printing are outside the ledger; a total whose float64 product rounds to other cents is not captured.
- Polling.NothingSkippedExactly: is about a list at rest during each of the two reads of a poll (it may grow between them); for reads during which the list grows the sufficient half is `Polling.PollNeverSkips`.
- Decimals.AnomalyAmountIsExact: says what an accepted text with an exponent means; which of those are accepted depends on digit counts, not on the value, and is left to the specification function.
