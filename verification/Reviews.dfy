/** internal/storage/payment_resolutions.go: the operator's exact, append-only decisions. */
module Reviews {
  import opened Wrappers
  import opened Ledger
  import opened Tables

  datatype ReviewRequest = ReviewRequest(
    order: int,
    provider: ReviewProvider,
    events: seq<int>,
    anomalies: seq<int>,
    orderTarget: int,
    decision: Option<Decision>,
    actor: string,
    note: string,
    result: Option<PayState>)

  // ----- input validation -----

  predicate UniqueIds(ids: seq<int>) {
    (forall i :: 0 <= i < |ids| ==> ids[i] >= 0) && (forall i, j :: 0 <= i < j < |ids| ==> ids[i] != ids[j])
  }

  /** validateReviewResolutionInput. Row ids here count from zero, order ids from one. */
  predicate ValidRequest(r: ReviewRequest) {
    && r.order >= 0
    && 0 < |r.actor| <= 128 && 0 < |r.note| <= 512
    && if r.provider == UnknownProvider then
         && r.order > 0 && r.events == [] && r.anomalies == [] && r.orderTarget == r.order
         && r.decision == Some(Dismissed) && r.result == Some(PayCancelled)
       else
         && (r.order == 0 ==> r.events == [] && r.orderTarget == 0 && r.result == None)
         && (r.order != 0 ==> r.result.Some? && r.result != Some(PayPending))
         && (r.decision.Some? ==>
               && (r.decision == Some(Compensated) || r.decision == Some(AcceptedRefund))
               && |r.anomalies| == 1 && r.orderTarget == 0
               && (r.order > 0 ==> r.result == Some(Refunded) || r.result == Some(NeedsReview) || r.result == Some(PayCancelled)))
         && UniqueIds(r.events) && UniqueIds(r.anomalies) && r.orderTarget >= 0
         && (r.orderTarget > 0 ==> r.orderTarget == r.order)
         && |r.events| + |r.anomalies| + (if r.orderTarget > 0 then 1 else 0) > 0
  }

  // ----- what is still open -----

  predicate OpenEvent(db: DB, e: nat)
    requires e < |db.events|
  {
    db.events[e].disp == EventNeedsReview && EventTarget(e) !in db.resolutions
  }

  predicate OpenAnomaly(db: DB, i: nat)
    requires i < |db.anomalies|
  {
    AnomalyTarget(i) !in db.resolutions
  }

  /** The unresolved targets of one order on one rail. */
  function OpenTargets(db: DB, order: int, p: ReviewProvider): set<Target> {
    (set e: nat | e < |db.events| && OpenEvent(db, e) && db.events[e].order == order && On(db.events[e].provider) == p :: EventTarget(e))
    + (set i: nat | i < |db.anomalies| && OpenAnomaly(db, i) && db.anomalies[i].order == order && On(db.anomalies[i].provider) == p :: AnomalyTarget(i))
  }

  /** Nothing of any rail is unresolved on the order. */
  predicate AllResolved(db: DB, order: int) {
    && (forall e: nat :: e < |db.events| && db.events[e].order == order ==> !OpenEvent(db, e))
    && (forall i: nat :: i < |db.anomalies| && db.anomalies[i].order == order ==> !OpenAnomaly(db, i))
  }

  /** countUnresolvedOtherProvider > 0. */
  predicate OpenElsewhere(db: DB, order: int, p: ReviewProvider) {
    || (exists e: nat | e < |db.events| :: db.events[e].order == order && OpenEvent(db, e) && On(db.events[e].provider) != p)
    || (exists i: nat | i < |db.anomalies| :: db.anomalies[i].order == order && OpenAnomaly(db, i) && On(db.anomalies[i].provider) != p)
  }

  predicate DetachedTarget(db: DB, r: ReviewRequest, id: int) {
    && 0 <= id < |db.anomalies| && OpenAnomaly(db, id)
    && db.anomalies[id].order == r.order && On(db.anomalies[id].provider) == r.provider
  }

  /** loadPaymentReviewCase: the targets of the case, None when there is no case. */
  function CaseTargets(db: DB, r: ReviewRequest): Option<set<Target>> {
    if !db.HasOrder(r.order) then
      if r.anomalies != [] && forall k :: 0 <= k < |r.anomalies| ==> DetachedTarget(db, r, r.anomalies[k])
      then Some(set k: nat | k < |r.anomalies| && r.anomalies[k] >= 0 :: AnomalyTarget(r.anomalies[k]))
      else None
    else
      var open := OpenTargets(db, r.order, r.provider);
      if open != {} then Some(open)
      else if db.Ord(r.order).pay == NeedsReview && OrderTarget(r.order) !in db.resolutions && AllResolved(db, r.order)
      then Some({OrderTarget(r.order)})
      else None
  }

  /** The targets the operator named. */
  function NamedTargets(r: ReviewRequest): set<Target> {
    (set k: nat | k < |r.events| && r.events[k] >= 0 :: EventTarget(r.events[k]))
    + (set k: nat | k < |r.anomalies| && r.anomalies[k] >= 0 :: AnomalyTarget(r.anomalies[k]))
    + (if r.orderTarget > 0 then {OrderTarget(r.orderTarget)} else {})
  }

  // ----- decisions -----

  /** exactExplicitDecision. */
  function Exactly(derived: Decision, explicit: Option<Decision>): Option<Decision> {
    if explicit.Some? && explicit != Some(derived) then None else Some(derived)
  }

  /** explicitNoAttemptAnomalyDecision, for an anomaly no ledger row backs. */
  function DecideUnbacked(db: DB, a: Anomaly, explicit: Option<Decision>, result: Option<PayState>): Option<Decision> {
    if a.amount <= 0 || a.currency.IsBlank() || a.scale < 0 || a.scale > 9 || explicit.None? then None
    else if Blank(a.ext) && a.reason != LegacyCaptureUnverifiable then None
    else match a.kind
      case Captured =>
        if explicit != Some(Compensated) then None
        else if db.HasOrder(a.order) && result != Some(Refunded) && result != Some(NeedsReview) then None
        else explicit
      case RefundedKind =>
        if explicit != Some(AcceptedRefund) || Blank(a.ext) || Blank(a.related) then None
        else if db.HasOrder(a.order) && result != Some(NeedsReview) then None
        else explicit
  }

  /** reviewAnomalyDecision. */
  function DecideAnomaly(db: DB, a: Anomaly, explicit: Option<Decision>, result: Option<PayState>): Option<Decision> {
    match a.kind
    case Captured =>
      (match FindAttempt(db.attempts, a.provider, a.ext)
       case None => DecideUnbacked(db, a, explicit, result)
       case Some(i) =>
         var t := db.attempts[i];
         if t.amount != a.amount || t.currency != a.currency || t.scale != a.scale then None
         else if t.order != a.order then Exactly(Dismissed, explicit)
         else if t.status == Quarantined && RefundedOf(db.refunds, t) == t.amount then Exactly(Compensated, explicit)
         else if t.status == Succeeded then Exactly(Dismissed, explicit)
         else None)
    case RefundedKind =>
      (match FindRefund(db.refunds, a.provider, a.ext)
       case None => DecideUnbacked(db, a, explicit, result)
       case Some(k) =>
         var t := db.refunds[k];
         if t.parent != a.related || t.amount != a.amount || t.currency != a.currency || t.scale != a.scale then None
         else if t.order != a.order then Exactly(Dismissed, explicit)
         else Exactly(AcceptedRefund, explicit))
  }

  /** reviewTargetDecision: None refuses the whole request. */
  function Decide(db: DB, t: Target, explicit: Option<Decision>, result: Option<PayState>): Option<Decision> {
    match t
    case OrderTarget(_) =>
      if explicit == Some(Dismissed) && result == Some(PayCancelled) then Some(Dismissed)
      else if explicit.Some? then None
      else Some(CancelledOrder)
    case AnomalyTarget(i) =>
      if i < |db.anomalies| then DecideAnomaly(db, db.anomalies[i], explicit, result) else None
    case EventTarget(e) =>
      if e >= |db.events| then None
      else match db.events[e].kind
        case RefundedKind => Some(AcceptedRefund)
        case Captured =>
          (match FindAttempt(db.attempts, db.events[e].provider, db.events[e].ext)
           case None => None
           case Some(i) =>
             var a := db.attempts[i];
             if a.status != Quarantined || RefundedOf(db.refunds, a) != a.amount then None else Some(Compensated))
  }

  // ----- the projection an order may leave quarantine with -----

  datatype Projection = Projection(pay: PayState, status: Status)

  predicate HasCapture(db: DB, order: int, status: AttemptStatus) {
    exists i: nat | i < |db.attempts| :: db.attempts[i].order == order && db.attempts[i].status == status
  }

  predicate Uncompensated(db: DB, order: int) {
    exists i: nat | i < |db.attempts| ::
      db.attempts[i].order == order && db.attempts[i].status == Quarantined
      && RefundedOf(db.refunds, db.attempts[i]) != db.attempts[i].amount
  }

  predicate SomeRefunded(db: DB, order: int) {
    exists i: nat | i < |db.attempts| ::
      db.attempts[i].order == order && db.attempts[i].status == Succeeded && RefundedOf(db.refunds, db.attempts[i]) > 0
  }

  predicate SomeRemaining(db: DB, order: int) {
    exists i: nat | i < |db.attempts| ::
      db.attempts[i].order == order && db.attempts[i].status == Succeeded
      && RefundedOf(db.refunds, db.attempts[i]) < db.attempts[i].amount
  }

  /** deriveReviewProjection: None is ErrPaymentReviewConflict. */
  function DeriveProjection(db: DB, order: int): Option<Projection>
    requires db.HasOrder(order)
  {
    var status := db.Ord(order).status;
    if Uncompensated(db, order) then None
    else if status == Pending || status == Cancelled then Some(Projection(PayCancelled, Cancelled))
    else if !HasCapture(db, order, Succeeded) then
      if HasCapture(db, order, Quarantined) then Some(Projection(Refunded, status)) else None
    else if !SomeRefunded(db, order) then Some(Projection(Settled, status))
    else if !SomeRemaining(db, order) then Some(Projection(Refunded, status))
    else Some(Projection(PartiallyRefunded, status))
  }

  /** deriveResolutionProjection. */
  function Derive(db: DB, r: ReviewRequest, targets: set<Target>): Option<Projection>
    requires db.HasOrder(r.order)
  {
    var status := db.Ord(r.order).status;
    if r.provider == UnknownProvider then
      if r.decision == Some(Dismissed) && r.result == Some(PayCancelled) && targets == {OrderTarget(r.order)}
         && (status == Paid || status == Delivered)
      then Some(Projection(PayCancelled, Cancelled))
      else None
    else if r.decision == None then DeriveProjection(db, r.order)
    else if r.result == Some(NeedsReview) then Some(Projection(NeedsReview, status))
    else if exists e: nat | e < |db.events| :: EventTarget(e) in targets then DeriveProjection(db, r.order)
    else if r.result != Some(Refunded) || r.decision != Some(Compensated) || |r.anomalies| != 1
            || r.anomalies[0] < 0 || r.anomalies[0] >= |db.anomalies| || targets != {AnomalyTarget(r.anomalies[0])}
            || (status != Paid && status != Delivered)
            || db.anomalies[r.anomalies[0]].order != r.order || db.anomalies[r.anomalies[0]].kind != Captured
            || HasCapture(db, r.order, Succeeded) || HasCapture(db, r.order, Quarantined) then None
    else Some(Projection(Refunded, status))
  }

  // ----- the transaction -----

  function ResolutionRow(r: ReviewRequest, d: Decision): Resolution {
    Resolution(r.order, r.provider, d, r.actor, r.note, r.result)
  }

  function WithResolutions(db: DB, r: ReviewRequest, targets: set<Target>): DB
    requires forall t :: t in targets ==> Decide(db, t, r.decision, r.result).Some?
  {
    db.(resolutions := db.resolutions + map t | t in targets :: ResolutionRow(r, Decide(db, t, r.decision, r.result).value))
  }

  predicate ReplayedTarget(db: DB, r: ReviewRequest, t: Target) {
    && t in db.resolutions
    && (t.AnomalyTarget? && r.decision == None ==> Decide(db, t, None, r.result).Some?)
    && var row := db.resolutions[t];
       && row.order == r.order && row.provider == r.provider && row.actor == r.actor && row.note == r.note
       && row.result == r.result
       && (t.AnomalyTarget? && r.decision.Some? ==> Some(row.decision) == r.decision)
  }

  /** resolvedBatchMatches: the request has been applied before, word for word. */
  predicate ReplaysBatch(db: DB, r: ReviewRequest) {
    forall t :: t in NamedTargets(r) ==> ReplayedTarget(db, r, t)
  }

  /** The writes of ResolvePaymentReview once every gate has passed. */
  function Close(db: DB, r: ReviewRequest, targets: set<Target>): (DB, Errs)
    requires forall t :: t in targets ==> Decide(db, t, r.decision, r.result).Some?
  {
    var db1 := WithResolutions(db, r, targets);
    if !db.HasOrder(r.order) then (db1, {})
    else if OpenElsewhere(db, r.order, r.provider) then
      if r.result != Some(NeedsReview) then (db, {PaymentReviewConflict}) else (db1, {PaymentNeedsReview})
    else match Derive(db, r, targets)
      case None => (db, {PaymentReviewConflict})
      case Some(p) =>
        if r.result != Some(p.pay) then (db, {PaymentReviewConflict})
        else
          var o := db.Ord(r.order);
          (db1.SetOrder(r.order, o.(status := p.status, axis := if p.status == Cancelled then OrderCancelled else o.axis, pay := p.pay)),
           if p.pay == NeedsReview then {PaymentNeedsReview} else {})
  }

  /** ResolvePaymentReview (payment_resolutions.go:218). */
  function Resolve(db: DB, r: ReviewRequest): (DB, Errs) {
    if !ValidRequest(r) then (db, {PaymentReviewConflict})
    else if ReplaysBatch(db, r) then
      (db, if db.HasOrder(r.order) && r.provider != UnknownProvider && db.Ord(r.order).pay == NeedsReview
           then {PaymentNeedsReview} else {})
    else match CaseTargets(db, r)
      case None => (db, {NotFound})
      case Some(targets) =>
        if db.HasOrder(r.order) && db.Ord(r.order).pay != NeedsReview then (db, {OrderStatusConflict})
        else if NamedTargets(r) != targets then (db, {PaymentReviewConflict})
        else if exists t :: t in targets && Decide(db, t, r.decision, r.result).None? then (db, {PaymentReviewConflict})
        else Close(db, r, targets)
  }
}
