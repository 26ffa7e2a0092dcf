/** The order state machine, one for every fulfillment mode. Its events come off a queue that
    repeats and reorders them, and whatever it is sent its money has to be accounted for. */
module Orders {
  import opened Basics

  type Instant = int

  datatype State =
    | Created | Quoted | AwaitingConfirmation | Confirmed | Paid | Dispatched | Fulfilled
    | Delivered | DeliveredUnpaid | RefundDue | Refunded
    | Failed | Rejected | Declined | Expired | Cancelled

  datatype Settle = OnPurchase | AfterFulfillment

  datatype Mode = Mode(needsConfirmation: bool, settle: Settle)

  datatype Payment = Unpaid | Verified | Settling | OutcomeUnknown | Settled | SettleFailed

  datatype Price = Price(amount: string, currency: string, asOf: Instant)

  datatype QuoteSource = CardSnapshot | MerchantAnswer

  datatype DeadlineKind =
    | QuoteResponse | QuoteExpiry | SettleResponse | ConfirmationResponse
    | PaymentAfterConfirmation | SyncResponse | AsyncFulfillment

  datatype Deadline = Deadline(kind: DeadlineKind, at: Instant)

  datatype Policy = Policy(
    quoteResponseMs: int, quoteTtlMs: int, settleResponseMs: int, syncResponseMs: int,
    paymentAfterConfirmationMs: int, confirmationResponseMs: int, asyncFulfillmentMs: int,
    redelivery: Redelivery)

  datatype Redelivery = Redelivery(baseDelayMs: real, factor: real, maxDelayMs: real, maxAttempts: int)

  datatype Closure =
    | Unavailable
    | QuoteSilence
    | PaymentNotVerified(reason: string)
    | PaymentNotSettled
    | PaymentOutcomeUnknown
    | MerchantRefused(code: string, message: string)
    | DeadlineExpired(deadline: DeadlineKind)
    | MerchantDeparted

  datatype Dispatch = Dispatch(attempts: int, accepted: bool)

  datatype Times = Times(
    createdAt: Instant, quotedAt: Option<Instant>, confirmationRequestedAt: Option<Instant>,
    confirmedAt: Option<Instant>, settleStartedAt: Option<Instant>, paidAt: Option<Instant>, dispatchedAt: Option<Instant>)

  datatype Order = Order(
    state: State, mode: Mode, policy: Policy, payment: Payment, cardPrice: Price,
    price: Option<Price>, quoteSource: Option<QuoteSource>, dispatch: Dispatch,
    heldFulfillment: bool, closure: Option<Closure>, times: Times)

  datatype Answer =
    | Accepted | HandedOver | AlreadyDelivered | DebtClosedByDelivery | RefusalTaken | PurchaseAlreadyClosed
    | RefundAlreadySettled | OrderAlreadyClosed | NotApplicableInMode

  datatype News = RefundIsDue | UnpaidAfterConfirmation | PaymentFailedAfterDelivery

  /** A refund marked due carries the closure that the order then carries as well. */
  datatype Effect =
    | RequestQuote | VerifyPayment | ExecutePayment | InvitePayment
    | DispatchConfirmationRequest | DispatchOrder | RedeliverOrder(attempt: int, delayMs: real)
    | ReleaseGoodsToAgent | IssueReceipt | HoldFulfillment | MarkRefundDue
    | EmitMerchantEvent(news: News) | AnswerMerchant(answer: Answer)

  datatype Event =
    | QuoteAnswered(at: Instant, available: Option<Price>)
    | QuoteSilent(at: Instant)
    | PaymentVerified(at: Instant)
    | PaymentVerificationFailed(at: Instant, reason: string)
    | PaymentSettled(at: Instant)
    | PaymentSettleFailed(at: Instant)
    | PurchaseRepeated(at: Instant)
    | ConfirmationDispatched(at: Instant)
    | OrderDispatched(at: Instant)
    | HandlerAccepted(at: Instant)
    | HandlerDelivered(at: Instant)
    | HandlerRefused(at: Instant, code: string, message: string)
    | HandlerUndelivered(at: Instant)
    | DeliverCalled(at: Instant)
    | RefuseCalled(at: Instant, code: string, message: string)
    | RefundSettled(at: Instant)
    | MerchantDeparts(at: Instant)
    | DeadlineRunsOut(at: Instant, deadline: DeadlineKind)

  datatype Code = EventNotApplicable | DeadlineNotArmed | DeadlineNotYetDue | DeliveryBeforePayment | SettleInFlight | CurrencyChanged

  datatype Result = Ok(order: Order, effects: seq<Effect>) | Not(code: Code)

  // ---------------------------------------------------------------------------------------
  // Creation.

  datatype Selling = Open | Paused | Gone

  datatype NewOrder = NewOrder(at: Instant, mode: Mode, policy: Policy, asksForPrice: bool, cardPrice: Price, selling: Selling)

  function EffectsOnQuoted(mode: Mode): seq<Effect> { if mode.needsConfirmation then [DispatchConfirmationRequest] else [VerifyPayment] }

  /** None where the merchant takes no new order. */
  function Create(input: NewOrder): Option<(Order, seq<Effect>)> {
    if !input.selling.Open? then None
    else
      var base := Order(Created, input.mode, input.policy, Unpaid, input.cardPrice, None, None, Dispatch(0, false), false, None,
                        Times(input.at, None, None, None, None, None, None));
      if input.asksForPrice then Some((base, [RequestQuote]))
      else Some((base.(state := Quoted, price := Some(input.cardPrice), quoteSource := Some(CardSnapshot),
                       times := base.times.(quotedAt := Some(input.at))), EffectsOnQuoted(input.mode)))
  }

  // ---------------------------------------------------------------------------------------
  // Deadlines and redeliveries.

  function FulfillmentDeadline(o: Order): Option<Deadline> {
    if o.times.paidAt.None? then None
    else if o.mode.settle.AfterFulfillment? then Some(Deadline(SyncResponse, o.times.paidAt.value + o.policy.syncResponseMs))
    else Some(Deadline(AsyncFulfillment, o.times.paidAt.value + o.policy.asyncFulfillmentMs))
  }

  /** The one deadline that is running, if one is. */
  function Running(o: Order): Option<Deadline> {
    if o.payment.Settling? then
      Some(Deadline(SettleResponse,
                    match o.times.settleStartedAt case None => o.times.createdAt case Some(at) => at + o.policy.settleResponseMs))
    else match o.state
      case Created => Some(Deadline(QuoteResponse, o.times.createdAt + o.policy.quoteResponseMs))
      case Quoted =>
        if o.payment.Unpaid? && o.times.quotedAt.Some? then Some(Deadline(QuoteExpiry, o.times.quotedAt.value + o.policy.quoteTtlMs)) else None
      case AwaitingConfirmation =>
        if o.times.confirmationRequestedAt.None? then None
        else Some(Deadline(ConfirmationResponse, o.times.confirmationRequestedAt.value + o.policy.confirmationResponseMs))
      case Confirmed =>
        if o.payment.Unpaid? && o.times.confirmedAt.Some? then
          Some(Deadline(PaymentAfterConfirmation, o.times.confirmedAt.value + o.policy.paymentAfterConfirmationMs))
        else None
      case Paid => FulfillmentDeadline(o)
      case Dispatched => FulfillmentDeadline(o)
      case _ => None
  }

  function Power(base: real, n: nat): real { if n == 0 then 1.0 else base * Power(base, n - 1) }

  /** How long to wait before the next delivery, or none where another is pointless. */
  function NextDelay(attempts: int, now: Instant, deadlineAt: Option<Instant>, policy: Redelivery): Option<real> {
    if attempts >= policy.maxAttempts then None
    else
      var growth := policy.baseDelayMs * Power(policy.factor, if attempts > 1 then attempts - 1 else 0);
      var delayMs := if growth <= policy.maxDelayMs then growth else policy.maxDelayMs;
      if deadlineAt.Some? && now as real + delayMs >= deadlineAt.value as real then None else Some(delayMs)
  }

  // ---------------------------------------------------------------------------------------
  // The moves several states share.

  function Answered(o: Order, answer: Answer): Result { Ok(o, [AnswerMerchant(answer)]) }

  function Closed(o: Order, state: State, closure: Closure): Order { o.(state := state, closure := Some(closure)) }

  function EnterQuoted(o: Order, at: Instant, price: Price, source: QuoteSource): Result {
    Ok(o.(state := Quoted, price := Some(price), quoteSource := Some(source), times := o.times.(quotedAt := Some(at))), EffectsOnQuoted(o.mode))
  }

  function OnQuoteSilence(o: Order, at: Instant): Result {
    if o.mode.needsConfirmation || o.mode.settle.AfterFulfillment? then EnterQuoted(o, at, o.cardPrice, CardSnapshot)
    else Ok(Closed(o, Rejected, QuoteSilence), [])
  }

  function StartSettle(o: Order, at: Instant, state: State): Result {
    Ok(o.(state := state, payment := Settling, times := o.times.(settleStartedAt := Some(at))), [ExecutePayment])
  }

  function EnterPaid(o: Order, at: Instant, payment: Payment): Result {
    Ok(o.(state := Paid, payment := payment, dispatch := Dispatch(0, false), times := o.times.(paidAt := Some(at))), [DispatchOrder])
  }

  function ResolveFailure(o: Order, closure: Closure): Result {
    if o.payment.Settled? then Ok(Closed(o, RefundDue, closure), [MarkRefundDue, EmitMerchantEvent(RefundIsDue)])
    else Ok(Closed(o, if closure.MerchantRefused? then Failed else Expired, closure), [])
  }

  function DeliverGoods(o: Order, at: Instant, extra: seq<Effect>): Result {
    if o.mode.settle.AfterFulfillment? then
      var settling := StartSettle(o, at, Fulfilled);
      Ok(settling.order, settling.effects + extra)
    else Ok(o.(state := Delivered, closure := None), [ReleaseGoodsToAgent, IssueReceipt] + extra)
  }

  function OnDeparture(o: Order): Result {
    if o.payment.Settled? then Ok(Closed(o, RefundDue, MerchantDeparted), [MarkRefundDue, EmitMerchantEvent(RefundIsDue)])
    else Ok(Closed(o, Cancelled, MerchantDeparted), [])
  }

  function Redeliver(o: Order, at: Instant, deadlineAt: Option<Instant>, giveUp: DeadlineKind): Result {
    RedeliverOrGiveUp(o, NextDelay(o.dispatch.attempts, at, deadlineAt, o.policy.redelivery), giveUp)
  }

  function RedeliverOrGiveUp(o: Order, delay: Option<real>, giveUp: DeadlineKind): Result {
    match delay
    case Some(delayMs) => Ok(o, [RedeliverOrder(o.dispatch.attempts + 1, delayMs)])
    case None => ResolveFailure(o, DeadlineExpired(giveUp))
  }

  function OnSilentSettle(o: Order): Result {
    var silent := o.(payment := OutcomeUnknown);
    if o.state.Fulfilled? then Ok(silent.(state := DeliveredUnpaid, closure := None), [EmitMerchantEvent(PaymentFailedAfterDelivery)])
    else if o.state.DeliveredUnpaid? then Ok(silent, [])
    else
      var closed := Closed(silent, Rejected, PaymentOutcomeUnknown);
      Ok(closed, if o.state.Confirmed? then [EmitMerchantEvent(UnpaidAfterConfirmation)] else [])
  }

  function OnDeadline(o: Order, at: Instant, kind: DeadlineKind): Result {
    var running := Running(o);
    if running.None? || running.value.kind != kind then Not(DeadlineNotArmed)
    else if at < running.value.at then Not(DeadlineNotYetDue)
    else match kind
      case QuoteResponse => OnQuoteSilence(o, at)
      case QuoteExpiry => Ok(Closed(o, Expired, DeadlineExpired(kind)), [])
      case ConfirmationResponse => Ok(Closed(o, Expired, DeadlineExpired(kind)), [])
      case SettleResponse => OnSilentSettle(o)
      case PaymentAfterConfirmation => Ok(Closed(o, Expired, DeadlineExpired(kind)), [EmitMerchantEvent(UnpaidAfterConfirmation)])
      case SyncResponse => ResolveFailure(o, DeadlineExpired(kind))
      case AsyncFulfillment => ResolveFailure(o, DeadlineExpired(kind))
  }

  // ---------------------------------------------------------------------------------------
  // State by state.

  function FromCreated(o: Order, e: Event): Result {
    match e
    case QuoteAnswered(at, None) => Ok(Closed(o, Rejected, Unavailable), [])
    case QuoteAnswered(at, Some(price)) =>
      if price.currency != o.cardPrice.currency then Not(CurrencyChanged) else EnterQuoted(o, at, price, MerchantAnswer)
    case QuoteSilent(at) => OnQuoteSilence(o, at)
    case MerchantDeparts(_) => OnDeparture(o)
    case PurchaseRepeated(_) => Ok(o, [])
    case _ => Not(EventNotApplicable)
  }

  /** What a payment that was sent for execution comes back as, before the order is the merchant's. */
  function SettleReported(o: Order, e: Event, unpaid: seq<Effect>): Result
    requires e.PaymentSettled? || e.PaymentSettleFailed?
  {
    if !o.payment.Settling? then Not(EventNotApplicable)
    else if e.PaymentSettled? then EnterPaid(o, e.at, Settled)
    else Ok(Closed(o, Rejected, PaymentNotSettled).(payment := SettleFailed), unpaid)
  }

  function FromQuoted(o: Order, e: Event): Result {
    match e
    case PaymentVerified(at) =>
      if o.mode.needsConfirmation then Not(EventNotApplicable)
      else if o.mode.settle.AfterFulfillment? then EnterPaid(o, at, Verified)
      else StartSettle(o, at, o.state)
    case PaymentVerificationFailed(_, reason) => Ok(Closed(o, Rejected, PaymentNotVerified(reason)), [])
    case PaymentSettled(_) => SettleReported(o, e, [])
    case PaymentSettleFailed(_) => SettleReported(o, e, [])
    case ConfirmationDispatched(at) =>
      if o.mode.needsConfirmation then
        Ok(o.(state := AwaitingConfirmation, dispatch := Dispatch(1, false), times := o.times.(confirmationRequestedAt := Some(at))), [])
      else Not(EventNotApplicable)
    case MerchantDeparts(_) => OnDeparture(o)
    case PurchaseRepeated(_) => Ok(o, [])
    case _ => Not(EventNotApplicable)
  }

  function FromAwaitingConfirmation(o: Order, e: Event): Result {
    match e
    case HandlerAccepted(at) =>
      Ok(o.(state := Confirmed, times := o.times.(confirmedAt := Some(at))), [InvitePayment, AnswerMerchant(Accepted)])
    case HandlerRefused(_, code, message) => Ok(Closed(o, Declined, MerchantRefused(code, message)), [])
    case RefuseCalled(_, code, message) => Ok(Closed(o, Declined, MerchantRefused(code, message)), [AnswerMerchant(RefusalTaken)])
    case HandlerDelivered(_) => Not(DeliveryBeforePayment)
    case DeliverCalled(_) => Not(DeliveryBeforePayment)
    case HandlerUndelivered(at) =>
      var asked := o.times.confirmationRequestedAt;
      Redeliver(o, at, if asked.None? then None else Some(asked.value + o.policy.confirmationResponseMs), ConfirmationResponse)
    case ConfirmationDispatched(_) => Ok(o.(dispatch := o.dispatch.(attempts := o.dispatch.attempts + 1)), [])
    case MerchantDeparts(_) => OnDeparture(o)
    case PurchaseRepeated(_) => Ok(o, [])
    case _ => Not(EventNotApplicable)
  }

  function FromConfirmed(o: Order, e: Event): Result {
    match e
    case PaymentVerified(at) => if o.mode.settle.AfterFulfillment? then EnterPaid(o, at, Verified) else StartSettle(o, at, o.state)
    case PaymentSettled(_) => SettleReported(o, e, [])
    case PaymentVerificationFailed(_, reason) =>
      Ok(Closed(o, Rejected, PaymentNotVerified(reason)), [EmitMerchantEvent(UnpaidAfterConfirmation)])
    case PaymentSettleFailed(_) => SettleReported(o, e, [EmitMerchantEvent(UnpaidAfterConfirmation)])
    case RefuseCalled(_, code, message) => Ok(Closed(o, Declined, MerchantRefused(code, message)), [AnswerMerchant(RefusalTaken)])
    case HandlerRefused(_, code, message) => Ok(Closed(o, Declined, MerchantRefused(code, message)), [])
    case MerchantDeparts(_) => OnDeparture(o)
    case PurchaseRepeated(_) => Ok(o, [])
    case _ => Not(EventNotApplicable)
  }

  function FromPaid(o: Order, e: Event): Result {
    match e
    case OrderDispatched(at) =>
      Ok(o.(state := Dispatched, dispatch := Dispatch(o.dispatch.attempts + 1, false), times := o.times.(dispatchedAt := Some(at))), [])
    case DeliverCalled(_) =>
      if o.mode.settle.AfterFulfillment? then Answered(o, NotApplicableInMode) else FromDispatched(o.(state := Dispatched), e)
    case RefuseCalled(_, _, _) =>
      if o.mode.settle.AfterFulfillment? then Answered(o, NotApplicableInMode) else FromDispatched(o.(state := Dispatched), e)
    case HandlerAccepted(_) => FromDispatched(HandedOverTo(o), e)
    case HandlerDelivered(_) => FromDispatched(HandedOverTo(o), e)
    case HandlerRefused(_, _, _) => FromDispatched(HandedOverTo(o), e)
    case HandlerUndelivered(_) => FromDispatched(HandedOverTo(o), e)
    case MerchantDeparts(_) => OnDeparture(o)
    case PurchaseRepeated(_) => Ok(o, [])
    case _ => Not(EventNotApplicable)
  }

  /** A hand-over learned about from the handler answering. */
  function HandedOverTo(o: Order): Order {
    o.(state := Dispatched, dispatch := o.dispatch.(attempts := if o.dispatch.attempts > 1 then o.dispatch.attempts else 1))
  }

  function FromDispatched(o: Order, e: Event): Result {
    match e
    case HandlerAccepted(_) => Ok(o.(dispatch := o.dispatch.(accepted := true)), [AnswerMerchant(Accepted)])
    case HandlerDelivered(at) => DeliverGoods(o, at, [])
    case HandlerRefused(_, code, message) => ResolveFailure(o, MerchantRefused(code, message))
    case HandlerUndelivered(at) =>
      var deadline := FulfillmentDeadline(o);
      if deadline.Some? then Redeliver(o, at, Some(deadline.value.at), deadline.value.kind)
      else Redeliver(o, at, None, if o.mode.settle.AfterFulfillment? then SyncResponse else AsyncFulfillment)
    case DeliverCalled(at) =>
      if o.mode.settle.AfterFulfillment? then Answered(o, NotApplicableInMode) else DeliverGoods(o, at, [AnswerMerchant(HandedOver)])
    case RefuseCalled(_, code, message) =>
      if o.mode.settle.AfterFulfillment? then Answered(o, NotApplicableInMode)
      else
        var refused := ResolveFailure(o, MerchantRefused(code, message));
        Ok(refused.order, refused.effects + [AnswerMerchant(RefusalTaken)])
    case OrderDispatched(at) =>
      var attempts := if o.times.dispatchedAt.Some? then o.dispatch.attempts + 1 else o.dispatch.attempts;
      Ok(o.(dispatch := o.dispatch.(attempts := attempts), times := o.times.(dispatchedAt := Some(at))), [])
    case MerchantDeparts(_) => OnDeparture(o)
    case PurchaseRepeated(_) => Ok(o, [])
    case _ => Not(EventNotApplicable)
  }

  function FromFulfilled(o: Order, e: Event): Result {
    match e
    case PaymentSettled(_) =>
      if o.payment.Settling? then Ok(o.(state := Delivered, payment := Settled, closure := None), [ReleaseGoodsToAgent, IssueReceipt])
      else Not(EventNotApplicable)
    case PaymentSettleFailed(_) =>
      if o.payment.Settling? then
        Ok(o.(state := DeliveredUnpaid, payment := SettleFailed, closure := None), [EmitMerchantEvent(PaymentFailedAfterDelivery)])
      else Not(EventNotApplicable)
    case DeliverCalled(_) => Answered(o, AlreadyDelivered)
    case HandlerDelivered(_) => Answered(o, AlreadyDelivered)
    case RefuseCalled(_, _, _) => Answered(o, NotApplicableInMode)
    case PurchaseRepeated(_) => Ok(o, [])
    case _ => Not(EventNotApplicable)
  }

  function FromDelivered(o: Order, e: Event): Result {
    match e
    case DeliverCalled(_) => Answered(o, AlreadyDelivered)
    case HandlerDelivered(_) => Answered(o, AlreadyDelivered)
    case HandlerAccepted(_) => Answered(o, AlreadyDelivered)
    case RefuseCalled(_, _, _) => Answered(o, OrderAlreadyClosed)
    case MerchantDeparts(_) => Ok(o, [])
    case PurchaseRepeated(_) => Ok(o, [])
    case _ => Not(EventNotApplicable)
  }

  function FromDeliveredUnpaid(o: Order, e: Event): Result {
    match e
    case PurchaseRepeated(_) => if o.payment.OutcomeUnknown? then Not(SettleInFlight) else Ok(o.(payment := Unpaid), [VerifyPayment])
    case PaymentVerified(at) => if o.payment.Unpaid? then StartSettle(o, at, o.state) else Not(EventNotApplicable)
    case PaymentSettled(_) =>
      if o.payment.Settling? || o.payment.OutcomeUnknown? then
        Ok(o.(state := Delivered, payment := Settled), [ReleaseGoodsToAgent, IssueReceipt])
      else Not(EventNotApplicable)
    case PaymentSettleFailed(_) =>
      if o.payment.Settling? || o.payment.OutcomeUnknown? then Ok(o.(payment := SettleFailed), []) else Not(EventNotApplicable)
    case PaymentVerificationFailed(_, _) => Ok(o, [])
    case DeliverCalled(_) => Answered(o, AlreadyDelivered)
    case HandlerDelivered(_) => Answered(o, AlreadyDelivered)
    case RefuseCalled(_, _, _) => Answered(o, NotApplicableInMode)
    case MerchantDeparts(_) => Ok(o, [])
    case _ => Not(EventNotApplicable)
  }

  function FromRefundDue(o: Order, e: Event): Result {
    match e
    case DeliverCalled(_) =>
      Ok(o.(state := Delivered, closure := None), [ReleaseGoodsToAgent, IssueReceipt, AnswerMerchant(DebtClosedByDelivery)])
    case HandlerDelivered(_) => Ok(o.(state := Delivered, closure := None), [ReleaseGoodsToAgent, IssueReceipt])
    case RefundSettled(_) => Ok(o.(state := Refunded), [])
    case RefuseCalled(_, _, _) => Answered(o, RefusalTaken)
    case HandlerRefused(_, _, _) => Ok(o, [])
    case HandlerAccepted(_) => Ok(o, [])
    case HandlerUndelivered(_) => Ok(o, [])
    case OrderDispatched(_) => Ok(o, [])
    case PurchaseRepeated(_) => Ok(o, [])
    case MerchantDeparts(_) => Ok(o, [])
    case _ => Not(EventNotApplicable)
  }

  function FromRefunded(o: Order, e: Event): Result {
    match e
    case DeliverCalled(_) => Answered(o, RefundAlreadySettled)
    case HandlerDelivered(_) => Answered(o, RefundAlreadySettled)
    case RefuseCalled(_, _, _) => Answered(o, OrderAlreadyClosed)
    case MerchantDeparts(_) => Ok(o, [])
    case PurchaseRepeated(_) => Ok(o, [])
    case _ => Not(EventNotApplicable)
  }

  function FromFailed(o: Order, e: Event): Result {
    match e
    case DeliverCalled(_) => Answered(o, OrderAlreadyClosed)
    case RefuseCalled(_, _, _) => Answered(o, OrderAlreadyClosed)
    case MerchantDeparts(_) => Ok(o, [])
    case PurchaseRepeated(_) => Ok(o, [])
    case _ => Not(EventNotApplicable)
  }

  predicate AwaitedLateGoods(o: Order) { o.mode.settle.AfterFulfillment? && o.closure == Some(DeadlineExpired(SyncResponse)) }

  function FromExpired(o: Order, e: Event): Result {
    match e
    case HandlerDelivered(_) =>
      if !AwaitedLateGoods(o) then Not(EventNotApplicable)
      else if o.heldFulfillment then Answered(o, PurchaseAlreadyClosed)
      else Ok(o.(heldFulfillment := true), [HoldFulfillment, AnswerMerchant(PurchaseAlreadyClosed)])
    case PurchaseRepeated(_) => if o.heldFulfillment then Ok(o.(payment := Unpaid), [VerifyPayment]) else Ok(o, [])
    case PaymentVerified(at) =>
      if o.heldFulfillment && o.payment.Unpaid? then StartSettle(o, at, Fulfilled) else Not(EventNotApplicable)
    case PaymentVerificationFailed(_, _) => if o.heldFulfillment then Ok(o, []) else Not(EventNotApplicable)
    case DeliverCalled(_) => Answered(o, OrderAlreadyClosed)
    case RefuseCalled(_, _, _) => Answered(o, OrderAlreadyClosed)
    case MerchantDeparts(_) => Ok(o, [])
    case _ => Not(EventNotApplicable)
  }

  function FromClosedWithoutMoney(o: Order, e: Event): Result {
    match e
    case DeliverCalled(_) => Answered(o, OrderAlreadyClosed)
    case RefuseCalled(_, _, _) => Answered(o, OrderAlreadyClosed)
    case PaymentSettled(_) =>
      if o.closure == Some(PaymentOutcomeUnknown) then
        Ok(o.(state := RefundDue, payment := Settled), [MarkRefundDue, EmitMerchantEvent(RefundIsDue)])
      else Not(EventNotApplicable)
    case PaymentSettleFailed(_) =>
      if o.closure == Some(PaymentOutcomeUnknown) then Ok(o.(payment := SettleFailed, closure := Some(PaymentNotSettled)), [])
      else Not(EventNotApplicable)
    case MerchantDeparts(_) => Ok(o, [])
    case PurchaseRepeated(_) => Ok(o, [])
    case _ => Not(EventNotApplicable)
  }

  predicate AllowedWhileSettling(o: Order, e: Event) {
    || e.PaymentSettled? || e.PaymentSettleFailed?
    || ((o.state.Fulfilled? || o.state.DeliveredUnpaid?) && (e.DeliverCalled? || e.RefuseCalled?))
  }

  function FromState(o: Order, e: Event): Result {
    match o.state
    case Created => FromCreated(o, e)
    case Quoted => FromQuoted(o, e)
    case AwaitingConfirmation => FromAwaitingConfirmation(o, e)
    case Confirmed => FromConfirmed(o, e)
    case Paid => FromPaid(o, e)
    case Dispatched => FromDispatched(o, e)
    case Fulfilled => FromFulfilled(o, e)
    case Delivered => FromDelivered(o, e)
    case DeliveredUnpaid => FromDeliveredUnpaid(o, e)
    case RefundDue => FromRefundDue(o, e)
    case Refunded => FromRefunded(o, e)
    case Failed => FromFailed(o, e)
    case Expired => FromExpired(o, e)
    case _ => FromClosedWithoutMoney(o, e)
  }

  function Transition(o: Order, e: Event): Result {
    if e.DeadlineRunsOut? then OnDeadline(o, e.at, e.deadline)
    else if o.payment.Settling? && !AllowedWhileSettling(o, e) then Not(SettleInFlight)
    else FromState(o, e)
  }

  // ---------------------------------------------------------------------------------------
  // The rules about money that no order may break.

  datatype Violation =
    | PaidAndNowhere | PaidAndClosed | DebtWithoutCharge | SuccessWithoutMoney
    | UnpaidWithMoney | ChargingElsewhere | UnaccountedElsewhere | ChargingWithoutAClock

  predicate MayHoldTheMoney(s: State) { s.Paid? || s.Dispatched? || s.Delivered? || s.RefundDue? || s.Refunded? }

  predicate OwesNothing(s: State) { s.Rejected? || s.Declined? || s.Expired? || s.Cancelled? || s.Failed? }

  predicate MayBeCharging(s: State) { s.Quoted? || s.Confirmed? || s.Fulfilled? || s.DeliveredUnpaid? }

  function If(broken: bool, v: Violation): seq<Violation> { if broken then [v] else [] }

  function Violations(o: Order): seq<Violation> {
    If(o.payment.Settled? && !MayHoldTheMoney(o.state), PaidAndNowhere)
    + If(o.payment.Settled? && OwesNothing(o.state), PaidAndClosed)
    + If(!o.payment.Settled? && (o.state.RefundDue? || o.state.Refunded?), DebtWithoutCharge)
    + If(o.state.Delivered? && !o.payment.Settled?, SuccessWithoutMoney)
    + If(o.state.DeliveredUnpaid? && o.payment.Settled?, UnpaidWithMoney)
    + If(o.payment.Settling? && !MayBeCharging(o.state), ChargingElsewhere)
    + If(o.payment.OutcomeUnknown? && !(o.state.Rejected? || o.state.DeliveredUnpaid?), UnaccountedElsewhere)
    + If(o.payment.Settling? && o.times.settleStartedAt.None?, ChargingWithoutAClock)
  }

  // ---------------------------------------------------------------------------------------
  // What every step keeps.

  /** Where the money can be, state by state. */
  predicate MoneyRight(o: Order) {
    && (o.payment.Settling? ==> o.times.settleStartedAt.Some?)
    && match o.state
       case Created => o.payment.Unpaid?
       case Quoted => o.payment.Unpaid? || (o.payment.Settling? && o.mode.settle.OnPurchase?)
       case AwaitingConfirmation => o.payment.Unpaid?
       case Confirmed => o.payment.Unpaid? || (o.payment.Settling? && o.mode.settle.OnPurchase?)
       case Paid => o.payment == if o.mode.settle.AfterFulfillment? then Verified else Settled
       case Dispatched => o.payment == if o.mode.settle.AfterFulfillment? then Verified else Settled
       case Fulfilled => o.payment.Settling?
       case Delivered => o.payment.Settled?
       case DeliveredUnpaid => !o.payment.Settled? && !o.payment.Verified?
       case RefundDue => o.payment.Settled?
       case Refunded => o.payment.Settled?
       case Failed => o.payment.Verified?
       case Expired => o.payment.Unpaid? || o.payment.Verified?
       case Rejected =>
         (o.payment.Unpaid? || o.payment.SettleFailed? || o.payment.OutcomeUnknown?)
         && (o.payment.OutcomeUnknown? <==> o.closure == Some(PaymentOutcomeUnknown))
       case _ => (o.payment.Unpaid? || o.payment.Verified?) && o.closure != Some(PaymentOutcomeUnknown)
  }

  /** What the gateway has been told to do, and what it has reported back. */
  datatype Ledger = Ledger(executed: nat, reported: nat, settled: nat, released: nat, receipts: nat, refunds: nat)

  const NOTHING := Ledger(0, 0, 0, 0, 0, 0)

  function Booked(l: Ledger, e: Event, r: Result): Ledger
    requires r.Ok?
  {
    var effects := multiset(r.effects);
    Ledger(l.executed + effects[ExecutePayment],
           if e.PaymentSettled? || e.PaymentSettleFailed? then l.reported + 1 else l.reported,
           if e.PaymentSettled? then l.settled + 1 else l.settled,
           l.released + effects[ReleaseGoodsToAgent],
           l.receipts + effects[IssueReceipt],
           l.refunds + effects[MarkRefundDue])
  }

  /** The books against the order: charges sent and not reported on, money that has arrived,
      goods and receipts handed out, debts written down. */
  predicate BooksRight(o: Order, l: Ledger) {
    && l.executed - l.reported == (if o.payment.Settling? || o.payment.OutcomeUnknown? then 1 else 0)
    && l.settled == (if o.payment.Settled? then 1 else 0)
    && l.released == l.receipts == (if o.state.Delivered? then 1 else 0)
    && l.refunds <= 1
    && (o.state.RefundDue? || o.state.Refunded? ==> l.refunds == 1)
    && (!o.state.RefundDue? && !o.state.Refunded? && !o.state.Delivered? ==> l.refunds == 0)
  }

  predicate Right(o: Order, l: Ledger) { MoneyRight(o) && BooksRight(o, l) }

  predicate Reports(e: Event) { e.PaymentSettled? || e.PaymentSettleFailed? }

  predicate Unreported(o: Order) { o.payment.Settling? || o.payment.OutcomeUnknown? }

  predicate Indebted(o: Order) { o.state.RefundDue? || o.state.Refunded? }

  predicate Matters(x: Effect) { x.ExecutePayment? || x.ReleaseGoodsToAgent? || x.IssueReceipt? || x.MarkRefundDue? }

  /** None of the effects that matter twice over. */
  predicate Once(effects: seq<Effect>) { forall i, j :: 0 <= i < j < |effects| && Matters(effects[i]) ==> effects[i] != effects[j] }

  /** A charge goes out only where none is out, and is over once it is reported on; goods and
      receipt go out as the order becomes delivered, which it then stays; and a debt is written
      down as the order becomes indebted, which only a delivery ends. */
  predicate MovesMoney(o: Order, e: Event, t: Order, effects: seq<Effect>) {
    && Once(effects)
    && (ExecutePayment in effects ==> !Unreported(o) && Unreported(t) && !Reports(e))
    && (Reports(e) ==> Unreported(o) && !Unreported(t))
    && (ExecutePayment !in effects && !Reports(e) ==> (Unreported(t) <==> Unreported(o)))
    && (t.payment.Settled? <==> o.payment.Settled? || e.PaymentSettled?) && (e.PaymentSettled? ==> !o.payment.Settled?)
    && (o.state.Delivered? ==> t.state.Delivered?)
    && (ReleaseGoodsToAgent in effects <==> t.state.Delivered? && !o.state.Delivered?)
    && (IssueReceipt in effects <==> t.state.Delivered? && !o.state.Delivered?)
    && (MarkRefundDue in effects <==> Indebted(t) && !Indebted(o))
    && (Indebted(o) ==> Indebted(t) || t.state.Delivered?)
  }

  predicate Moves(o: Order, e: Event, r: Result) { r.Ok? ==> MoneyRight(r.order) && MovesMoney(o, e, r.order, r.effects) }

  lemma {:induction false} TimesOnce(effects: seq<Effect>, x: Effect)
    requires Once(effects) && Matters(x)
    ensures multiset(effects)[x] == if x in effects then 1 else 0
  {
    if effects != [] {
      var first, rest := effects[0], effects[1..];
      assert effects == [first] + rest;
      TimesOnce(rest, x);
      assert multiset(effects) == multiset{first} + multiset(rest);
    }
  }

  lemma MovesAreBooked(o: Order, e: Event, l: Ledger, r: Result)
    requires Right(o, l) && Moves(o, e, r) && r.Ok?
    ensures Right(r.order, Booked(l, e, r))
  {
    TimesOnce(r.effects, ExecutePayment);
    TimesOnce(r.effects, ReleaseGoodsToAgent);
    TimesOnce(r.effects, IssueReceipt);
    TimesOnce(r.effects, MarkRefundDue);
  }

  lemma CreatedMoves(o: Order, e: Event)
    requires MoneyRight(o) && o.state.Created? && !e.DeadlineRunsOut? && (o.payment.Settling? ==> AllowedWhileSettling(o, e))
    ensures Moves(o, e, FromCreated(o, e))
  {
  }

  lemma QuotedMoves(o: Order, e: Event)
    requires MoneyRight(o) && o.state.Quoted? && !e.DeadlineRunsOut? && (o.payment.Settling? ==> AllowedWhileSettling(o, e))
    ensures Moves(o, e, FromQuoted(o, e))
  {
  }

  lemma AwaitingConfirmationMoves(o: Order, e: Event)
    requires MoneyRight(o) && o.state.AwaitingConfirmation? && !e.DeadlineRunsOut? && (o.payment.Settling? ==> AllowedWhileSettling(o, e))
    ensures Moves(o, e, FromAwaitingConfirmation(o, e))
  {
  }

  lemma ConfirmedMoves(o: Order, e: Event)
    requires MoneyRight(o) && o.state.Confirmed? && !e.DeadlineRunsOut? && (o.payment.Settling? ==> AllowedWhileSettling(o, e))
    ensures Moves(o, e, FromConfirmed(o, e))
  {
  }

  /** An answer to the merchant, say, moves no money. */
  lemma MovesAndAnswers(o: Order, e: Event, r: Result, last: Effect)
    requires r.Ok? && Moves(o, e, r) && !Matters(last)
    ensures Moves(o, e, Ok(r.order, r.effects + [last]))
  {
    var all := r.effects + [last];
    assert forall x :: x in all <==> x in r.effects || x == last;
    assert Once(all);
  }

  lemma ResolvingMoves(o: Order, e: Event, closure: Closure)
    requires MoneyRight(o) && !Reports(e)
    requires o.state.Paid? || o.state.Dispatched? || (o.state.AwaitingConfirmation? && closure.DeadlineExpired?)
    ensures Moves(o, e, ResolveFailure(o, closure))
  {
    if o.payment.Settled? { OwingMoves(o, e, closure); } else { FailingMoves(o, e, closure); }
  }

  lemma OwingMoves(o: Order, e: Event, closure: Closure)
    requires MoneyRight(o) && !Reports(e) && o.payment.Settled? && (o.state.Paid? || o.state.Dispatched?)
    ensures Moves(o, e, Ok(Closed(o, RefundDue, closure), [MarkRefundDue, EmitMerchantEvent(RefundIsDue)]))
  {
  }

  lemma FailingMoves(o: Order, e: Event, closure: Closure)
    requires MoneyRight(o) && !Reports(e) && !o.payment.Settled?
    requires o.state.Paid? || o.state.Dispatched? || (o.state.AwaitingConfirmation? && closure.DeadlineExpired?)
    ensures Moves(o, e, Ok(Closed(o, if closure.MerchantRefused? then Failed else Expired, closure), []))
  {
  }

  lemma DeliveringMoves(o: Order, e: Event)
    requires MoneyRight(o) && o.state.Dispatched? && !Reports(e)
    ensures Moves(o, e, DeliverGoods(o, e.at, []))
  {
  }

  lemma RedeliveringMoves(o: Order, e: Event, delay: Option<real>, giveUp: DeadlineKind)
    requires MoneyRight(o) && !Reports(e) && (o.state.Dispatched? || o.state.AwaitingConfirmation?)
    ensures Moves(o, e, RedeliverOrGiveUp(o, delay, giveUp))
  {
    ResolvingMoves(o, e, DeadlineExpired(giveUp));
  }

  lemma DispatchedMoves(o: Order, e: Event)
    requires MoneyRight(o) && o.state.Dispatched? && !e.DeadlineRunsOut?
    ensures Moves(o, e, FromDispatched(o, e))
  {
    match e
    case HandlerDelivered(_) => DeliveringMoves(o, e);
    case DeliverCalled(_) =>
      if o.mode.settle.OnPurchase? {
        DeliveringMoves(o, e);
        MovesAndAnswers(o, e, DeliverGoods(o, e.at, []), AnswerMerchant(HandedOver));
        assert DeliverGoods(o, e.at, []).effects == [ReleaseGoodsToAgent, IssueReceipt];
      }
    case HandlerRefused(_, code, message) => ResolvingMoves(o, e, MerchantRefused(code, message));
    case RefuseCalled(_, code, message) =>
      ResolvingMoves(o, e, MerchantRefused(code, message));
      MovesAndAnswers(o, e, ResolveFailure(o, MerchantRefused(code, message)), AnswerMerchant(RefusalTaken));
    case HandlerUndelivered(_) =>
      var deadline := FulfillmentDeadline(o);
      var delay := NextDelay(o.dispatch.attempts, e.at, if deadline.Some? then Some(deadline.value.at) else None, o.policy.redelivery);
      RedeliveringMoves(o, e, delay, if deadline.Some? then deadline.value.kind
                                     else if o.mode.settle.AfterFulfillment? then SyncResponse else AsyncFulfillment);
    case _ =>
  }

  lemma PaidMoves(o: Order, e: Event)
    requires MoneyRight(o) && o.state.Paid? && !e.DeadlineRunsOut? && (o.payment.Settling? ==> AllowedWhileSettling(o, e))
    ensures Moves(o, e, FromPaid(o, e))
  {
    if e.DeliverCalled? || e.RefuseCalled? {
      DispatchedMoves(o.(state := Dispatched), e);
    } else if e.HandlerAccepted? || e.HandlerDelivered? || e.HandlerRefused? || e.HandlerUndelivered? {
      DispatchedMoves(HandedOverTo(o), e);
    }
  }

  lemma FulfilledMoves(o: Order, e: Event)
    requires MoneyRight(o) && o.state.Fulfilled? && !e.DeadlineRunsOut? && (o.payment.Settling? ==> AllowedWhileSettling(o, e))
    ensures Moves(o, e, FromFulfilled(o, e))
  {
  }

  lemma DeliveredMoves(o: Order, e: Event)
    requires MoneyRight(o) && o.state.Delivered? && !e.DeadlineRunsOut? && (o.payment.Settling? ==> AllowedWhileSettling(o, e))
    ensures Moves(o, e, FromDelivered(o, e))
  {
  }

  lemma DeliveredUnpaidMoves(o: Order, e: Event)
    requires MoneyRight(o) && o.state.DeliveredUnpaid? && !e.DeadlineRunsOut? && (o.payment.Settling? ==> AllowedWhileSettling(o, e))
    ensures Moves(o, e, FromDeliveredUnpaid(o, e))
  {
  }

  lemma RefundDueMoves(o: Order, e: Event)
    requires MoneyRight(o) && o.state.RefundDue? && !e.DeadlineRunsOut? && (o.payment.Settling? ==> AllowedWhileSettling(o, e))
    ensures Moves(o, e, FromRefundDue(o, e))
  {
  }

  lemma RefundedMoves(o: Order, e: Event)
    requires MoneyRight(o) && o.state.Refunded? && !e.DeadlineRunsOut? && (o.payment.Settling? ==> AllowedWhileSettling(o, e))
    ensures Moves(o, e, FromRefunded(o, e))
  {
  }

  lemma FailedMoves(o: Order, e: Event)
    requires MoneyRight(o) && o.state.Failed? && !e.DeadlineRunsOut? && (o.payment.Settling? ==> AllowedWhileSettling(o, e))
    ensures Moves(o, e, FromFailed(o, e))
  {
  }

  lemma ExpiredMoves(o: Order, e: Event)
    requires MoneyRight(o) && o.state.Expired? && !e.DeadlineRunsOut? && (o.payment.Settling? ==> AllowedWhileSettling(o, e))
    ensures Moves(o, e, FromExpired(o, e))
  {
  }

  lemma ClosedWithoutMoneyMoves(o: Order, e: Event)
    requires MoneyRight(o) && (o.state.Rejected? || o.state.Declined? || o.state.Cancelled?) && !e.DeadlineRunsOut? && (o.payment.Settling? ==> AllowedWhileSettling(o, e))
    ensures Moves(o, e, FromClosedWithoutMoney(o, e))
  {
  }

  /** Each deadline runs in its own place, and none but the settle's beside a charge that is out. */
  lemma RunningMeans(o: Order)
    requires MoneyRight(o) && Running(o).Some?
    ensures match Running(o).value.kind
            case SettleResponse => o.payment.Settling?
            case QuoteResponse => o.state.Created?
            case QuoteExpiry => o.state.Quoted? && o.payment.Unpaid?
            case ConfirmationResponse => o.state.AwaitingConfirmation?
            case PaymentAfterConfirmation => o.state.Confirmed? && o.payment.Unpaid?
            case _ => o.state.Paid? || o.state.Dispatched?
  {
  }

  lemma DeadlineMoves(o: Order, e: Event)
    requires MoneyRight(o) && e.DeadlineRunsOut?
    ensures Moves(o, e, OnDeadline(o, e.at, e.deadline))
  {
    if Running(o).Some? && Running(o).value.kind == e.deadline {
      RunningMeans(o);
      if e.deadline.SyncResponse? || e.deadline.AsyncFulfillment? {
        ResolvingMoves(o, e, DeadlineExpired(e.deadline));
      }
    }
  }

  lemma StateMoves(o: Order, e: Event)
    requires MoneyRight(o) && !e.DeadlineRunsOut? && (o.payment.Settling? ==> AllowedWhileSettling(o, e))
    ensures Moves(o, e, FromState(o, e))
  {
    match o.state
    case Created => CreatedMoves(o, e);
    case Quoted => QuotedMoves(o, e);
    case AwaitingConfirmation => AwaitingConfirmationMoves(o, e);
    case Confirmed => ConfirmedMoves(o, e);
    case Dispatched => DispatchedMoves(o, e);
    case Paid => PaidMoves(o, e);
    case Fulfilled => FulfilledMoves(o, e);
    case Delivered => DeliveredMoves(o, e);
    case DeliveredUnpaid => DeliveredUnpaidMoves(o, e);
    case RefundDue => RefundDueMoves(o, e);
    case Refunded => RefundedMoves(o, e);
    case Failed => FailedMoves(o, e);
    case Expired => ExpiredMoves(o, e);
    case _ => ClosedWithoutMoneyMoves(o, e);
  }

  /** Every step keeps the order and its books in agreement. */
  lemma StepKeepsRight(o: Order, e: Event, l: Ledger)
    requires Right(o, l)
    ensures Transition(o, e).Ok? ==> Right(Transition(o, e).order, Booked(l, e, Transition(o, e)))
  {
    if e.DeadlineRunsOut? {
      DeadlineMoves(o, e);
    } else if o.payment.Settling? ==> AllowedWhileSettling(o, e) {
      StateMoves(o, e);
    }
    if Transition(o, e).Ok? { MovesAreBooked(o, e, l, Transition(o, e)); }
  }

  lemma RightIsLawful(o: Order)
    requires MoneyRight(o)
    ensures Violations(o) == []
  {
  }

  // ---------------------------------------------------------------------------------------
  // Whole lives.

  datatype Life = Life(order: Order, books: Ledger)

  /** One event after another; one that is turned away changes nothing. */
  function Live(life: Life, events: seq<Event>): Life
    decreases |events|
  {
    if events == [] then life
    else
      var r := Transition(life.order, events[0]);
      Live(if r.Ok? then Life(r.order, Booked(life.books, events[0], r)) else life, events[1..])
  }

  function Born(input: NewOrder): Option<Life> {
    match Create(input)
    case None => None
    case Some(made) => Some(Life(made.0, NOTHING))
  }

  lemma {:induction false} LifeStaysRight(life: Life, events: seq<Event>)
    requires Right(life.order, life.books)
    ensures Right(Live(life, events).order, Live(life, events).books)
    decreases |events|
  {
    if events != [] {
      StepKeepsRight(life.order, events[0], life.books);
      var r := Transition(life.order, events[0]);
      LifeStaysRight(if r.Ok? then Life(r.order, Booked(life.books, events[0], r)) else life, events[1..]);
    }
  }

  /** Whatever order is created and whatever events reach it, lost, repeated or out of turn, no
      rule about money is ever broken. */
  lemma NoMoneyRuleIsEverBroken(input: NewOrder, events: seq<Event>)
    requires Born(input).Some?
    ensures Violations(Live(Born(input).value, events).order) == []
  {
    LifeStaysRight(Born(input).value, events);
    RightIsLawful(Live(Born(input).value, events).order);
  }

  /** And over that whole life: at most one charge is ever out unreported, and the buyer's money
      arrives at most once; goods and receipt go out at most once, together, and only for money
      that arrived; and at most one debt is written down, behind a charge. */
  lemma NothingIsSpentTwice(input: NewOrder, events: seq<Event>)
    requires Born(input).Some?
    ensures var end := Live(Born(input).value, events);
            && 0 <= end.books.executed - end.books.reported <= 1
            && end.books.settled <= 1 && (end.books.settled == 1 <==> end.order.payment.Settled?)
            && end.books.released == end.books.receipts <= end.books.settled
            && end.books.refunds <= end.books.settled
            && (end.order.state.Refunded? ==> end.books.released == 0 && end.books.refunds == 1)
  {
    LifeStaysRight(Born(input).value, events);
  }

  /** A report on a charge is taken exactly where a charge is out unreported, however the order
      has fared since; and money that arrives is always on record, as a purchase under way, a
      success or a debt. */
  lemma ReportsAreTakenExactlyWhen(o: Order, e: Event)
    requires MoneyRight(o) && Reports(e)
    ensures Transition(o, e).Ok? <==> Unreported(o)
    ensures e.PaymentSettled? && Unreported(o) ==>
              var t := Transition(o, e).order; t.payment.Settled? && (t.state.Paid? || t.state.Delivered? || t.state.RefundDue?)
  {
    if !o.payment.Settling? || AllowedWhileSettling(o, e) { StateMoves(o, e); }
  }

  /** "Come back later" is said exactly while a charge is out: to everything but its own report,
      and to a repeat that would pay a second time. And it is meant: whichever way the charge is
      then reported on, the report is taken, and the same event sent again is answered. */
  lemma LaterIsAnsweredLater(o: Order, e: Event)
    requires MoneyRight(o)
    ensures Transition(o, e) == Not(SettleInFlight) <==>
              || (o.payment.Settling? && !e.DeadlineRunsOut? && !AllowedWhileSettling(o, e))
              || (o.payment.OutcomeUnknown? && o.state.DeliveredUnpaid? && e.PurchaseRepeated?)
    ensures Transition(o, e) == Not(SettleInFlight) ==>
              forall report :: Reports(report) ==>
                Transition(o, report).Ok? && Transition(Transition(o, report).order, e) != Not(SettleInFlight)
  {
    if Transition(o, e) == Not(SettleInFlight) {
      forall report | Reports(report)
        ensures Transition(o, report).Ok? && Transition(Transition(o, report).order, e) != Not(SettleInFlight)
      {
        ReportEndsTheCharge(o, report);
        NotLater(Transition(o, report).order, e);
      }
    }
  }

  lemma ReportEndsTheCharge(o: Order, report: Event)
    requires MoneyRight(o) && Reports(report) && Unreported(o)
    ensures Transition(o, report).Ok? && !Unreported(Transition(o, report).order)
  {
    ReportsAreTakenExactlyWhen(o, report);
    StateMoves(o, report);
  }

  lemma NotLater(o: Order, e: Event)
    requires !Unreported(o)
    ensures Transition(o, e) != Not(SettleInFlight)
  {
  }

  // ---------------------------------------------------------------------------------------
  // Nobody waits for ever.

  predicate IsFinal(s: State) { s.Delivered? || s.Refunded? || s.Failed? || s.Declined? || s.Cancelled? }

  predicate IsOpen(s: State) { !IsFinal(s) && !s.Rejected? && !s.Expired? }

  /** An open order that is not a debt either way, or one whose charge is out. */
  predicate WaitsForSomebody(o: Order) { IsOpen(o.state) && !o.state.RefundDue? && (o.state.DeliveredUnpaid? ==> o.payment.Settling?) }

  /** The instant each wait is counted from has been written down. */
  predicate ClocksSet(o: Order) {
    && (o.state.Quoted? ==> o.times.quotedAt.Some?)
    && (o.state.AwaitingConfirmation? ==> o.times.confirmationRequestedAt.Some?)
    && (o.state.Confirmed? ==> o.times.confirmedAt.Some?)
    && (o.state.Paid? || o.state.Dispatched? ==> o.times.paidAt.Some?)
  }

  predicate BeforePaid(s: State) { s.Created? || s.Quoted? || s.AwaitingConfirmation? || s.Confirmed? }

  lemma EarlyStatesKeepClocks(o: Order, e: Event)
    requires MoneyRight(o) && ClocksSet(o) && BeforePaid(o.state)
    ensures FromState(o, e).Ok? ==> ClocksSet(FromState(o, e).order)
  {
  }

  lemma MerchantStatesKeepClocks(o: Order, e: Event)
    requires MoneyRight(o) && ClocksSet(o) && (o.state.Paid? || o.state.Dispatched?)
    ensures FromState(o, e).Ok? ==> ClocksSet(FromState(o, e).order)
  {
  }

  lemma LateStatesKeepClocks(o: Order, e: Event)
    requires MoneyRight(o) && !BeforePaid(o.state) && !o.state.Paid? && !o.state.Dispatched?
    ensures FromState(o, e).Ok? ==> ClocksSet(FromState(o, e).order)
  {
  }

  lemma StateKeepsClocks(o: Order, e: Event)
    requires MoneyRight(o) && ClocksSet(o)
    ensures FromState(o, e).Ok? ==> ClocksSet(FromState(o, e).order)
  {
    if BeforePaid(o.state) {
      EarlyStatesKeepClocks(o, e);
    } else if o.state.Paid? || o.state.Dispatched? {
      MerchantStatesKeepClocks(o, e);
    } else {
      LateStatesKeepClocks(o, e);
    }
  }

  lemma DeadlineKeepsClocks(o: Order, e: Event)
    requires MoneyRight(o) && ClocksSet(o) && e.DeadlineRunsOut?
    ensures Transition(o, e).Ok? ==> ClocksSet(Transition(o, e).order)
  {
  }

  lemma {:induction false} LifeKeepsClocks(life: Life, events: seq<Event>)
    requires Right(life.order, life.books) && ClocksSet(life.order)
    ensures MoneyRight(Live(life, events).order) && ClocksSet(Live(life, events).order)
    decreases |events|
  {
    if events != [] {
      var o, e, r := life.order, events[0], Transition(life.order, events[0]);
      StepKeepsRight(o, e, life.books);
      if e.DeadlineRunsOut? { DeadlineKeepsClocks(o, e); } else { StateKeepsClocks(o, e); }
      LifeKeepsClocks(if r.Ok? then Life(r.order, Booked(life.books, e, r)) else life, events[1..]);
    }
  }

  /** How many clocks may still have to run out: a price nobody names has a life of its own. */
  function WaitsLeft(o: Order): nat { if !WaitsForSomebody(o) then 0 else if o.state.Created? then 2 else 1 }

  /** Whatever has happened to an order, it has a clock exactly while it is waiting for somebody;
      and that clock running out is always taken, and always leaves fewer waits, so that two at
      most bring it to an end. */
  lemma NobodyWaitsForEver(input: NewOrder, events: seq<Event>, at: Instant)
    requires Born(input).Some?
    ensures var o := Live(Born(input).value, events).order;
            && (Running(o).Some? <==> WaitsForSomebody(o))
            && (Running(o).Some? && Running(o).value.at <= at ==>
                  var r := Transition(o, DeadlineRunsOut(at, Running(o).value.kind));
                  r.Ok? && WaitsLeft(r.order) < WaitsLeft(o) <= 2)
  {
    var o := Live(Born(input).value, events).order;
    LifeKeepsClocks(Born(input).value, events);
    ClockWhileWaiting(o);
    if Running(o).Some? && Running(o).value.at <= at { ExpiryEndsAWait(o, at); }
  }

  lemma ClockWhileWaiting(o: Order)
    requires MoneyRight(o) && ClocksSet(o)
    ensures Running(o).Some? <==> WaitsForSomebody(o)
  {
  }

  lemma ExpiryEndsAWait(o: Order, at: Instant)
    requires MoneyRight(o) && Running(o).Some? && Running(o).value.at <= at
    ensures var r := Transition(o, DeadlineRunsOut(at, Running(o).value.kind)); r.Ok? && WaitsLeft(r.order) < WaitsLeft(o)
  {
    RunningMeans(o);
  }

  lemma StepKeepsFinal(o: Order, e: Event)
    requires MoneyRight(o) && IsFinal(o.state) && Transition(o, e).Ok?
    ensures Transition(o, e).order.state == o.state && Transition(o, e).order.payment == o.payment
    ensures ExecutePayment !in Transition(o, e).effects && ReleaseGoodsToAgent !in Transition(o, e).effects
  {
  }

  /** A final order stays where it is, and spends and hands over nothing any more. */
  lemma {:induction false} FinalForGood(life: Life, events: seq<Event>)
    requires Right(life.order, life.books) && IsFinal(life.order.state)
    ensures var end := Live(life, events);
            && end.order.state == life.order.state && end.order.payment == life.order.payment
            && end.books.executed == life.books.executed && end.books.released == life.books.released
    decreases |events|
  {
    if events != [] {
      var r := Transition(life.order, events[0]);
      StepKeepsRight(life.order, events[0], life.books);
      if r.Ok? { StepKeepsFinal(life.order, events[0]); }
      FinalForGood(if r.Ok? then Life(r.order, Booked(life.books, events[0], r)) else life, events[1..]);
    }
  }
}
