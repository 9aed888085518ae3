/**
 * `CancelOrderPipe`: the order's payment is cancelled with the gateway,
 * and only when that succeeded is the order CANCELED, stored as the result
 * and its client notified by the pipe's notice sender. It ends a chain: the
 * next pipe is never called.
 */
module OrderCancellation {
  import opened Wrappers
  import opened OrderModels
  import opened PaymentModels
  import opened Gateway
  import opened Storage
  import opened PipeCore

  const ALLOWED_STATUSES: seq<Status> := [
    New, AwaitPayment, AwaitReservation, ReservationSuccess, PaymentSuccess,
    WithoutDocs, VerifyFailed, ApprovalSuccess, ConfirmPaymentFailed, Booked]

  /** `get_pipe_name`. */
  const PIPE_NAME := "Отмена заказа"

  /** `is_valid_status`: every status up to BOOKED except the intermediate ON_APPROVAL and AWAIT_CONFIRM_PAYMENT. */
  function IsValidStatus(s: Status): (r: bool)
    ensures r <==> !(s == Active || s == Completed || s == Canceled || s == Rejected || s == OnApproval
                     || s == AwaitConfirmPayment || s == OnReinit || s == ReinitFailed || s == PaymentSessionExpired)
    ensures r <==> s in ALLOWED_STATUSES
  {
    match s
    case Active | Completed | Canceled | Rejected | OnApproval | AwaitConfirmPayment
       | OnReinit | ReinitFailed | PaymentSessionExpired => false
    case _ => true
  }

  /** `notice_sender or default_notice_sender_class()`: a given sender is used, OrderCanceledNoticeSender otherwise. */
  function ChosenSender(given: Option<NoticeSender>): (s: NoticeSender)
    ensures given.Some? ==> s == given.value
    ensures given.None? ==> s == OrderCanceledNoticeSender
  {
    match given
    case Some(sender) => sender
    case None => OrderCanceledNoticeSender
  }

  /** `CancelOrderPipe(notice_sender)`. */
  method NewCancelOrderPipe(given: Option<NoticeSender>) returns (p: Pipe)
    ensures fresh(p)
    ensures p.kind == CancelOrderPipe(ChosenSender(given)) && p.next == null && p.result == None
  {
    p := new Pipe(CancelOrderPipe(ChosenSender(given)));
  }

  /** The cancellation request of TinkoffPaymentCancellationService for a payment. */
  function CancelRequest(paymentId: string): Request
  {
    PaymentIdRequest(CANCEL_ROUTE, paymentId)
  }

  /**
   * The effect of `invoke` on an order whose status is `status`, with notice
   * sender `sender`: the gateway is asked first, a failed cancellation
   * leaves the order's status as it was, a successful one saves CANCELED
   * and then notifies. It never hands over.
   */
  function Effect(p: Pipe, sender: NoticeSender, dto: PipeOrderDTO, status: Status, gateway: Request -> Response): (e: PipeEffect)
    ensures !e.forwards
    ensures !IsValidStatus(status) ==> e == Refused(dto.order, p, status, ALLOWED_STATUSES)
    ensures IsValidStatus(status) && dto.paymentData.Some? ==> |e.trace| >= 1
    ensures IsValidStatus(status) && dto.paymentData.None? ==> e == PipeEffect([], Raised(PaymentDataMissing), None, false)
    ensures IsValidStatus(status) && dto.paymentData.Some? ==>
      var q := CancelRequest(dto.paymentData.value.paymentId);
      && e.trace[0] == GatewayRequested(q)
      && (CheckResponse(gateway(q)).Some? ==>
            e == PipeEffect([GatewayRequested(q)], Raised(GatewayFailure(CheckResponse(gateway(q)).value)), None, false))
      && (CheckResponse(gateway(q)).None? ==>
            && e.trace == [GatewayRequested(q), StatusSaved(dto.order.pk, Canceled), NoticeSent(sender, dto.order.pk)]
            && e.outcome == Finished && e.stored == Some(dto))
  {
    var order := dto.order;
    if !IsValidStatus(status) then Refused(order, p, status, ALLOWED_STATUSES)
    else if dto.paymentData.None? then PipeEffect([], Raised(PaymentDataMissing), None, false)
    else
      var q := CancelRequest(dto.paymentData.value.paymentId);
      match CheckResponse(gateway(q))
      case Some(err) => PipeEffect([GatewayRequested(q)], Raised(GatewayFailure(err)), None, false)
      case None =>
        PipeEffect([GatewayRequested(q), StatusSaved(order.pk, Canceled), NoticeSent(sender, order.pk)], Finished, Some(dto), false)
  }

  /** `invoke`. */
  method Invoke(p: Pipe, dto: PipeOrderDTO, db: Db, gateway: Request -> Response) returns (outcome: PipeOutcome, callsNext: bool)
    requires p.kind.CancelOrderPipe?
    modifies p`result, dto.order`status, db`trace
    ensures Performed(Effect(p, p.kind.noticeSender, dto, old(dto.order.status), gateway), p, dto, db, outcome, callsNext)
  {
    var order := dto.order;
    if !IsValidStatus(order.status) {
      return Raised(InvalidOrderStatus(order, p, InvalidStatusMessage(order.pk, order.status, ALLOWED_STATUSES))), false;
    }
    outcome, callsNext := CancelAdmitted(p, dto, db, gateway);
  }

  /** The part of `invoke` past its guard: an order without a payment session fails on it. */
  method CancelAdmitted(p: Pipe, dto: PipeOrderDTO, db: Db, gateway: Request -> Response) returns (outcome: PipeOutcome, callsNext: bool)
    requires p.kind.CancelOrderPipe? && IsValidStatus(dto.order.status)
    modifies p`result, dto.order`status, db`trace
    ensures Performed(Effect(p, p.kind.noticeSender, dto, old(dto.order.status), gateway), p, dto, db, outcome, callsNext)
  {
    if dto.paymentData.None? {
      return Raised(PaymentDataMissing), false;
    }
    outcome, callsNext := CancelPaid(p, dto, db, gateway);
  }

  /** The cancellation of an order that has a payment session: the gateway is asked, then CANCELED on success. */
  method CancelPaid(p: Pipe, dto: PipeOrderDTO, db: Db, gateway: Request -> Response) returns (outcome: PipeOutcome, callsNext: bool)
    requires p.kind.CancelOrderPipe? && IsValidStatus(dto.order.status) && dto.paymentData.Some?
    modifies p`result, dto.order`status, db`trace
    ensures Performed(Effect(p, p.kind.noticeSender, dto, old(dto.order.status), gateway), p, dto, db, outcome, callsNext)
  {
    var q := CancelRequest(dto.paymentData.value.paymentId);
    db.Record(GatewayRequested(q));
    var failure := CheckResponse(gateway(q));
    if failure.Some? {
      ApplySessionsUntouched(db.sessions, [GatewayRequested(q)]);
      return Raised(GatewayFailure(failure.value)), false;
    }
    Commit(p, dto, db, q);
    outcome, callsNext := Finished, false;
  }

  /** A cancellation the gateway accepted: CANCELED is saved, the DTO stored, and the client notified. */
  method Commit(p: Pipe, dto: PipeOrderDTO, db: Db, ghost q: Request)
    requires p.kind.CancelOrderPipe?
    modifies p`result, dto.order`status, db`trace
    ensures db.trace == old(db.trace) + [StatusSaved(dto.order.pk, Canceled), NoticeSent(p.kind.noticeSender, dto.order.pk)]
    ensures dto.order.status == Canceled && p.result == Some(dto)
    ensures ApplySessions(db.sessions, [GatewayRequested(q), StatusSaved(dto.order.pk, Canceled), NoticeSent(p.kind.noticeSender, dto.order.pk)]) == db.sessions
    ensures LastStatus(old(dto.order.status), [GatewayRequested(q), StatusSaved(dto.order.pk, Canceled), NoticeSent(p.kind.noticeSender, dto.order.pk)]) == Canceled
  {
    dto.order.status := Canceled;
    db.SaveStatus(dto.order);
    p.result := Some(dto);
    db.Record(NoticeSent(p.kind.noticeSender, dto.order.pk));
    ApplySessionsUntouched(db.sessions, [GatewayRequested(q), StatusSaved(dto.order.pk, Canceled), NoticeSent(p.kind.noticeSender, dto.order.pk)]);
  }
}
