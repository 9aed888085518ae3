/**
 * `ConfirmOrderPipe`: a card payment is two-stage, so its reserved amount is
 * confirmed with the gateway first (AWAIT_CONFIRM_PAYMENT while asking,
 * CONFIRM_PAYMENT_FAILED and a stop when the gateway refuses); then the
 * order is BOOKED, stored as the result, the client is notified and the
 * order handed on.
 */
module OrderConfirmation {
  import opened Wrappers
  import opened OrderModels
  import opened PaymentModels
  import opened PaymentEnums
  import opened Gateway
  import opened Storage
  import opened PipeCore

  const ALLOWED_STATUSES: seq<Status> := [ApprovalSuccess, WithoutDocs, VerifyFailed, ConfirmPaymentFailed]

  /** `get_pipe_name`. */
  const PIPE_NAME := "Подтверждение заказа"

  const CONFIRM_FAILED_DETAILS := "Ошибка подтверждения платежа"

  /** `is_valid_status`. */
  function IsValidStatus(s: Status): (r: bool)
    ensures r <==> s == ApprovalSuccess || s == WithoutDocs || s == VerifyFailed || s == ConfirmPaymentFailed
  {
    s in ALLOWED_STATUSES
  }

  /** The confirmation request of TinkoffPaymentConfirmationService for a payment. */
  function ConfirmRequest(paymentId: string): Request
  {
    PaymentIdRequest(CONFIRM_ROUTE, paymentId)
  }

  /** The record of asking the gateway: AWAIT_CONFIRM_PAYMENT saved, then the confirmation request. */
  function AskedRecord(pk: Option<nat>, paymentId: string): seq<Event>
  {
    [StatusSaved(pk, AwaitConfirmPayment), GatewayRequested(ConfirmRequest(paymentId))]
  }

  /** The record the booking leaves: BOOKED saved, then the confirmation notice. */
  function BookedRecord(pk: Option<nat>): seq<Event>
  {
    [StatusSaved(pk, Booked), NoticeSent(OrderConfirmedNoticeSender, pk)]
  }

  /**
   * The effect of `invoke` on an order whose status is `status`, the
   * gateway answering with `gateway`. A card payment is confirmed first;
   * any failure of that confirmation (a non-200 answer, a missing or false
   * `Success`) stops the pipe before BOOKED.
   */
  function Effect(p: Pipe, dto: PipeOrderDTO, status: Status, gateway: Request -> Response): (e: PipeEffect)
    ensures !IsValidStatus(status) ==> e == Refused(dto.order, p, status, ALLOWED_STATUSES)
    ensures IsValidStatus(status) && dto.paymentData.None? ==> e == PipeEffect([], Raised(PaymentDataMissing), None, false)
    ensures IsValidStatus(status) && dto.paymentData.Some? && dto.paymentData.value.paymentStrategy == Card.Value() ==>
      var asked := AskedRecord(dto.order.pk, dto.paymentData.value.paymentId);
      && (e.forwards <==> CheckResponse(gateway(ConfirmRequest(dto.paymentData.value.paymentId))).None?)
      && (!e.forwards ==>
            && e.trace == asked + [StatusSaved(dto.order.pk, ConfirmPaymentFailed)]
            && e.outcome == Raised(PipeProcess(p, ProcessMessage(ClassName(p.kind), CONFIRM_FAILED_DETAILS))))
      && (e.forwards ==> e.trace == asked + BookedRecord(dto.order.pk))
    ensures IsValidStatus(status) && dto.paymentData.Some? && dto.paymentData.value.paymentStrategy != Card.Value() ==>
      e.trace == BookedRecord(dto.order.pk) && e.forwards
    ensures e.forwards ==> e.outcome == Finished && e.stored == Some(dto)
    ensures !e.forwards ==> e.stored == None && e.outcome.Raised?
  {
    var order := dto.order;
    if !IsValidStatus(status) then Refused(order, p, status, ALLOWED_STATUSES)
    else if dto.paymentData.None? then PipeEffect([], Raised(PaymentDataMissing), None, false)
    else if dto.paymentData.value.paymentStrategy == Card.Value() then
      var pid := dto.paymentData.value.paymentId;
      var asked := AskedRecord(order.pk, pid);
      if CheckResponse(gateway(ConfirmRequest(pid))).Some? then
        PipeEffect(asked + [StatusSaved(order.pk, ConfirmPaymentFailed)],
                   Raised(PipeProcess(p, ProcessMessage(ClassName(p.kind), CONFIRM_FAILED_DETAILS))), None, false)
      else PipeEffect(asked + BookedRecord(order.pk), Finished, Some(dto), true)
    else PipeEffect(BookedRecord(order.pk), Finished, Some(dto), true)
  }

  /**
   * `__manual_confirm_payment`: AWAIT_CONFIRM_PAYMENT is saved before the
   * gateway is asked; on failure CONFIRM_PAYMENT_FAILED is saved and the
   * PipeProcessException is returned.
   */
  method ManualConfirmPayment(p: Pipe, order: Order, paymentId: string, db: Db, gateway: Request -> Response)
    returns (failure: Option<PipeError>)
    modifies order`status, db`trace
    ensures failure.None? <==> CheckResponse(gateway(ConfirmRequest(paymentId))).None?
    ensures failure.Some? ==>
      && failure.value == PipeProcess(p, ProcessMessage(ClassName(p.kind), CONFIRM_FAILED_DETAILS))
      && db.trace == old(db.trace) + (AskedRecord(order.pk, paymentId) + [StatusSaved(order.pk, ConfirmPaymentFailed)])
      && order.status == ConfirmPaymentFailed
    ensures failure.None? ==> db.trace == old(db.trace) + AskedRecord(order.pk, paymentId)
  {
    order.status := AwaitConfirmPayment;
    db.SaveStatus(order);
    var q := ConfirmRequest(paymentId);
    db.Record(GatewayRequested(q));
    assert db.trace == old(db.trace) + AskedRecord(order.pk, paymentId);
    if CheckResponse(gateway(q)).Some? {
      order.status := ConfirmPaymentFailed;
      db.SaveStatus(order);
      assert db.trace == old(db.trace) + (AskedRecord(order.pk, paymentId) + [StatusSaved(order.pk, ConfirmPaymentFailed)]);
      return Some(PipeProcess(p, ProcessMessage(ClassName(p.kind), CONFIRM_FAILED_DETAILS)));
    }
    failure := None;
  }

  /** `invoke`, up to the call of the next pipe. */
  method Invoke(p: Pipe, dto: PipeOrderDTO, db: Db, gateway: Request -> Response) returns (outcome: PipeOutcome, callsNext: bool)
    requires p.kind == ConfirmOrderPipe
    modifies p`result, dto.order`status, db`trace
    ensures Performed(Effect(p, dto, old(dto.order.status), gateway), p, dto, db, outcome, callsNext)
  {
    var order := dto.order;
    if !IsValidStatus(order.status) {
      return Raised(InvalidOrderStatus(order, p, InvalidStatusMessage(order.pk, order.status, ALLOWED_STATUSES))), false;
    }
    if dto.paymentData.None? {
      return Raised(PaymentDataMissing), false;
    }
    outcome, callsNext := ConfirmAndBook(p, dto, db, gateway);
  }

  /** The part of `invoke` past its guards: the card confirmation, then the booking. */
  method ConfirmAndBook(p: Pipe, dto: PipeOrderDTO, db: Db, gateway: Request -> Response) returns (outcome: PipeOutcome, callsNext: bool)
    requires p.kind == ConfirmOrderPipe && IsValidStatus(dto.order.status) && dto.paymentData.Some?
    modifies p`result, dto.order`status, db`trace
    ensures Performed(Effect(p, dto, old(dto.order.status), gateway), p, dto, db, outcome, callsNext)
  {
    var order := dto.order;
    ghost var asked: seq<Event> := [];
    if dto.paymentData.value.paymentStrategy == Card.Value() {
      asked := AskedRecord(order.pk, dto.paymentData.value.paymentId);
      var failure := ManualConfirmPayment(p, order, dto.paymentData.value.paymentId, db, gateway);
      if failure.Some? {
        ApplySessionsUntouched(db.sessions, asked + [StatusSaved(order.pk, ConfirmPaymentFailed)]);
        return Raised(failure.value), false;
      }
    }
    Book(p, dto, db);
    assert db.trace == old(db.trace) + (asked + BookedRecord(order.pk));
    assert LastStatus(old(order.status), asked + BookedRecord(order.pk)) == Booked;
    ApplySessionsUntouched(db.sessions, asked + BookedRecord(order.pk));
    outcome, callsNext := Finished, p.next != null;
  }

  /** The booking: BOOKED saved, the order stored as the result, the confirmation notice sent. */
  method Book(p: Pipe, dto: PipeOrderDTO, db: Db)
    modifies p`result, dto.order`status, db`trace
    ensures db.trace == old(db.trace) + BookedRecord(dto.order.pk)
    ensures dto.order.status == Booked && p.result == Some(dto)
  {
    dto.order.status := Booked;
    db.SaveStatus(dto.order);
    p.result := Some(dto);
    db.Record(NoticeSent(OrderConfirmedNoticeSender, dto.order.pk));
  }
}
