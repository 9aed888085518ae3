/**
 * `CheckingExistsDocumentsPipe`: the first stage of order processing. An
 * order placed through a manager carries no documents and stops here as
 * WITHOUT_DOCS; any other order is marked as paid (or reserved, for a card
 * payment) and handed on.
 */
module ExistsDocumentsCheck {
  import opened Wrappers
  import opened OrderModels
  import opened PaymentModels
  import opened PaymentEnums
  import opened Storage
  import opened PipeCore

  const ALLOWED_STATUSES: seq<Status> := [AwaitPayment, AwaitReservation]

  /** `get_pipe_name`. */
  const PIPE_NAME := "Проверка наличия документов"

  const WITHOUT_DOCS_DETAILS := "Заказ без документов"

  /** `is_valid_status`. */
  function IsValidStatus(s: Status): (r: bool)
    ensures r <==> s == AwaitPayment || s == AwaitReservation
  {
    s in ALLOWED_STATUSES
  }

  /** The status a document-carrying order moves to: reserved for a two-stage card payment, paid otherwise. */
  function PassedStatus(strategy: string): (s: Status)
    ensures s == ReservationSuccess <==> strategy == Card.Value()
    ensures s == ReservationSuccess || s == PaymentSuccess
  {
    if strategy == Card.Value() then ReservationSuccess else PaymentSuccess
  }

  /**
   * The effect of `invoke` on an order whose status is `status`: refused
   * outside the allowed statuses; a manager order is saved as WITHOUT_DOCS,
   * noticed and stopped; otherwise the order's new status is saved, the
   * data is stored as the result and handed on.
   */
  function Effect(p: Pipe, dto: PipeOrderDTO, status: Status): (e: PipeEffect)
    ensures !IsValidStatus(status) ==> e == Refused(dto.order, p, status, ALLOWED_STATUSES)
    ensures e.forwards <==> IsValidStatus(status) && !dto.order.withManager && dto.paymentData.Some?
    ensures e.forwards ==> e.outcome == Finished && e.stored == Some(dto)
    ensures e.forwards ==> e.trace == [StatusSaved(dto.order.pk, PassedStatus(dto.paymentData.value.paymentStrategy))]
    ensures IsValidStatus(status) && dto.order.withManager ==>
      && e.trace == [StatusSaved(dto.order.pk, WithoutDocs), NoticeSent(OrderWithoutDocsNoticeSender, dto.order.pk)]
      && e.outcome == Raised(PipeProcess(p, ProcessMessage(ClassName(p.kind), WITHOUT_DOCS_DETAILS)))
      && e.stored == None
    ensures IsValidStatus(status) && !dto.order.withManager && dto.paymentData.None? ==>
      e == PipeEffect([], Raised(PaymentDataMissing), None, false)
  {
    var order := dto.order;
    if !IsValidStatus(status) then Refused(order, p, status, ALLOWED_STATUSES)
    else if order.withManager then
      PipeEffect([StatusSaved(order.pk, WithoutDocs), NoticeSent(OrderWithoutDocsNoticeSender, order.pk)],
                 Raised(PipeProcess(p, ProcessMessage(ClassName(p.kind), WITHOUT_DOCS_DETAILS))), None, false)
    else if dto.paymentData.None? then PipeEffect([], Raised(PaymentDataMissing), None, false)
    else PipeEffect([StatusSaved(order.pk, PassedStatus(dto.paymentData.value.paymentStrategy))], Finished, Some(dto), true)
  }

  /** `invoke`, up to the call of the next pipe, which the caller makes when `callsNext` holds. */
  method Invoke(p: Pipe, dto: PipeOrderDTO, db: Db) returns (outcome: PipeOutcome, callsNext: bool)
    requires p.kind == CheckingExistsDocumentsPipe
    modifies p`result, dto.order`status, db`trace
    ensures Performed(Effect(p, dto, old(dto.order.status)), p, dto, db, outcome, callsNext)
  {
    var order := dto.order;
    if !IsValidStatus(order.status) {
      return Raised(InvalidOrderStatus(order, p, InvalidStatusMessage(order.pk, order.status, ALLOWED_STATUSES))), false;
    }
    if order.withManager {
      order.status := WithoutDocs;
      db.SaveStatus(order);
      db.Record(NoticeSent(OrderWithoutDocsNoticeSender, order.pk));
      ApplySessionsUntouched(db.sessions, [StatusSaved(order.pk, WithoutDocs), NoticeSent(OrderWithoutDocsNoticeSender, order.pk)]);
      return Raised(PipeProcess(p, ProcessMessage(ClassName(p.kind), WITHOUT_DOCS_DETAILS))), false;
    }
    if dto.paymentData.None? {
      return Raised(PaymentDataMissing), false;
    }
    if dto.paymentData.value.paymentStrategy == Card.Value() {
      order.status := ReservationSuccess;
    } else {
      order.status := PaymentSuccess;
    }
    db.SaveStatus(order);
    ApplySessionsUntouched(db.sessions, [StatusSaved(order.pk, order.status)]);
    p.result := Some(dto);
    outcome, callsNext := Finished, p.next != null;
  }
}
