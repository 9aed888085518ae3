/**
 * `CompleteOrderPipe`: an ACTIVE order becomes COMPLETED and is stored as
 * the result. It ends a chain: the next pipe is never called.
 */
module OrderCompletion {
  import opened Wrappers
  import opened OrderModels
  import opened Storage
  import opened PipeCore

  const ALLOWED_STATUSES: seq<Status> := [Active]

  /** `get_pipe_name`. */
  const PIPE_NAME := "Завершение заказа"

  /** `is_valid_status`. */
  function IsValidStatus(s: Status): (r: bool)
    ensures r <==> s == Active
  {
    s in ALLOWED_STATUSES
  }

  /** The effect of `invoke`: one status save, COMPLETED, and nothing else. */
  function Effect(p: Pipe, dto: PipeOrderDTO, status: Status): (e: PipeEffect)
    ensures !e.forwards
    ensures !IsValidStatus(status) ==> e == Refused(dto.order, p, status, ALLOWED_STATUSES)
    ensures IsValidStatus(status) ==>
      e.trace == [StatusSaved(dto.order.pk, Completed)] && e.outcome == Finished && e.stored == Some(dto)
  {
    if !IsValidStatus(status) then Refused(dto.order, p, status, ALLOWED_STATUSES)
    else PipeEffect([StatusSaved(dto.order.pk, Completed)], Finished, Some(dto), false)
  }

  /** `invoke`. */
  method Invoke(p: Pipe, dto: PipeOrderDTO, db: Db) returns (outcome: PipeOutcome, callsNext: bool)
    requires p.kind == CompleteOrderPipe
    modifies p`result, dto.order`status, db`trace
    ensures Performed(Effect(p, dto, old(dto.order.status)), p, dto, db, outcome, callsNext)
  {
    var order := dto.order;
    if !IsValidStatus(order.status) {
      return Raised(InvalidOrderStatus(order, p, InvalidStatusMessage(order.pk, order.status, ALLOWED_STATUSES))), false;
    }
    order.status := Completed;
    db.SaveStatus(order);
    ApplySessionsUntouched(db.sessions, [StatusSaved(order.pk, Completed)]);
    p.result := Some(dto);
    outcome, callsNext := Finished, false;
  }
}
