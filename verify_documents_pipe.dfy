/**
 * `VerifyDocumentsPipe`: the order goes ON_APPROVAL while the client's
 * documents are verified; a verification that raises or leaves the profile
 * not fully verified marks the order VERIFY_FAILED, notifies and stops the
 * chain, a successful one marks it APPROVAL_SUCCESS and hands it on.
 */
module DocumentsVerification {
  import opened Wrappers
  import opened OrderModels
  import opened Storage
  import opened PipeCore

  const ALLOWED_STATUSES: seq<Status> := [PaymentSuccess, ReservationSuccess, WithoutDocs, VerifyFailed]

  /** `get_pipe_name`. */
  const PIPE_NAME := "Проверка документов"

  const VERIFICATION_RAISED_DETAILS := "Непредвиденная ошибка во время проверки документов"
  const NOT_VERIFIED_DETAILS := "Документы не прошли проверку"

  /** `is_valid_status`. */
  function IsValidStatus(s: Status): (r: bool)
    ensures r <==> s == PaymentSuccess || s == ReservationSuccess || s == WithoutDocs || s == VerifyFailed
  {
    s in ALLOWED_STATUSES
  }

  /** What every admitted order goes through first: ON_APPROVAL saved, then the verification run. */
  function StartedRecord(pk: Option<nat>): seq<Event>
  {
    [StatusSaved(pk, OnApproval), DocumentsVerificationRun(pk)]
  }

  /** `__handle_verify_failed`: the status save and the notice of a failed verification. */
  function VerifyFailedRecord(pk: Option<nat>): seq<Event>
  {
    [StatusSaved(pk, VerifyFailed), NoticeSent(DocumentsVerifyFailedNoticeSender, pk)]
  }

  /** Both ways verification can fail, with PipeProcessException's details for each. */
  function FailureDetails(v: VerifyOutcome): (d: Option<string>)
    ensures d.None? <==> v == Verified(true)
  {
    match v
    case VerificationRaised => Some(VERIFICATION_RAISED_DETAILS)
    case Verified(full) => if full then None else Some(NOT_VERIFIED_DETAILS)
  }

  /**
   * The effect of `invoke` on an order whose status is `status` when the
   * verification service does `v`: ON_APPROVAL is saved and the
   * verification runs first, then either the failure record and a raise,
   * or APPROVAL_SUCCESS, the stored result and the hand-over.
   */
  function Effect(p: Pipe, dto: PipeOrderDTO, status: Status, v: VerifyOutcome): (e: PipeEffect)
    ensures !IsValidStatus(status) ==> e == Refused(dto.order, p, status, ALLOWED_STATUSES)
    ensures e.forwards <==> IsValidStatus(status) && v == Verified(true)
    ensures e.forwards ==>
      && e.trace == StartedRecord(dto.order.pk) + [StatusSaved(dto.order.pk, ApprovalSuccess)]
      && e.outcome == Finished && e.stored == Some(dto)
    ensures IsValidStatus(status) && v != Verified(true) ==>
      && e.trace == StartedRecord(dto.order.pk) + VerifyFailedRecord(dto.order.pk)
      && e.outcome == Raised(PipeProcess(p, ProcessMessage(ClassName(p.kind), FailureDetails(v).value)))
      && e.stored == None
  {
    var order := dto.order;
    if !IsValidStatus(status) then Refused(order, p, status, ALLOWED_STATUSES)
    else
      var started := StartedRecord(order.pk);
      match FailureDetails(v)
      case Some(details) =>
        PipeEffect(started + VerifyFailedRecord(order.pk),
                   Raised(PipeProcess(p, ProcessMessage(ClassName(p.kind), details))), None, false)
      case None =>
        PipeEffect(started + [StatusSaved(order.pk, ApprovalSuccess)], Finished, Some(dto), true)
  }

  /** `__handle_verify_failed`. */
  method HandleVerifyFailed(dto: PipeOrderDTO, db: Db)
    modifies dto.order`status, db`trace
    ensures dto.order.status == VerifyFailed
    ensures db.trace == old(db.trace) + VerifyFailedRecord(dto.order.pk)
  {
    dto.order.status := VerifyFailed;
    db.SaveStatus(dto.order);
    db.Record(NoticeSent(DocumentsVerifyFailedNoticeSender, dto.order.pk));
  }

  /** `invoke`, up to the call of the next pipe; the verification service's behaviour is `v`. */
  method Invoke(p: Pipe, dto: PipeOrderDTO, db: Db, v: VerifyOutcome) returns (outcome: PipeOutcome, callsNext: bool)
    requires p.kind == VerifyDocumentsPipe
    modifies p`result, dto.order`status, db`trace
    ensures Performed(Effect(p, dto, old(dto.order.status), v), p, dto, db, outcome, callsNext)
  {
    var order := dto.order;
    if !IsValidStatus(order.status) {
      return Raised(InvalidOrderStatus(order, p, InvalidStatusMessage(order.pk, order.status, ALLOWED_STATUSES))), false;
    }
    outcome, callsNext := VerifyAdmitted(p, dto, db, v);
  }

  /** The part of `invoke` past its guard: ON_APPROVAL, the verification, then its verdict. */
  method VerifyAdmitted(p: Pipe, dto: PipeOrderDTO, db: Db, v: VerifyOutcome) returns (outcome: PipeOutcome, callsNext: bool)
    requires p.kind == VerifyDocumentsPipe && IsValidStatus(dto.order.status)
    modifies p`result, dto.order`status, db`trace
    ensures Performed(Effect(p, dto, old(dto.order.status), v), p, dto, db, outcome, callsNext)
  {
    var order := dto.order;
    order.status := OnApproval;
    db.SaveStatus(order);
    db.Record(DocumentsVerificationRun(order.pk));
    var started := StartedRecord(order.pk);
    assert db.trace == old(db.trace) + started;
    match FailureDetails(v)
    case Some(details) =>
      HandleVerifyFailed(dto, db);
      assert LastStatus(old(order.status), started + VerifyFailedRecord(order.pk)) == VerifyFailed;
      ApplySessionsUntouched(db.sessions, started + VerifyFailedRecord(order.pk));
      outcome, callsNext := Raised(PipeProcess(p, ProcessMessage(ClassName(p.kind), details))), false;
    case None =>
      order.status := ApprovalSuccess;
      db.SaveStatus(order);
      assert LastStatus(old(order.status), started + [StatusSaved(order.pk, ApprovalSuccess)]) == ApprovalSuccess;
      ApplySessionsUntouched(db.sessions, started + [StatusSaved(order.pk, ApprovalSuccess)]);
      p.result := Some(dto);
      outcome, callsNext := Finished, p.next != null;
  }
}
