/**
 * `OrderPipelineBuilder` (apps/rent/services/order_pipeline/builder.py):
 * the three processing pipes, one per stage, are created once and shared by
 * every build; a build chains, in stage order, the pipes from the start
 * stage on. What the chains then do is stated over the pipes' runs.
 */
module OrderPipelineBuilding {
  import opened Wrappers
  import opened OrderModels
  import opened PaymentModels
  import opened PaymentEnums
  import opened Gateway
  import opened Stages
  import opened Storage
  import opened PipeCore
  import opened Pipelines
  import ExistsDocumentsCheck
  import DocumentsVerification
  import OrderConfirmation

  /** `_ORDER_PIPE_MAP`: one pipe per stage, in stage order, shared by every build. */
  class OrderPipeMap {
    const checking: Pipe
    const verify: Pipe
    const confirm: Pipe

    constructor ()
      ensures fresh(checking) && fresh(verify) && fresh(confirm)
      ensures Valid()
    {
      checking := new Pipe(CheckingExistsDocumentsPipe);
      verify := new Pipe(VerifyDocumentsPipe);
      confirm := new Pipe(ConfirmOrderPipe);
    }

    /** Three distinct pipes of the stages' classes. */
    predicate Valid()
    {
      && checking.kind == CheckingExistsDocumentsPipe
      && verify.kind == VerifyDocumentsPipe
      && confirm.kind == ConfirmOrderPipe
      && checking != verify && verify != confirm && checking != confirm
    }

    /** The map's pipes, in the order its items are iterated. */
    function Pipes(): seq<Pipe>
    {
      [checking, verify, confirm]
    }

    /** The pipe a stage maps to. */
    function PipeFor(s: OrderProcessStage): (p: Pipe)
      ensures p == Pipes()[StageIndex(s)]
    {
      match s
      case CheckingExistsDocuments => checking
      case VerifyDocuments => verify
      case ConfirmOrder => confirm
    }

    /** The pipes a build from `start` chains: the map's pipes from `start`'s on. */
    function StagePipes(start: OrderProcessStage): (ps: seq<Pipe>)
      ensures |ps| == 3 - StageIndex(start)
      ensures ps[0] == PipeFor(start) && ps[|ps| - 1] == confirm
      ensures start == CheckingExistsDocuments ==> ps == [checking, verify, confirm]
      ensures start == VerifyDocuments ==> ps == [verify, confirm]
      ensures start == ConfirmOrder ==> ps == [confirm]
    {
      Pipes()[StageIndex(start)..]
    }
  }

  /** The message of the AssertionError for a start stage that is not in the map. */
  function MissingStageMessage(v: string): string
  {
    "Стадии " + v + " обработки заказа не существует"
  }

  /**
   * The check of `__init__`: the stage, as the Celery queue hands it over
   * (its string value), must be one of the map's keys.
   */
  function StartStage(v: string): (r: Result<OrderProcessStage, string>)
    ensures r.Ok? ==> r.value.Value() == v
    ensures r.Err? <==> (forall s: OrderProcessStage :: s.Value() != v)
    ensures r.Err? ==> r.error == MissingStageMessage(v)
  {
    match StageFromValue(v)
    case Some(s) => Ok(s)
    case None => Err(MissingStageMessage(v))
  }

  /** Every stage is accepted as its own value. */
  lemma EveryStageStarts(s: OrderProcessStage)
    ensures StartStage(s.Value()) == Ok(s)
  {
    StageValueRoundTrip(s);
  }

  /** The builder, holding the validated start stage. */
  class OrderPipelineBuilder {
    const pipeMap: OrderPipeMap
    const startStage: OrderProcessStage

    constructor (pipeMap: OrderPipeMap, startStage: OrderProcessStage)
      ensures this.pipeMap == pipeMap && this.startStage == startStage
    {
      this.pipeMap := pipeMap;
      this.startStage := startStage;
    }

    /**
     * `build`: a new pipeline holding the map's pipes from the start
     * stage on, wired one to the next and the last to the new terminator.
     * The shared pipes are rewired, so they now belong to this pipeline.
     */
    method Build() returns (pipeline: Pipeline)
      requires pipeMap.Valid()
      modifies pipeMap.checking`next, pipeMap.verify`next, pipeMap.confirm`next
      ensures fresh(pipeline) && fresh(pipeline.terminate)
      ensures pipeline.pipes == pipeMap.StagePipes(startStage)
      ensures pipeline.Wired() && pipeline.terminate.next == null
    {
      pipeline := new Pipeline();
      var ps := pipeMap.Pipes();
      var start := StageIndex(startStage);
      var passed := false;
      for k := 0 to 3
        invariant fresh(pipeline) && fresh(pipeline.terminate)
        invariant passed <==> start < k
        invariant pipeline.pipes == if passed then ps[start..k] else []
        invariant pipeline.Wired() && pipeline.terminate.next == null
      {
        if startStage == ALL_STAGES[k] {
          passed := true;
        }
        if passed {
          assert ps[k] !in ps[start..k];
          var same := pipeline.Pipe(ps[k]);
          assert ps[start..k] + [ps[k]] == ps[start..k + 1];
        }
      }
    }
  }

  /** Checking hands on only orders that verification admits. */
  lemma CheckingHandsOnToVerification(p: Pipe, dto: PipeOrderDTO, status: Status)
    ensures var e := ExistsDocumentsCheck.Effect(p, dto, status);
      e.forwards ==> DocumentsVerification.IsValidStatus(LastStatus(status, e.trace))
  {
  }

  /** Verification hands on only orders that confirmation admits. */
  lemma VerificationHandsOnToConfirmation(p: Pipe, dto: PipeOrderDTO, status: Status, v: VerifyOutcome)
    ensures var e := DocumentsVerification.Effect(p, dto, status, v);
      e.forwards ==> OrderConfirmation.IsValidStatus(LastStatus(status, e.trace))
  {
    var e := DocumentsVerification.Effect(p, dto, status, v);
    if e.forwards {
      assert e.trace[|e.trace| - 1] == StatusSaved(dto.order.pk, ApprovalSuccess);
    }
  }

  /** The run of the full chain, from CHECKING_EXISTS_DOCUMENTS. */
  function FullRun(m: OrderPipeMap, dto: PipeOrderDTO, status: Status, o: Oracle): ChainRun
  {
    RunChain(m.StagePipes(CheckingExistsDocuments), dto, status, Steps(o))
  }

  /** The record of checking, verification and the booking, for the status checking leaves. */
  function BookedWithoutCharge(pk: Option<nat>, passed: Status): seq<Event>
  {
    [StatusSaved(pk, passed)] + DocumentsVerification.StartedRecord(pk) + [StatusSaved(pk, ApprovalSuccess)]
      + OrderConfirmation.BookedRecord(pk)
  }

  /**
   * An SBP order awaiting payment, without a manager, whose documents are
   * verified, goes PAYMENT_SUCCESS, ON_APPROVAL, APPROVAL_SUCCESS and BOOKED,
   * with no gateway request, and the chain hands over.
   */
  lemma SbpOrderIsBooked(m: OrderPipeMap, dto: PipeOrderDTO, status: Status, o: Oracle)
    requires m.Valid()
    requires ExistsDocumentsCheck.IsValidStatus(status) && !dto.order.withManager
    requires dto.paymentData.Some? && dto.paymentData.value.paymentStrategy != Card.Value()
    requires o.verification == Verified(true)
    ensures var run := FullRun(m, dto, status, o);
      && run.trace == BookedWithoutCharge(dto.order.pk, PaymentSuccess)
      && run.outcome == Finished && run.handsOver
  {
    var pk, step := dto.order.pk, Steps(o);
    var e1 := ExistsDocumentsCheck.Effect(m.checking, dto, status);
    CheckingStep(m.checking, dto, status, o);
    assert e1.trace == [StatusSaved(pk, PaymentSuccess)];
    var s1 := LastStatus(status, e1.trace);
    assert s1 == PaymentSuccess;
    var e2 := DocumentsVerification.Effect(m.verify, dto, s1, o.verification);
    VerificationStep(m.verify, dto, s1, o);
    var s2 := LastStatus(s1, e2.trace);
    assert e2.trace[|e2.trace| - 1] == StatusSaved(pk, ApprovalSuccess);
    var e3 := OrderConfirmation.Effect(m.confirm, dto, s2, o.gateway);
    ConfirmationStep(m.confirm, dto, s2, o);
    assert e3.trace == OrderConfirmation.BookedRecord(pk) && e3.forwards;
    ThreeForward(m.checking, m.verify, m.confirm, dto, status, step);
  }

  /**
   * A card order awaiting reservation, without a manager, whose documents
   * are verified and whose confirmation the gateway accepts, goes
   * RESERVATION_SUCCESS, ON_APPROVAL, APPROVAL_SUCCESS,
   * AWAIT_CONFIRM_PAYMENT and BOOKED, asking the gateway once.
   */
  lemma CardOrderIsBooked(m: OrderPipeMap, dto: PipeOrderDTO, status: Status, o: Oracle)
    requires m.Valid()
    requires ExistsDocumentsCheck.IsValidStatus(status) && !dto.order.withManager
    requires dto.paymentData.Some? && dto.paymentData.value.paymentStrategy == Card.Value()
    requires o.verification == Verified(true)
    requires CheckResponse(o.gateway(OrderConfirmation.ConfirmRequest(dto.paymentData.value.paymentId))).None?
    ensures var run := FullRun(m, dto, status, o);
      var pk := dto.order.pk;
      && run.trace == [StatusSaved(pk, ReservationSuccess)] + DocumentsVerification.StartedRecord(pk)
           + [StatusSaved(pk, ApprovalSuccess)]
           + (OrderConfirmation.AskedRecord(pk, dto.paymentData.value.paymentId) + OrderConfirmation.BookedRecord(pk))
      && run.outcome == Finished && run.handsOver
  {
    var pk, step := dto.order.pk, Steps(o);
    var e1 := ExistsDocumentsCheck.Effect(m.checking, dto, status);
    CheckingStep(m.checking, dto, status, o);
    assert e1.trace == [StatusSaved(pk, ReservationSuccess)];
    var s1 := LastStatus(status, e1.trace);
    assert s1 == ReservationSuccess;
    var e2 := DocumentsVerification.Effect(m.verify, dto, s1, o.verification);
    VerificationStep(m.verify, dto, s1, o);
    var s2 := LastStatus(s1, e2.trace);
    assert e2.trace[|e2.trace| - 1] == StatusSaved(pk, ApprovalSuccess);
    var e3 := OrderConfirmation.Effect(m.confirm, dto, s2, o.gateway);
    ConfirmationStep(m.confirm, dto, s2, o);
    assert e3.forwards;
    ThreeForward(m.checking, m.verify, m.confirm, dto, status, step);
  }

  /**
   * When the gateway refuses to confirm a card order, the full chain stops
   * at CONFIRM_PAYMENT_FAILED with confirmation's PipeProcessException:
   * BOOKED is never saved and nothing is handed over.
   */
  lemma CardConfirmationFailureStops(m: OrderPipeMap, dto: PipeOrderDTO, status: Status, o: Oracle)
    requires m.Valid()
    requires ExistsDocumentsCheck.IsValidStatus(status) && !dto.order.withManager
    requires dto.paymentData.Some? && dto.paymentData.value.paymentStrategy == Card.Value()
    requires o.verification == Verified(true)
    requires CheckResponse(o.gateway(OrderConfirmation.ConfirmRequest(dto.paymentData.value.paymentId))).Some?
    ensures var run := FullRun(m, dto, status, o);
      && SavedStatuses(run.trace) == [ReservationSuccess, OnApproval, ApprovalSuccess, AwaitConfirmPayment, ConfirmPaymentFailed]
      && run.outcome == Raised(PipeProcess(m.confirm, ProcessMessage("ConfirmOrderPipe", OrderConfirmation.CONFIRM_FAILED_DETAILS)))
      && !run.handsOver
  {
    var t := CardConfirmationFailureRun(m, dto, status, o);
    var t1, t2 := t[..4], t[4..];
    assert t == t1 + t2;
    SavedStatusesConcat(t1, t2);
    SavedStatusesConcat(t1[..2], t1[2..]);
    assert t1 == t1[..2] + t1[2..];
    SavedStatusesConcat(t2[..2], t2[2..]);
    assert t2 == t2[..2] + t2[2..];
  }

  /** The record of the run in which the gateway refuses to confirm a card order, event by event. */
  lemma CardConfirmationFailureRun(m: OrderPipeMap, dto: PipeOrderDTO, status: Status, o: Oracle) returns (t: seq<Event>)
    requires m.Valid()
    requires ExistsDocumentsCheck.IsValidStatus(status) && !dto.order.withManager
    requires dto.paymentData.Some? && dto.paymentData.value.paymentStrategy == Card.Value()
    requires o.verification == Verified(true)
    requires CheckResponse(o.gateway(OrderConfirmation.ConfirmRequest(dto.paymentData.value.paymentId))).Some?
    ensures var pk := dto.order.pk;
      t == [StatusSaved(pk, ReservationSuccess), StatusSaved(pk, OnApproval), DocumentsVerificationRun(pk),
            StatusSaved(pk, ApprovalSuccess), StatusSaved(pk, AwaitConfirmPayment),
            GatewayRequested(OrderConfirmation.ConfirmRequest(dto.paymentData.value.paymentId)),
            StatusSaved(pk, ConfirmPaymentFailed)]
    ensures FullRun(m, dto, status, o) ==
      ChainRun(t, Raised(PipeProcess(m.confirm, ProcessMessage("ConfirmOrderPipe", OrderConfirmation.CONFIRM_FAILED_DETAILS))), false)
  {
    var pk, step := dto.order.pk, Steps(o);
    var e1 := ExistsDocumentsCheck.Effect(m.checking, dto, status);
    CheckingStep(m.checking, dto, status, o);
    assert e1.trace == [StatusSaved(pk, ReservationSuccess)];
    var s1 := LastStatus(status, e1.trace);
    assert s1 == ReservationSuccess;
    var e2 := DocumentsVerification.Effect(m.verify, dto, s1, o.verification);
    VerificationStep(m.verify, dto, s1, o);
    var s2 := LastStatus(s1, e2.trace);
    assert e2.trace[|e2.trace| - 1] == StatusSaved(pk, ApprovalSuccess);
    var e3 := OrderConfirmation.Effect(m.confirm, dto, s2, o.gateway);
    ConfirmationStep(m.confirm, dto, s2, o);
    assert !e3.forwards;
    ThreeForward(m.checking, m.verify, m.confirm, dto, status, step);
    t := e1.trace + (e2.trace + e3.trace);
  }

  /** How a run of three pipes unfolds, by which of them hand on. */
  lemma ThreeForward(a: Pipe, b: Pipe, c: Pipe, dto: PipeOrderDTO, s: Status, step: StepFunction)
    ensures var ea := step(a, dto, s);
      var sb := LastStatus(s, ea.trace);
      var eb := step(b, dto, sb);
      var sc := LastStatus(sb, eb.trace);
      var ec := step(c, dto, sc);
      var run := RunChain([a, b, c], dto, s, step);
      && (!ea.forwards ==> run == ChainRun(ea.trace, ea.outcome, false))
      && (ea.forwards && !eb.forwards ==> run == ChainRun(ea.trace + eb.trace, eb.outcome, false))
      && (ea.forwards && eb.forwards && !ec.forwards ==> run == ChainRun(ea.trace + (eb.trace + ec.trace), ec.outcome, false))
      && (ea.forwards && eb.forwards && ec.forwards ==> run == ChainRun(ea.trace + (eb.trace + ec.trace), Finished, true))
  {
    var ea := step(a, dto, s);
    var sb := LastStatus(s, ea.trace);
    var eb := step(b, dto, sb);
    var sc := LastStatus(sb, eb.trace);
    var ec := step(c, dto, sc);
    assert [a, b, c][1..] == [b, c] && [b, c][1..] == [c] && [c][1..] == [];
    var rc := RunChain([c], dto, sc, step);
    assert [c][0] == c;
    assert RunChain([c][1..], dto, LastStatus(sc, ec.trace), step) == ChainRun([], Finished, true);
    assert ec.trace + [] == ec.trace;
    assert rc == if ec.forwards then ChainRun(ec.trace, Finished, true) else ChainRun(ec.trace, ec.outcome, false);
    var rb := RunChain([b, c], dto, sb, step);
    assert eb.forwards ==> rb == ChainRun(eb.trace + rc.trace, rc.outcome, rc.handsOver);
    assert RunChain([a, b, c], dto, s, step) == if ea.forwards then ChainRun(ea.trace + rb.trace, rb.outcome, rb.handsOver)
                                               else ChainRun(ea.trace, ea.outcome, false);
  }

  /** A pipe of one of the three stages: checking, verification or confirmation. */
  predicate IsStagePipe(p: Pipe)
  {
    p.kind == CheckingExistsDocumentsPipe || p.kind == VerifyDocumentsPipe || p.kind == ConfirmOrderPipe
  }

  /** Checking, verification and confirmation never delete or save a payment session. */
  lemma StepLeavesSessions(p: Pipe, dto: PipeOrderDTO, s: Status, o: Oracle)
    requires IsStagePipe(p)
    ensures LeavesSessions(Steps(o)(p, dto, s).trace)
  {
    assert Steps(o)(p, dto, s) == StepEffect(p, dto, s, o);
    match p.kind
    case CheckingExistsDocumentsPipe => CheckingLeavesSessions(p, dto, s);
    case VerifyDocumentsPipe => VerifyLeavesSessions(p, dto, s, o.verification);
    case ConfirmOrderPipe => ConfirmLeavesSessions(p, dto, s, o.gateway);
  }

  lemma CheckingLeavesSessions(p: Pipe, dto: PipeOrderDTO, s: Status)
    ensures LeavesSessions(ExistsDocumentsCheck.Effect(p, dto, s).trace)
  {
  }

  lemma VerifyLeavesSessions(p: Pipe, dto: PipeOrderDTO, s: Status, v: VerifyOutcome)
    ensures LeavesSessions(DocumentsVerification.Effect(p, dto, s, v).trace)
  {
  }

  lemma ConfirmLeavesSessions(p: Pipe, dto: PipeOrderDTO, s: Status, gateway: Request -> Response)
    ensures LeavesSessions(OrderConfirmation.Effect(p, dto, s, gateway).trace)
  {
  }

  /** Neither does a chain of them, whichever pipe it stops in. */
  lemma {:induction false} ChainLeavesSessions(ps: seq<Pipe>, dto: PipeOrderDTO, s: Status, o: Oracle)
    requires forall i :: 0 <= i < |ps| ==> IsStagePipe(ps[i])
    ensures LeavesSessions(RunChain(ps, dto, s, Steps(o)).trace)
    decreases |ps|
  {
    if ps != [] {
      var e := Steps(o)(ps[0], dto, s);
      StepLeavesSessions(ps[0], dto, s, o);
      if e.forwards {
        var rest := RunChain(ps[1..], dto, LastStatus(s, e.trace), Steps(o));
        ChainLeavesSessions(ps[1..], dto, LastStatus(s, e.trace), o);
        LeavesSessionsConcat(e.trace, rest.trace);
      }
    }
  }

  /** A pipeline built from any stage leaves the payment sessions as they were. */
  lemma StagePipesLeaveSessions(m: OrderPipeMap, start: OrderProcessStage, dto: PipeOrderDTO, s: Status, o: Oracle,
                                sessions: map<string, TinkoffPaymentData>)
    requires m.Valid()
    ensures ApplySessions(sessions, RunChain(m.StagePipes(start), dto, s, Steps(o)).trace) == sessions
  {
    var ps := m.StagePipes(start);
    assert forall i :: 0 <= i < |ps| ==> IsStagePipe(ps[i]);
    ChainLeavesSessions(ps, dto, s, o);
    assert LeavesSessions(RunChain(ps, dto, s, Steps(o)).trace);
    ApplySessionsUntouched(sessions, RunChain(ps, dto, s, Steps(o)).trace);
  }

  /**
   * An order placed with a manager stops at checking: WITHOUT_DOCS is saved,
   * the manager's notice sent, and checking's PipeProcessException ends the
   * run before any verification.
   */
  lemma ManagerOrderStopsAtChecking(m: OrderPipeMap, dto: PipeOrderDTO, status: Status, o: Oracle)
    requires m.Valid()
    requires ExistsDocumentsCheck.IsValidStatus(status) && dto.order.withManager
    ensures var run := FullRun(m, dto, status, o);
      && run.trace == [StatusSaved(dto.order.pk, WithoutDocs), NoticeSent(OrderWithoutDocsNoticeSender, dto.order.pk)]
      && run.outcome == Raised(PipeProcess(m.checking, ProcessMessage("CheckingExistsDocumentsPipe", ExistsDocumentsCheck.WITHOUT_DOCS_DETAILS)))
      && !run.handsOver
  {
    ThreeForward(m.checking, m.verify, m.confirm, dto, status, Steps(o));
  }

  /**
   * Failed verification stops the chain at VERIFY_FAILED with the failure
   * notice; confirmation does not run.
   */
  lemma VerificationFailureStops(m: OrderPipeMap, dto: PipeOrderDTO, status: Status, o: Oracle)
    requires m.Valid()
    requires ExistsDocumentsCheck.IsValidStatus(status) && !dto.order.withManager && dto.paymentData.Some?
    requires o.verification != Verified(true)
    ensures var run := FullRun(m, dto, status, o);
      var pk := dto.order.pk;
      && run.trace == [StatusSaved(pk, ExistsDocumentsCheck.PassedStatus(dto.paymentData.value.paymentStrategy))]
           + (DocumentsVerification.StartedRecord(pk) + DocumentsVerification.VerifyFailedRecord(pk))
      && run.outcome.Raised? && run.outcome.error.PipeProcess? && run.outcome.error.failedPipe == m.verify
      && !run.handsOver
  {
    var step := Steps(o);
    var e1 := ExistsDocumentsCheck.Effect(m.checking, dto, status);
    CheckingStep(m.checking, dto, status, o);
    var s1 := LastStatus(status, e1.trace);
    assert DocumentsVerification.IsValidStatus(s1);
    var e2 := DocumentsVerification.Effect(m.verify, dto, s1, o.verification);
    VerificationStep(m.verify, dto, s1, o);
    assert !e2.forwards;
    ThreeForward(m.checking, m.verify, m.confirm, dto, status, step);
  }

  /**
   * A run from any status checking does not admit (a BOOKED order run
   * again, say) is refused by checking's guard and changes nothing.
   */
  lemma RerunIsRefused(m: OrderPipeMap, dto: PipeOrderDTO, status: Status, o: Oracle)
    requires m.Valid() && !ExistsDocumentsCheck.IsValidStatus(status)
    ensures var run := FullRun(m, dto, status, o);
      && run.trace == [] && !run.handsOver
      && run.outcome == Raised(InvalidOrderStatus(dto.order, m.checking,
                                 InvalidStatusMessage(dto.order.pk, status, ExistsDocumentsCheck.ALLOWED_STATUSES)))
  {
  }

  /**
   * A run built from CONFIRM_ORDER, on an order confirmation admits (one
   * left WITHOUT_DOCS or VERIFY_FAILED, say), books an SBP order straight
   * away.
   */
  lemma ConfirmStageBooksSbpOrder(m: OrderPipeMap, dto: PipeOrderDTO, status: Status, o: Oracle)
    requires m.Valid() && OrderConfirmation.IsValidStatus(status)
    requires dto.paymentData.Some? && dto.paymentData.value.paymentStrategy != Card.Value()
    ensures var run := RunChain(m.StagePipes(ConfirmOrder), dto, status, Steps(o));
      && run.trace == OrderConfirmation.BookedRecord(dto.order.pk)
      && run.outcome == Finished && run.handsOver
  {
    var e := Steps(o)(m.confirm, dto, status);
    assert [m.confirm][1..] == [];
    assert RunChain([m.confirm], dto, status, Steps(o)) == ChainRun(e.trace + [], Finished, true);
  }
}
