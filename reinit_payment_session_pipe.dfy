/**
 * `ReinitPaymentSessionPipe`: a rejected or expired payment session is
 * replaced by a new one. The order goes ON_REINIT (so that it holds its
 * rental period again) before the gateway is asked; a failed initialisation
 * marks it REINIT_FAILED, keeps the old session and re-raises; a successful
 * one swaps the old session for the new one and sets the awaiting status
 * in one transaction. It ends a chain: the next pipe is never called.
 */
module PaymentSessionReinit {
  import opened Wrappers
  import opened OrderModels
  import opened PaymentModels
  import opened PaymentEnums
  import opened Gateway
  import opened PaymentInit
  import opened Storage
  import opened PipeCore

  const ALLOWED_STATUSES: seq<Status> := [Rejected, ReinitFailed, PaymentSessionExpired]

  /** `get_pipe_name`. */
  const PIPE_NAME := "Реинициализация платежной сессии"

  /** `is_valid_status`. */
  function IsValidStatus(s: Status): (r: bool)
    ensures r <==> s == Rejected || s == ReinitFailed || s == PaymentSessionExpired
  {
    s in ALLOWED_STATUSES
  }

  /** `__dto_to_model`: the new row, created at `now`, holding the stored values of the DTO's members. */
  function SessionFromDto(d: ResponsePaymentInitDTO, now: int): (row: TinkoffPaymentData)
    ensures row.orderPk == d.orderId && row.paymentId == d.paymentId && row.payload == d.payload
    ensures StrategyFromValue(row.paymentStrategy) == Some(d.paymentStrategy)
    ensures PayloadTypeFromValue(row.payloadType) == Some(d.payloadType)
    ensures row.createdAt == now && row.paymentSessionLifetime == d.paymentSessionLifetime
    ensures !PaymentSessionIsExpired(row, now) <==> d.paymentSessionLifetime > 0
  {
    StrategyValueRoundTrip(d.paymentStrategy);
    PayloadTypeValueRoundTrip(d.payloadType);
    TinkoffPaymentData(d.orderId, d.paymentId, d.paymentStrategy.Value(), d.payloadType.Value(),
                       d.payload, now, d.paymentSessionLifetime)
  }

  /** The status an order awaits with a new session: the card reservation, or the payment. */
  function AwaitingStatus(strategy: PaymentStrategyType): (s: Status)
    ensures s == AwaitReservation <==> strategy == Card
    ensures s == AwaitReservation || s == AwaitPayment
  {
    if strategy == Card then AwaitReservation else AwaitPayment
  }

  /** The requests a run sent, as recorded events. */
  function Requested(sent: seq<Request>): (es: seq<Event>)
    ensures |es| == |sent|
    ensures forall i :: 0 <= i < |es| ==> es[i] == GatewayRequested(sent[i])
  {
    seq(|sent|, i requires 0 <= i < |sent| => GatewayRequested(sent[i]))
  }

  /** Saving statuses and asking the gateway leave the sessions alone. */
  lemma AskedLeavesSessions(m: map<string, TinkoffPaymentData>, head: seq<Event>, sent: seq<Request>, tail: seq<Event>)
    requires forall i :: 0 <= i < |head| ==> head[i].StatusSaved?
    requires forall i :: 0 <= i < |tail| ==> tail[i].StatusSaved?
    ensures ApplySessions(m, head + Requested(sent) + tail) == m
  {
    var t := head + Requested(sent) + tail;
    forall i | 0 <= i < |t| ensures !TouchesSessions(t[i]) {
      if i < |head| {
        assert t[i] == head[i];
      } else if i < |head| + |sent| {
        assert t[i] == Requested(sent)[i - |head|];
      } else {
        assert t[i] == tail[i - |head| - |sent|];
      }
    }
    ApplySessionsUntouched(m, t);
  }

  /**
   * The initialisation the pipe asks for, given the old session: the
   * initializer service for the order, with the old session's strategy.
   */
  function InitService(pk: Option<nat>, o: Oracle): TinkoffPaymentData -> ServiceRun
  {
    (pd: TinkoffPaymentData) => ServiceInit(pk, o.phone, o.orderText, pd.paymentStrategy, o.initConfig, o.now, o.gateway)
  }

  /** The transaction that replaces `old` by the new session and sets the awaiting status. */
  function SwapRecord(pk: Option<nat>, oldId: string, d: ResponsePaymentInitDTO, now: int): seq<Event>
  {
    [SessionDeleted(oldId), SessionSaved(SessionFromDto(d, now)), StatusSaved(pk, AwaitingStatus(d.paymentStrategy))]
  }

  /**
   * The effect of `invoke` on an order whose status is `status`, when the
   * initialisation for the old session runs as `init` and the clock reads
   * `now`.
   */
  function Effect(p: Pipe, dto: PipeOrderDTO, status: Status, init: TinkoffPaymentData -> ServiceRun, now: int): (e: PipeEffect)
    ensures !e.forwards
    ensures !IsValidStatus(status) ==> e == Refused(dto.order, p, status, ALLOWED_STATUSES)
    ensures IsValidStatus(status) ==> |e.trace| >= 2 && e.trace[0] == StatusSaved(dto.order.pk, OnReinit)
    ensures IsValidStatus(status) && dto.paymentData.None? ==>
      e == PipeEffect([StatusSaved(dto.order.pk, OnReinit), StatusSaved(dto.order.pk, ReinitFailed)],
                      Raised(PaymentDataMissing), None, false)
    ensures IsValidStatus(status) && dto.paymentData.Some? ==>
      var run := init(dto.paymentData.value);
      && (run.outcome.Err? ==>
            && e.trace == [StatusSaved(dto.order.pk, OnReinit)] + Requested(run.sent) + [StatusSaved(dto.order.pk, ReinitFailed)]
            && e.outcome == Raised(InitFailure(run.outcome.error)) && e.stored == None)
      && (run.outcome.Ok? ==>
            && e.trace == [StatusSaved(dto.order.pk, OnReinit)] + Requested(run.sent)
                          + SwapRecord(dto.order.pk, dto.paymentData.value.paymentId, run.outcome.value, now)
            && e.outcome == Finished
            && e.stored == Some(PipeOrderDTO(dto.order, Some(SessionFromDto(run.outcome.value, now)))))
  {
    var order := dto.order;
    if !IsValidStatus(status) then Refused(order, p, status, ALLOWED_STATUSES)
    else if dto.paymentData.None? then
      PipeEffect([StatusSaved(order.pk, OnReinit), StatusSaved(order.pk, ReinitFailed)], Raised(PaymentDataMissing), None, false)
    else
      var pd := dto.paymentData.value;
      var run := init(pd);
      var asked := [StatusSaved(order.pk, OnReinit)] + Requested(run.sent);
      match run.outcome
      case Err(err) =>
        PipeEffect(asked + [StatusSaved(order.pk, ReinitFailed)], Raised(InitFailure(err)), None, false)
      case Ok(d) =>
        PipeEffect(asked + SwapRecord(order.pk, pd.paymentId, d, now), Finished,
                   Some(PipeOrderDTO(order, Some(SessionFromDto(d, now)))), false)
  }

  /**
   * The `transaction.atomic()` block: the old row is deleted, the new one
   * saved, and the order's status set from the new session's strategy.
   */
  method SwapSession(order: Order, db: Db, oldId: string, d: ResponsePaymentInitDTO, now: int) returns (row: TinkoffPaymentData)
    modifies order`status, db`trace, db`sessions
    ensures row == SessionFromDto(d, now)
    ensures db.sessions == (old(db.sessions) - {oldId})[row.paymentId := row]
    ensures db.trace == old(db.trace) + SwapRecord(order.pk, oldId, d, now)
    ensures order.status == AwaitingStatus(d.paymentStrategy)
    ensures old(db.Valid()) && oldId in old(db.sessions) && old(db.sessions)[oldId].orderPk == d.orderId ==> db.Valid()
  {
    row := SessionFromDto(d, now);
    db.sessions := db.sessions - {oldId};
    db.Record(SessionDeleted(oldId));
    db.sessions := db.sessions[row.paymentId := row];
    db.Record(SessionSaved(row));
    if row.paymentStrategy == Card.Value() {
      order.status := AwaitReservation;
    } else {
      order.status := AwaitPayment;
    }
    db.SaveStatus(order);
    if old(db.Valid()) && oldId in old(db.sessions) && old(db.sessions)[oldId].orderPk == d.orderId {
      SwapKeepsSessionsConsistent(old(db.sessions), db.nextOrderPk, oldId, row);
    }
  }

  /** `invoke`. */
  method Invoke(p: Pipe, dto: PipeOrderDTO, db: Db, init: TinkoffPaymentData -> ServiceRun, now: int) returns (outcome: PipeOutcome, callsNext: bool)
    requires p.kind == ReinitPaymentSessionPipe
    modifies p`result, dto.order`status, db`trace, db`sessions
    ensures Performed(Effect(p, dto, old(dto.order.status), init, now), p, dto, db, outcome, callsNext)
    ensures old(db.Valid()) && IsStoredSession(dto, old(db.sessions)) && EchoesOrder(dto, init) ==> db.Valid()
  {
    var order := dto.order;
    if !IsValidStatus(order.status) {
      return Raised(InvalidOrderStatus(order, p, InvalidStatusMessage(order.pk, order.status, ALLOWED_STATUSES))), false;
    }
    outcome, callsNext := Reinitialise(p, dto, db, init, now);
    if old(db.Valid()) && IsStoredSession(dto, old(db.sessions)) && EchoesOrder(dto, init) {
      ReinitKeepsSessionsConsistent(p, dto, old(dto.order.status), init, now, old(db.sessions), db.nextOrderPk);
    }
  }

  /** The part of `invoke` past its guard: ON_REINIT, then REINIT_FAILED at once when the order has no payment session. */
  method Reinitialise(p: Pipe, dto: PipeOrderDTO, db: Db, init: TinkoffPaymentData -> ServiceRun, now: int) returns (outcome: PipeOutcome, callsNext: bool)
    requires p.kind == ReinitPaymentSessionPipe && IsValidStatus(dto.order.status)
    modifies p`result, dto.order`status, db`trace, db`sessions
    ensures Performed(Effect(p, dto, old(dto.order.status), init, now), p, dto, db, outcome, callsNext)
  {
    var order := dto.order;
    if dto.paymentData.None? {
      order.status := OnReinit;
      db.SaveStatus(order);
      order.status := ReinitFailed;
      db.SaveStatus(order);
      ApplySessionsUntouched(db.sessions, [StatusSaved(order.pk, OnReinit), StatusSaved(order.pk, ReinitFailed)]);
      return Raised(PaymentDataMissing), false;
    }
    outcome, callsNext := ReinitialisePaid(p, dto, db, init, now);
  }

  /** The reinitialisation of an order that has a payment session. */
  method ReinitialisePaid(p: Pipe, dto: PipeOrderDTO, db: Db, init: TinkoffPaymentData -> ServiceRun, now: int) returns (outcome: PipeOutcome, callsNext: bool)
    requires p.kind == ReinitPaymentSessionPipe && IsValidStatus(dto.order.status) && dto.paymentData.Some?
    modifies p`result, dto.order`status, db`trace, db`sessions
    ensures Performed(Effect(p, dto, old(dto.order.status), init, now), p, dto, db, outcome, callsNext)
  {
    if init(dto.paymentData.value).outcome.Err? {
      outcome, callsNext := InitFails(p, dto, db, init, now);
    } else {
      outcome, callsNext := InitSucceeds(p, dto, db, init, now);
    }
  }

  /** ON_REINIT is saved, then the initialisation sends its requests. */
  method Ask(order: Order, db: Db, sent: seq<Request>)
    modifies order`status, db`trace
    ensures order.status == OnReinit
    ensures db.trace == old(db.trace) + ([StatusSaved(order.pk, OnReinit)] + Requested(sent))
  {
    order.status := OnReinit;
    db.SaveStatus(order);
    db.RecordAll(Requested(sent));
  }

  /** A failed initialisation: REINIT_FAILED is saved and the error re-raised; the old session stays. */
  method InitFails(p: Pipe, dto: PipeOrderDTO, db: Db, init: TinkoffPaymentData -> ServiceRun, now: int) returns (outcome: PipeOutcome, callsNext: bool)
    requires p.kind == ReinitPaymentSessionPipe && IsValidStatus(dto.order.status) && dto.paymentData.Some?
    requires init(dto.paymentData.value).outcome.Err?
    modifies dto.order`status, db`trace
    ensures Performed(Effect(p, dto, old(dto.order.status), init, now), p, dto, db, outcome, callsNext)
  {
    var order := dto.order;
    var run := init(dto.paymentData.value);
    Ask(order, db, run.sent);
    order.status := ReinitFailed;
    db.SaveStatus(order);
    AskedLeavesSessions(db.sessions, [StatusSaved(order.pk, OnReinit)], run.sent, [StatusSaved(order.pk, ReinitFailed)]);
    outcome, callsNext := Raised(InitFailure(run.outcome.error)), false;
  }

  /** A successful initialisation: the old session is swapped for the new one, which is stored as the result. */
  method InitSucceeds(p: Pipe, dto: PipeOrderDTO, db: Db, init: TinkoffPaymentData -> ServiceRun, now: int) returns (outcome: PipeOutcome, callsNext: bool)
    requires p.kind == ReinitPaymentSessionPipe && IsValidStatus(dto.order.status) && dto.paymentData.Some?
    requires init(dto.paymentData.value).outcome.Ok?
    modifies p`result, dto.order`status, db`trace, db`sessions
    ensures Performed(Effect(p, dto, old(dto.order.status), init, now), p, dto, db, outcome, callsNext)
  {
    var order := dto.order;
    var pd := dto.paymentData.value;
    var run := init(pd);
    Ask(order, db, run.sent);
    ghost var asked := [StatusSaved(order.pk, OnReinit)] + Requested(run.sent);
    AskedLeavesSessions(old(db.sessions), [StatusSaved(order.pk, OnReinit)], run.sent, []);
    assert asked + [] == asked;
    var d := run.outcome.value;
    var row := SwapSession(order, db, pd.paymentId, d, now);
    ghost var swap := SwapRecord(order.pk, pd.paymentId, d, now);
    assert db.trace == old(db.trace) + (asked + swap);
    ApplySessionsConcat(old(db.sessions), asked, swap);
    ApplySessionsSwap(old(db.sessions), pd.paymentId, row, order.pk, AwaitingStatus(d.paymentStrategy));
    p.result := Some(PipeOrderDTO(order, Some(row)));
    outcome, callsNext := Finished, false;
  }

  /** The new session is paid the way the old one was: reinitialisation keeps the payment strategy. */
  lemma KeepsStrategy(p: Pipe, dto: PipeOrderDTO, status: Status, o: Oracle)
    requires IsValidStatus(status) && dto.paymentData.Some?
    requires Effect(p, dto, status, InitService(dto.order.pk, o), o.now).outcome.Finished?
    ensures Effect(p, dto, status, InitService(dto.order.pk, o), o.now).stored.value.paymentData.value.paymentStrategy
            == dto.paymentData.value.paymentStrategy
  {
    var pd := dto.paymentData.value;
    var run := InitService(dto.order.pk, o)(pd);
    assert run == ServiceInit(dto.order.pk, o.phone, o.orderText, pd.paymentStrategy, o.initConfig, o.now, o.gateway);
    assert run.outcome.Ok?;
    assert run.outcome.value.paymentStrategy.Value() == pd.paymentStrategy;
  }

  /**
   * The new session is stored under the payment id of the gateway's last
   * answer, and belongs to the order that answer names.
   */
  lemma NewSessionFromGateway(p: Pipe, dto: PipeOrderDTO, status: Status, o: Oracle)
    requires IsValidStatus(status) && dto.paymentData.Some?
    requires Effect(p, dto, status, InitService(dto.order.pk, o), o.now).outcome.Finished?
    ensures var run := ServiceInit(dto.order.pk, o.phone, o.orderText, dto.paymentData.value.paymentStrategy, o.initConfig, o.now, o.gateway);
      var row := Effect(p, dto, status, InitService(dto.order.pk, o), o.now).stored.value.paymentData.value;
      && |run.sent| > 0
      && var last := o.gateway(run.sent[|run.sent| - 1]);
      && "PaymentId" in last.body && last.body["PaymentId"] == JStr(row.paymentId)
      && IntField(last.body, "OrderId") == Ok(row.orderPk)
  {
    var pd := dto.paymentData.value;
    var run := InitService(dto.order.pk, o)(pd);
    assert run == ServiceInit(dto.order.pk, o.phone, o.orderText, pd.paymentStrategy, o.initConfig, o.now, o.gateway);
    assert run.outcome.Ok?;
  }

  /**
   * A failed reinitialisation leaves the order REINIT_FAILED and the
   * sessions exactly as they were: the old session is not deleted.
   */
  lemma FailureKeepsOldSession(p: Pipe, dto: PipeOrderDTO, status: Status, init: TinkoffPaymentData -> ServiceRun, now: int, m: map<string, TinkoffPaymentData>)
    requires IsValidStatus(status)
    requires Effect(p, dto, status, init, now).outcome.Raised?
    ensures LastStatus(status, Effect(p, dto, status, init, now).trace) == ReinitFailed
    ensures ApplySessions(m, Effect(p, dto, status, init, now).trace) == m
  {
    var e := Effect(p, dto, status, init, now);
    if dto.paymentData.None? {
      ApplySessionsUntouched(m, e.trace);
    } else {
      var run := init(dto.paymentData.value);
      AskedLeavesSessions(m, [StatusSaved(dto.order.pk, OnReinit)], run.sent, [StatusSaved(dto.order.pk, ReinitFailed)]);
    }
  }

  /** A successful reinitialisation leaves exactly the new session in place of the old one, and the order awaiting. */
  lemma SuccessSwapsSession(p: Pipe, dto: PipeOrderDTO, status: Status, init: TinkoffPaymentData -> ServiceRun, now: int, m: map<string, TinkoffPaymentData>)
    requires IsValidStatus(status) && dto.paymentData.Some?
    requires Effect(p, dto, status, init, now).outcome.Finished?
    ensures var row := Effect(p, dto, status, init, now).stored.value.paymentData.value;
      && ApplySessions(m, Effect(p, dto, status, init, now).trace) == (m - {dto.paymentData.value.paymentId})[row.paymentId := row]
      && LastStatus(status, Effect(p, dto, status, init, now).trace)
           == (if row.paymentStrategy == Card.Value() then AwaitReservation else AwaitPayment)
  {
    var e := Effect(p, dto, status, init, now);
    var run := init(dto.paymentData.value);
    var asked := [StatusSaved(dto.order.pk, OnReinit)] + Requested(run.sent);
    var swap := SwapRecord(dto.order.pk, dto.paymentData.value.paymentId, run.outcome.value, now);
    assert e.trace == asked + swap;
    AskedLeavesSessions(m, [StatusSaved(dto.order.pk, OnReinit)], run.sent, []);
    assert asked + [] == asked;
    ApplySessionsConcat(m, asked, swap);
    ApplySessionsSwap(m, dto.paymentData.value.paymentId, SessionFromDto(run.outcome.value, now),
                      dto.order.pk, AwaitingStatus(run.outcome.value.paymentStrategy));
    assert e.trace[|e.trace| - 1] == StatusSaved(dto.order.pk, AwaitingStatus(run.outcome.value.paymentStrategy));
  }

  /** The order's session is the one stored under its payment id. */
  predicate IsStoredSession(dto: PipeOrderDTO, m: map<string, TinkoffPaymentData>)
  {
    dto.paymentData.Some? ==> dto.paymentData.value.paymentId in m && m[dto.paymentData.value.paymentId] == dto.paymentData.value
  }

  /** A successful initialisation reports the order the old session belongs to. */
  predicate EchoesOrder(dto: PipeOrderDTO, init: TinkoffPaymentData -> ServiceRun)
  {
    dto.paymentData.Some? && init(dto.paymentData.value).outcome.Ok? ==>
      init(dto.paymentData.value).outcome.value.orderId == dto.paymentData.value.orderPk
  }

  /**
   * Whatever the outcome, reinitialising the stored session of an order
   * keeps the sessions consistent, provided the gateway reports the order
   * the session was for.
   */
  lemma ReinitKeepsSessionsConsistent(p: Pipe, dto: PipeOrderDTO, status: Status, init: TinkoffPaymentData -> ServiceRun, now: int,
                                      m: map<string, TinkoffPaymentData>, nextOrderPk: nat)
    requires SessionsConsistent(m, nextOrderPk)
    requires IsStoredSession(dto, m) && EchoesOrder(dto, init)
    ensures SessionsConsistent(ApplySessions(m, Effect(p, dto, status, init, now).trace), nextOrderPk)
  {
    var e := Effect(p, dto, status, init, now);
    if !IsValidStatus(status) {
      assert e.trace == [];
    } else if dto.paymentData.None? {
      ApplySessionsUntouched(m, e.trace);
    } else if e.outcome.Raised? {
      FailureKeepsOldSession(p, dto, status, init, now, m);
    } else {
      SuccessSwapsSession(p, dto, status, init, now, m);
      SwapKeepsSessionsConsistent(m, nextOrderPk, dto.paymentData.value.paymentId, e.stored.value.paymentData.value);
    }
  }
}
