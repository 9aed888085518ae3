/**
 * What every order pipe shares (apps/rent/services/order_pipeline/pipes/base.py,
 * dto.py, exceptions.py, utils/pipelines/simple_pipe.py and exceptions.py):
 * the data a pipe passes along, the pipe object with its `next` link and its
 * stored result, the exceptions a pipe raises with their messages, and the
 * description of one invoke's effect that each pipe's method is proved to
 * perform.
 */
module PipeCore {
  import opened Wrappers
  import Text
  import opened OrderModels
  import opened PaymentModels
  import opened Gateway
  import opened PaymentInit
  import opened Storage

  /** `PipeOrderDTO`: the order and, when known, its payment session. */
  datatype PipeOrderDTO = PipeOrderDTO(order: Order, paymentData: Option<TinkoffPaymentData>)

  /** The action of a SimplePipe: nothing, an action that completes (recorded by id), or one that raises. */
  datatype PipeAction = NoAction | RecordedAction(actionId: nat) | RaisingAction

  /** The concrete class of a pipe. */
  datatype PipeKind =
    | SimplePipe(action: PipeAction)
    | CheckingExistsDocumentsPipe
    | VerifyDocumentsPipe
    | ConfirmOrderPipe
    | CancelOrderPipe(noticeSender: NoticeSender)
    | CompleteOrderPipe
    | ReinitPaymentSessionPipe

  /** `cls.__name__`. */
  function ClassName(k: PipeKind): string
  {
    match k
    case SimplePipe(_) => "SimplePipe"
    case CheckingExistsDocumentsPipe => "CheckingExistsDocumentsPipe"
    case VerifyDocumentsPipe => "VerifyDocumentsPipe"
    case ConfirmOrderPipe => "ConfirmOrderPipe"
    case CancelOrderPipe(_) => "CancelOrderPipe"
    case CompleteOrderPipe => "CompleteOrderPipe"
    case ReinitPaymentSessionPipe => "ReinitPaymentSessionPipe"
  }

  /** A pipe: its class, the pipe it hands over to, and the result it stored. */
  class Pipe {
    const kind: PipeKind
    var next: Pipe?
    var result: Option<PipeOrderDTO>

    constructor (kind: PipeKind)
      ensures this.kind == kind && next == null && result == None
    {
      this.kind := kind;
      next := null;
      result := None;
    }

    /** `set_next`. */
    method SetNext(nextPipe: Pipe)
      modifies this`next
      ensures next == nextPipe
    {
      next := nextPipe;
    }
  }

  /** What the documents verification service did for the order's client. */
  datatype VerifyOutcome = VerificationRaised | Verified(fullyVerifiedProfile: bool)

  /**
   * Everything a pipe consults that is outside this model: the documents
   * verification, the payment gateway, the settings, the clock, the client's
   * phone and the order's text form.
   */
  datatype Oracle = Oracle(
    verification: VerifyOutcome,
    gateway: Request -> Response,
    initConfig: InitConfig,
    now: int,
    phone: string,
    orderText: string)

  /** The exceptions a pipe raises. */
  datatype PipeError =
    | InvalidOrderStatus(order: Order, pipe: Pipe, message: string)  // InvalidOrderStatusPipeException
    | PipeProcess(failedPipe: Pipe, processMessage: string)           // PipeProcessException
    | PaymentDataMissing                                               // AttributeError on `None.payment_strategy`
    | GatewayFailure(gatewayError: GatewayError)                       // raised by the cancellation service
    | InitFailure(initError: InitError)                                // re-raised by the session re-initialisation

  datatype PipeOutcome = Finished | Raised(error: PipeError)

  /**
   * The effect of one invoke: what it recorded, whether it raised, the
   * result it stored (None: left as it was) and whether it goes on to its
   * `next`.
   */
  datatype PipeEffect = PipeEffect(trace: seq<Event>, outcome: PipeOutcome, stored: Option<PipeOrderDTO>, forwards: bool)

  /** A pipe that failed its status guard did nothing else. */
  function Refused(order: Order, p: Pipe, status: Status, allowed: seq<Status>): (e: PipeEffect)
    ensures e.trace == [] && e.stored == None && !e.forwards
    ensures e.outcome.Raised? && e.outcome.error.InvalidOrderStatus?
    ensures e.outcome.error.order == order && e.outcome.error.pipe == p
  {
    PipeEffect([], Raised(InvalidOrderStatus(order, p, InvalidStatusMessage(order.pk, status, allowed))), None, false)
  }

  /**
   * The invoke performed `e`: the record grew by exactly `e.trace`, the
   * order's status and the sessions are what that record leaves, the result
   * is the one stored (or unchanged), and the pipe hands over to its `next`
   * exactly when `e` forwards and a `next` is set.
   */
  twostate predicate Performed(e: PipeEffect, p: Pipe, dto: PipeOrderDTO, db: Db, new outcome: PipeOutcome, callsNext: bool)
    reads p, dto.order, db
  {
    && db.trace == old(db.trace) + e.trace
    && dto.order.status == LastStatus(old(dto.order.status), e.trace)
    && db.sessions == ApplySessions(old(db.sessions), e.trace)
    && p.result == (if e.stored.Some? then e.stored else old(p.result))
    && outcome == e.outcome
    && callsNext == (e.forwards && p.next != null)
  }

  /** A piece of a `str.format` template. */
  datatype Segment = Literal(text: string) | Placeholder(name: string)

  predicate Fillable(t: seq<Segment>, values: map<string, string>)
  {
    forall i :: 0 <= i < |t| && t[i].Placeholder? ==> t[i].name in values
  }

  /** `template.format(**values)`; a placeholder without a value is Python's KeyError. */
  function Format(t: seq<Segment>, values: map<string, string>): (r: Result<string, string>)
    ensures r.Ok? <==> Fillable(t, values)
    decreases |t|
  {
    if t == [] then Ok("")
    else
      var rest := Format(t[1..], values);
      match t[0]
      case Literal(s) => (if rest.Ok? then Ok(s + rest.value) else rest)
      case Placeholder(n) =>
        if n !in values then Err(n)
        else if rest.Ok? then Ok(values[n] + rest.value) else rest
  }

  /** A template starting with literal text formats to that text before the rest. */
  lemma FormatLiteral(t: seq<Segment>, values: map<string, string>, text: string, rest: string)
    requires t != [] && t[0] == Literal(text) && Format(t[1..], values) == Ok(rest)
    ensures Format(t, values) == Ok(text + rest)
  {
  }

  /** A template starting with a placeholder that has a value formats to that value before the rest. */
  lemma FormatPlaceholder(t: seq<Segment>, values: map<string, string>, name: string, rest: string)
    requires t != [] && t[0] == Placeholder(name) && name in values && Format(t[1..], values) == Ok(rest)
    ensures Format(t, values) == Ok(values[name] + rest)
  {
  }

  /** The template of InvalidOrderStatusPipeException. */
  const INVALID_ORDER_STATUS_TEMPLATE: seq<Segment> := [
    Literal("Неверный статус заказа №"), Placeholder("order_id"),
    Literal("\nТекущий статус: "), Placeholder("order_status"),
    Literal("\nДопустимые статусы: "), Placeholder("allowed_statuses")]

  /** The template of NoResultOrderPipeException. */
  const NO_RESULT_TEMPLATE: seq<Segment> := [
    Literal("Ошибка получения результата этапа пайплайна\nЭтап обработки: "), Placeholder("pipe_name"),
    Literal("\n")]

  /** `repr` of a status member inside a list: the enum's default `<Status.NAME: 'value'>`, name and value being equal. */
  function StatusRepr(s: Status): string
  {
    "<Status." + s.Value() + ": '" + s.Value() + "'>"
  }

  /** `str` of a list of statuses. */
  function StatusListRepr(ss: seq<Status>): (r: string)
    ensures Text.StartsWith(r, "[")
  {
    "[" + JoinReprs(ss) + "]"
  }

  function JoinReprs(ss: seq<Status>): string
    decreases |ss|
  {
    if ss == [] then ""
    else if |ss| == 1 then StatusRepr(ss[0])
    else StatusRepr(ss[0]) + ", " + JoinReprs(ss[1..])
  }

  /**
   * The message of InvalidOrderStatusPipeException: the order's key, its
   * current status and the statuses the pipe accepts, each on its own line.
   */
  function InvalidStatusMessage(pk: Option<nat>, status: Status, allowed: seq<Status>): (m: string)
    ensures m == "Неверный статус заказа №" + Text.OptionalDecimal(pk)
               + "\nТекущий статус: " + status.Value()
               + "\nДопустимые статусы: " + StatusListRepr(allowed)
  {
    var id, st, al := Text.OptionalDecimal(pk), status.Value(), StatusListRepr(allowed);
    var values := map["order_id" := id, "order_status" := st, "allowed_statuses" := al];
    var t := INVALID_ORDER_STATUS_TEMPLATE;
    var tail4 := "\nДопустимые статусы: " + al;
    var tail2 := "\nТекущий статус: " + (st + tail4);
    assert t[5..][1..] == [];
    FormatPlaceholder(t[5..], values, "allowed_statuses", "");
    assert values["allowed_statuses"] + "" == al;
    assert t[4..][1..] == t[5..];
    FormatLiteral(t[4..], values, "\nДопустимые статусы: ", al);
    assert t[3..][1..] == t[4..];
    FormatPlaceholder(t[3..], values, "order_status", tail4);
    assert values["order_status"] == st;
    assert t[2..][1..] == t[3..];
    FormatLiteral(t[2..], values, "\nТекущий статус: ", st + tail4);
    assert t[1..][1..] == t[2..];
    FormatPlaceholder(t[1..], values, "order_id", tail2);
    assert values["order_id"] == id;
    FormatLiteral(t, values, "Неверный статус заказа №", id + tail2);
    assert "Неверный статус заказа №" + (id + tail2)
        == "Неверный статус заказа №" + id + "\nТекущий статус: " + st + "\nДопустимые статусы: " + al;
    Format(t, values).value
  }

  /** The message of NoResultOrderPipeException: the pipe's display name on its own line. */
  function NoResultMessage(pipeName: string): (m: string)
    ensures m == "Ошибка получения результата этапа пайплайна\nЭтап обработки: " + pipeName + "\n"
  {
    var values := map["pipe_name" := pipeName];
    var t := NO_RESULT_TEMPLATE;
    assert t[2..][1..] == [] && t[1..][1..] == t[2..];
    assert "\n" + "" == "\n";
    assert Format(t[2..], values) == Ok("\n");
    assert Format(t[1..], values) == Ok(pipeName + "\n");
    Format(t, values).value
  }

  /** The message of PipeProcessException: the failing pipe's class name and the details. */
  function ProcessMessage(className: string, details: string): (m: string)
    ensures Text.StartsWith(m, "Ошибка обработки данных на шаге " + className + "\n")
    ensures Text.EndsWith(m, "\nДетали: " + details)
    ensures m == "Ошибка обработки данных на шаге " + className + "\nДетали: " + details
  {
    var head := "Ошибка обработки данных на шаге " + className;
    assert head + "\nДетали: " + details == (head + "\n") + ("Детали: " + details);
    head + "\nДетали: " + details
  }

  /** The details can be read back from the message: two messages of one step agree only when their details do. */
  lemma ProcessMessageDetails(className: string, d1: string, d2: string)
    requires ProcessMessage(className, d1) == ProcessMessage(className, d2)
    ensures d1 == d2
  {
    var n := |"Ошибка обработки данных на шаге " + className + "\nДетали: "|;
    var m1 := ProcessMessage(className, d1);
    assert m1[n..] == d1;
    assert ProcessMessage(className, d2)[n..] == d2;
  }
}
