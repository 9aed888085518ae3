/**
 * Payment session initialisation at the gateway
 * (apps/tinkoff_payments/services/payment_initialization): the Init request
 * body for the advance payment, the card initializer (one Init request), the
 * SBP initializer (Init, then GetQr for the session it opened), and the
 * service that picks the initializer by payment strategy. A gateway is a
 * function from request to response; every request goes through a client
 * that never retries, so each call sends exactly one request.
 */
module PaymentInit {
  import opened Wrappers
  import Text
  import opened PaymentEnums
  import opened PaymentModels
  import opened Gateway

  /** The settings the builder and the initializers read. */
  datatype InitConfig = InitConfig(
    advanceAmount: int,        // TINKOFF_ADVANCE_AMOUNT
    notificationUrl: string,   // TINKOFF_NOTIFICATIONS_URL
    frontendHost: string,      // FRONTEND_HOST
    sessionLifetime: int)      // TINKOFF_PAYMENT_SESSION_LIFETIME, in microseconds

  /** The query string both return URLs carry: the gateway's substitution markers. */
  const RETURN_URL_QUERY :=
    "?Success=${Success}&ErrorCode=${ErrorCode}&Message=${Message}"
    + "&Details=${Details}&Amount=${Amount}&MerchantEmail=${MerchantEmail}"
    + "&MerchantName=${MerchantName}&OrderId=${OrderId}&PaymentId=${PaymentId}"
    + "&TranDate=${TranDate}&BackUrl=${BackUrl}&CompanyName=${CompanyName}"
    + "&EmailReq=${EmailReq}&PhonesReq=${PhonesReq}"

  /** `_PAYMENT_TYPE_MAP`: card payments are two-stage, SBP payments one-stage. */
  function PaymentTypeFor(s: PaymentStrategyType): (t: PayType)
    ensures t == TwoStage <==> s == Card
    ensures t == SingleStage <==> s == Sbp
  {
    match s
    case Card => TwoStage
    case Sbp => SingleStage
  }

  /** `str(order.pk)`; an unsaved order renders as "None". */
  function PkText(pk: Option<nat>): string
  {
    Text.OptionalDecimal(pk)
  }

  /** The page the gateway sends the payer back to, on success and on failure alike. */
  function OrderReturnUrl(frontendHost: string, pk: Option<nat>): string
  {
    frontendHost + "/orders/" + PkText(pk) + RETURN_URL_QUERY
  }

  /** The instant with its sub-second part dropped. */
  function WithoutMicroseconds(t: int): (r: int)
    ensures r <= t < r + MICROSECONDS_PER_SECOND
    ensures r % MICROSECONDS_PER_SECOND == 0
  {
    t - t % MICROSECONDS_PER_SECOND
  }

  /**
   * `AdvancePaymentDataBuilder.build`: the Init body for the advance payment
   * of an order, built at instant `now`.
   */
  function BuildAdvancePaymentData(pk: Option<nat>, phone: string, description: string,
                                   strategy: PaymentStrategyType, cfg: InitConfig, now: int): (d: InitData)
    ensures d.amount == cfg.advanceAmount
    ensures d.orderId == PkText(pk)
    ensures d.notificationUrl == cfg.notificationUrl
    ensures d.payType == PaymentTypeFor(strategy).Value()
    ensures d.successUrl == d.failUrl
    ensures Text.StartsWith(d.successUrl, cfg.frontendHost + "/orders/" + PkText(pk))
    ensures Text.EndsWith(d.successUrl, RETURN_URL_QUERY)
    ensures d.redirectDueDate - cfg.sessionLifetime <= now < d.redirectDueDate - cfg.sessionLifetime + MICROSECONDS_PER_SECOND
    ensures (d.redirectDueDate - cfg.sessionLifetime) % MICROSECONDS_PER_SECOND == 0
    ensures d.receipt.phone == phone && d.receipt.taxation == TAXATION_USN_INCOME_OUTCOME
    ensures d.receipt.items == [ReceiptItem(description, 1, cfg.advanceAmount, cfg.advanceAmount,
                                            PAYMENT_METHOD_PREPAYMENT, PAYMENT_OBJECT_SERVICE, TAX_NONE)]
  {
    var url := OrderReturnUrl(cfg.frontendHost, pk);
    InitData(
      cfg.advanceAmount,
      PkText(pk),
      cfg.notificationUrl,
      PaymentTypeFor(strategy).Value(),
      WithoutMicroseconds(now) + cfg.sessionLifetime,
      url,
      url,
      Receipt(phone, TAXATION_USN_INCOME_OUTCOME,
              [ReceiptItem(description, 1, cfg.advanceAmount, cfg.advanceAmount,
                           PAYMENT_METHOD_PREPAYMENT, PAYMENT_OBJECT_SERVICE, TAX_NONE)]))
  }

  /** The order id sent to the gateway reads back, with `int()`, as the order's key. */
  lemma OrderIdReadsBack(pk: nat, phone: string, description: string,
                         strategy: PaymentStrategyType, cfg: InitConfig, now: int)
    ensures Text.ParseInt(BuildAdvancePaymentData(Some(pk), phone, description, strategy, cfg, now).orderId) == Some(pk)
  {
    Text.ParseIntOfDecimal(pk);
  }

  /** Orders with different keys get different Init bodies. */
  lemma OrderIdsDiffer(pk1: nat, pk2: nat, phone: string, description: string,
                       strategy: PaymentStrategyType, cfg: InitConfig, now: int)
    requires pk1 != pk2
    ensures BuildAdvancePaymentData(Some(pk1), phone, description, strategy, cfg, now).orderId
         != BuildAdvancePaymentData(Some(pk2), phone, description, strategy, cfg, now).orderId
  {
    if Text.IntToDecimal(pk1) == Text.IntToDecimal(pk2) {
      Text.DecimalInjective(pk1, pk2);
    }
  }

  /** `ResponsePaymentInitDTO`: what the initializer read from the gateway's answer. */
  datatype ResponsePaymentInitDTO = ResponsePaymentInitDTO(
    orderId: int,
    paymentId: string,
    paymentStrategy: PaymentStrategyType,
    payloadType: ResponsePaymentInitPayloadType,
    payload: string,
    paymentSessionLifetime: int)

  /** A body field used as text. */
  function TextField(body: map<string, Json>, key: string): (r: Result<string, GatewayError>)
    ensures r.Ok? <==> key in body && body[key].JStr?
    ensures r.Ok? ==> body[key] == JStr(r.value)
    ensures key !in body ==> r == Err(KeyMissing(key))
  {
    if key !in body then Err(KeyMissing(key))
    else match body[key]
      case JStr(s) => Ok(s)
      case _ => Err(NotAString(key))
  }

  /** `int(body[key])`: a JSON integer, a boolean (as 0 or 1), or a string `int()` accepts. */
  function IntField(body: map<string, Json>, key: string): (r: Result<int, GatewayError>)
    ensures key !in body ==> r == Err(KeyMissing(key))
    ensures key in body && body[key].JInt? ==> r == Ok(body[key].i)
    ensures r.Ok? && key in body && body[key].JStr? ==> Text.ParseInt(body[key].s) == Some(r.value)
    ensures key in body && body[key].JStr? ==> (r.Ok? <==> Text.ParseInt(body[key].s).Some?)
  {
    if key !in body then Err(KeyMissing(key))
    else match body[key]
      case JInt(i) => Ok(i)
      case JBool(b) => Ok(if b then 1 else 0)
      case JStr(s) => (match Text.ParseInt(s) case Some(i) => Ok(i) case None => Err(NotAnInteger(key)))
      case JNull => Err(NotAnInteger(key))
  }

  /** The requests one initialisation sent, in order, and the response it settled on. */
  datatype InitRun = InitRun(sent: seq<Request>, response: Result<Response, GatewayError>)

  function InitRequest(data: InitData): Request
  {
    Request("post", INIT_ROUTE, InitBody(data))
  }

  /** `TinkoffPaymentInitializer.init`: one Init request, checked by the success rule. */
  function CardInit(data: InitData, gateway: Request -> Response): (run: InitRun)
    ensures run.sent == [InitRequest(data)]
    ensures run.response.Ok? <==> CheckResponse(gateway(InitRequest(data))).None?
    ensures run.response.Ok? ==> run.response.value == gateway(InitRequest(data))
    ensures run.response.Err? ==> CheckResponse(gateway(InitRequest(data))) == Some(run.response.error)
  {
    var reply := gateway(InitRequest(data));
    match CheckResponse(reply)
    case Some(e) => InitRun([InitRequest(data)], Err(e))
    case None => InitRun([InitRequest(data)], Ok(reply))
  }

  /**
   * `TinkoffPaymentInitializer.get_data_from_response`: the order id, the
   * payment id and the payment form URL, with the card strategy and the
   * configured lifetime. Missing fields fail in the order they are read.
   */
  function CardDataFromResponse(r: Response, lifetime: int): (d: Result<ResponsePaymentInitDTO, GatewayError>)
    ensures d.Ok? ==> d.value.paymentStrategy == Card && d.value.payloadType == PaymentUrl
    ensures d.Ok? ==> d.value.paymentSessionLifetime == lifetime
    ensures d.Ok? ==> "PaymentId" in r.body && r.body["PaymentId"] == JStr(d.value.paymentId)
    ensures d.Ok? ==> "PaymentURL" in r.body && r.body["PaymentURL"] == JStr(d.value.payload)
    ensures d.Ok? ==> IntField(r.body, "OrderId") == Ok(d.value.orderId)
    ensures "OrderId" !in r.body ==> d == Err(KeyMissing("OrderId"))
  {
    match IntField(r.body, "OrderId")
    case Err(e) => Err(e)
    case Ok(orderId) =>
      match TextField(r.body, "PaymentId")
      case Err(e) => Err(e)
      case Ok(paymentId) =>
        match TextField(r.body, "PaymentURL")
        case Err(e) => Err(e)
        case Ok(url) => Ok(ResponsePaymentInitDTO(orderId, paymentId, Card, PaymentUrl, url, lifetime))
  }

  function GetQrRequest(paymentId: Json, qr: QrDataType): Request
  {
    Request("post", GET_QR_ROUTE, GetQrBody(paymentId, qr.Value()))
  }

  /**
   * `TinkoffSBPInitializer.init`: an Init request; when it succeeds, a GetQr
   * request for the payment id it returned, asking for the QR code kind
   * `qr`. The second request is sent only after the first passed the success
   * rule, and its response is the result.
   */
  function SbpInit(qr: QrDataType, data: InitData, gateway: Request -> Response): (run: InitRun)
    ensures 1 <= |run.sent| <= 2 && run.sent[0] == InitRequest(data)
    ensures |run.sent| == 2 <==>
      CheckResponse(gateway(InitRequest(data))).None? && "PaymentId" in gateway(InitRequest(data)).body
    ensures |run.sent| == 2 ==> run.sent[1] == GetQrRequest(gateway(InitRequest(data)).body["PaymentId"], qr)
    ensures run.response.Ok? <==> |run.sent| == 2 && CheckResponse(gateway(run.sent[1])).None?
    ensures run.response.Ok? ==> run.response.value == gateway(run.sent[1])
  {
    var first := gateway(InitRequest(data));
    match CheckResponse(first)
    case Some(e) => InitRun([InitRequest(data)], Err(e))
    case None =>
      if "PaymentId" !in first.body then InitRun([InitRequest(data)], Err(KeyMissing("PaymentId")))
      else
        var second := GetQrRequest(first.body["PaymentId"], qr);
        var reply := gateway(second);
        match CheckResponse(reply)
        case Some(e) => InitRun([InitRequest(data), second], Err(e))
        case None => InitRun([InitRequest(data), second], Ok(reply))
  }

  /** `_QR_RETURNING_PARAM_MAP`: an image QR code is returned as `qr_image`, a payload one as `qr_url`. */
  function SbpPayloadType(qr: QrDataType): (t: ResponsePaymentInitPayloadType)
    ensures t == QrImage <==> qr == Image
    ensures t == QrUrl <==> qr == Payload
  {
    match qr
    case Image => QrImage
    case Payload => QrUrl
  }

  /** `TinkoffSBPInitializer.get_data_from_response`, on the GetQr response. */
  function SbpDataFromResponse(qr: QrDataType, r: Response, lifetime: int): (d: Result<ResponsePaymentInitDTO, GatewayError>)
    ensures d.Ok? ==> d.value.paymentStrategy == Sbp && d.value.payloadType == SbpPayloadType(qr)
    ensures d.Ok? ==> d.value.paymentSessionLifetime == lifetime
    ensures d.Ok? ==> "PaymentId" in r.body && r.body["PaymentId"] == JStr(d.value.paymentId)
    ensures d.Ok? ==> "Data" in r.body && r.body["Data"] == JStr(d.value.payload)
    ensures d.Ok? ==> IntField(r.body, "OrderId") == Ok(d.value.orderId)
    ensures "OrderId" !in r.body ==> d == Err(KeyMissing("OrderId"))
  {
    match IntField(r.body, "OrderId")
    case Err(e) => Err(e)
    case Ok(orderId) =>
      match TextField(r.body, "PaymentId")
      case Err(e) => Err(e)
      case Ok(paymentId) =>
        match TextField(r.body, "Data")
        case Err(e) => Err(e)
        case Ok(payload) => Ok(ResponsePaymentInitDTO(orderId, paymentId, Sbp, SbpPayloadType(qr), payload, lifetime))
  }

  /** A value assigned to `qr_data_type`: a member of QrDataType or anything else, shown by its text. */
  datatype QrArgument = QrMember(member: QrDataType) | OtherValue(text: string)

  /** The SBP initializer keeps the QR code kind it asks for and lets it be reassigned. */
  class TinkoffSbpInitializer {
    var qrDataType: QrDataType

    constructor (qrDataType: QrDataType)
      ensures this.qrDataType == qrDataType
    {
      this.qrDataType := qrDataType;
    }

    /** The `qr_data_type` setter: only a QrDataType member is accepted; anything else raises ValueError and changes nothing. */
    method SetQrDataType(newType: QrArgument) returns (r: Result<(), string>)
      modifies this
      ensures newType.QrMember? ==> r == Ok(()) && qrDataType == newType.member
      ensures newType.OtherValue? ==>
        r == Err("Такого формата QR-кода не существует: " + newType.text) && qrDataType == old(qrDataType)
    {
      match newType
      case QrMember(t) =>
        qrDataType := t;
        r := Ok(());
      case OtherValue(text) =>
        r := Err("Такого формата QR-кода не существует: " + text);
    }

    // Init and GetDataFromResponse are SbpInit and SbpDataFromResponse read
    // through the object, because SetQrDataType changes the QR kind they use.
    method Init(data: InitData, gateway: Request -> Response) returns (run: InitRun)
      ensures run == SbpInit(qrDataType, data, gateway)
    {
      run := SbpInit(qrDataType, data, gateway);
    }

    method GetDataFromResponse(r: Response, lifetime: int) returns (d: Result<ResponsePaymentInitDTO, GatewayError>)
      ensures d == SbpDataFromResponse(qrDataType, r, lifetime)
    {
      d := SbpDataFromResponse(qrDataType, r, lifetime);
    }
  }

  /** The initializers the service holds: card, and SBP asking for a payload QR code. */
  datatype Initializer = CardInitializer | SbpInitializer(qr: QrDataType)

  datatype InitError =
    | UnknownStrategy(message: string)  // ValueError from the initializer lookup
    | GatewayFailed(error: GatewayError)

  /** `__get_initializer`: the lookup by strategy value. */
  function GetInitializer(strategy: string): (r: Result<Initializer, InitError>)
    ensures r.Ok? <==> StrategyFromValue(strategy).Some?
    ensures r.Ok? && r.value.CardInitializer? <==> StrategyFromValue(strategy) == Some(Card)
    ensures r.Ok? && r.value.SbpInitializer? ==> r.value.qr == Payload
  {
    match StrategyFromValue(strategy)
    case Some(Card) => Ok(CardInitializer)
    case Some(Sbp) => Ok(SbpInitializer(Payload))
    case None => Err(UnknownStrategy("Способа оплаты " + strategy + " не существует"))
  }

  /** The requests one service call sent, and the DTO it produced or the error it raised. */
  datatype ServiceRun = ServiceRun(sent: seq<Request>, outcome: Result<ResponsePaymentInitDTO, InitError>)

  /**
   * `TinkoffPaymentInitializerService.init` for an order: pick the
   * initializer (an unknown strategy fails before anything is built or
   * sent), build the Init body at instant `now`, initialise, and read the
   * DTO from the final response.
   */
  function ServiceInit(pk: Option<nat>, phone: string, description: string, strategy: string,
                       cfg: InitConfig, now: int, gateway: Request -> Response): (run: ServiceRun)
    ensures StrategyFromValue(strategy).None? ==> run.sent == [] && run.outcome.Err? && run.outcome.error.UnknownStrategy?
    ensures StrategyFromValue(strategy) == Some(Card) ==> |run.sent| == 1
    ensures StrategyFromValue(strategy) == Some(Sbp) ==> 1 <= |run.sent| <= 2
    ensures StrategyFromValue(strategy).Some? ==>
      run.sent[0] == InitRequest(BuildAdvancePaymentData(pk, phone, description, StrategyFromValue(strategy).value, cfg, now))
    ensures run.outcome.Ok? ==> StrategyFromValue(strategy) == Some(run.outcome.value.paymentStrategy)
    ensures run.outcome.Ok? ==> run.outcome.value.paymentStrategy.Value() == strategy
    ensures run.outcome.Ok? ==> run.outcome.value.paymentSessionLifetime == cfg.sessionLifetime
    ensures run.outcome.Ok? ==> run.outcome.value.payloadType == (if strategy == Card.Value() then PaymentUrl else QrUrl)
    ensures StrategyFromValue(strategy) == Some(Card) ==>
      var init := CardInit(BuildAdvancePaymentData(pk, phone, description, Card, cfg, now), gateway);
      && run.sent == init.sent
      && (init.response.Err? ==> run.outcome == Err(GatewayFailed(init.response.error)))
      && (run.outcome.Ok? <==> init.response.Ok? && CardDataFromResponse(init.response.value, cfg.sessionLifetime).Ok?)
      && (run.outcome.Ok? ==> run.outcome.value == CardDataFromResponse(init.response.value, cfg.sessionLifetime).value)
    ensures StrategyFromValue(strategy) == Some(Sbp) ==>
      var init := SbpInit(Payload, BuildAdvancePaymentData(pk, phone, description, Sbp, cfg, now), gateway);
      && run.sent == init.sent
      && (init.response.Err? ==> run.outcome == Err(GatewayFailed(init.response.error)))
      && (run.outcome.Ok? <==> init.response.Ok? && SbpDataFromResponse(Payload, init.response.value, cfg.sessionLifetime).Ok?)
      && (run.outcome.Ok? ==> run.outcome.value == SbpDataFromResponse(Payload, init.response.value, cfg.sessionLifetime).value)
    ensures run.outcome.Ok? ==>
      && |run.sent| > 0
      && var last := gateway(run.sent[|run.sent| - 1]);
      && "PaymentId" in last.body && last.body["PaymentId"] == JStr(run.outcome.value.paymentId)
      && IntField(last.body, "OrderId") == Ok(run.outcome.value.orderId)
  {
    match GetInitializer(strategy)
    case Err(e) => ServiceRun([], Err(e))
    case Ok(CardInitializer) =>
      var run := CardInit(BuildAdvancePaymentData(pk, phone, description, Card, cfg, now), gateway);
      ServiceRun(run.sent, match run.response
        case Err(e) => Err(GatewayFailed(e))
        case Ok(reply) => (match CardDataFromResponse(reply, cfg.sessionLifetime)
          case Err(e) => Err(GatewayFailed(e))
          case Ok(d) => Ok(d)))
    case Ok(SbpInitializer(qr)) =>
      var run := SbpInit(qr, BuildAdvancePaymentData(pk, phone, description, Sbp, cfg, now), gateway);
      ServiceRun(run.sent, match run.response
        case Err(e) => Err(GatewayFailed(e))
        case Ok(reply) => (match SbpDataFromResponse(qr, reply, cfg.sessionLifetime)
          case Err(e) => Err(GatewayFailed(e))
          case Ok(d) => Ok(d)))
  }
}
