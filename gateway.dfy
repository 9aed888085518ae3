/**
 * What travels to and from the payment gateway: the routes
 * (apps/tinkoff_payments/services/core/endpoints.py), the HTTP codes the code
 * compares against, the request bodies the services send, and the success
 * rule every gateway call applies to a response. The transport is not
 * modelled: a gateway is a function from request to response.
 */
module Gateway {
  import opened Wrappers

  const HTTP_200_OK := 200
  const HTTP_401_UNAUTHORIZED := 401

  const INIT_ROUTE := "/v2/Init/"
  const GET_QR_ROUTE := "/v2/GetQr/"
  const CANCEL_ROUTE := "/v2/Cancel"
  const CONFIRM_ROUTE := "/v2/Confirm"

  /** A scalar of a decoded JSON body. */
  datatype Json = JNull | JBool(b: bool) | JInt(i: int) | JStr(s: string)

  /** Python truthiness of a decoded JSON scalar. */
  predicate Truthy(v: Json)
  {
    match v
    case JNull => false
    case JBool(b) => b
    case JInt(i) => i != 0
    case JStr(s) => s != ""
  }

  /** A response: its status code and its decoded top-level JSON object. */
  datatype Response = Response(statusCode: int, body: map<string, Json>)

  /** One receipt line. */
  datatype ReceiptItem = ReceiptItem(
    name: string, quantity: int, amount: int, price: int,
    paymentMethod: string, paymentObject: string, tax: string)

  datatype Receipt = Receipt(phone: string, taxation: string, items: seq<ReceiptItem>)

  /** The body of an Init request, field by field. */
  datatype InitData = InitData(
    amount: int,
    orderId: string,
    notificationUrl: string,
    payType: string,
    redirectDueDate: int,
    successUrl: string,
    failUrl: string,
    receipt: Receipt)

  datatype RequestBody =
    | InitBody(data: InitData)
    | GetQrBody(qrPaymentId: Json, dataType: string)
    | PaymentIdBody(paymentId: string)

  datatype Request = Request(httpMethod: string, route: string, body: RequestBody)

  /** Why a gateway call failed. */
  datatype GatewayError =
    | TinkoffResponseError(response: Response)  // TinkoffResponseException
    | KeyMissing(key: string)                   // KeyError on the decoded body
    | NotAString(key: string)                   // a field the code uses as text held another JSON type
    | NotAnInteger(key: string)                 // ValueError/TypeError from int()

  /**
   * The success rule: HTTP 200 and a truthy `Success`. A non-200 response is
   * refused before the body is looked at; a 200 response without `Success`
   * raises KeyError.
   */
  function CheckResponse(r: Response): (err: Option<GatewayError>)
    ensures err.None? <==> r.statusCode == HTTP_200_OK && "Success" in r.body && Truthy(r.body["Success"])
    ensures r.statusCode != HTTP_200_OK ==> err == Some(TinkoffResponseError(r))
  {
    if r.statusCode != HTTP_200_OK then Some(TinkoffResponseError(r))
    else if "Success" !in r.body then Some(KeyMissing("Success"))
    else if !Truthy(r.body["Success"]) then Some(TinkoffResponseError(r))
    else None
  }

  /** `request(method='post', url_postfix=..., data={'PaymentId': ...})` of the cancel and confirm services. */
  function PaymentIdRequest(route: string, paymentId: string): (q: Request)
    ensures q.httpMethod == "post" && q.route == route && q.body == PaymentIdBody(paymentId)
  {
    Request("post", route, PaymentIdBody(paymentId))
  }
}
