/**
 * The enumerations of payment initialisation
 * (apps/tinkoff_payments/services/payment_initialization/enums.py).
 * Members declared with `auto()` take the lower-cased member name as value.
 */
module PaymentEnums {
  import opened Wrappers
  import Text

  /** Payment strategies: by card (two-stage) or through the fast payment system. */
  datatype PaymentStrategyType = Card | Sbp {
    function Name(): string
    {
      match this
      case Card => "CARD"
      case Sbp => "SBP"
    }

    function Value(): string { Text.Lower(Name()) }
  }

  const ALL_PAYMENT_STRATEGIES: seq<PaymentStrategyType> := [Card, Sbp]

  /** What the client receives after initialisation. */
  datatype ResponsePaymentInitPayloadType = PaymentUrl | QrUrl | QrImage {
    function Name(): string
    {
      match this
      case PaymentUrl => "PAYMENT_URL"
      case QrUrl => "QR_URL"
      case QrImage => "QR_IMAGE"
    }

    function Value(): string { Text.Lower(Name()) }
  }

  const ALL_PAYLOAD_TYPES: seq<ResponsePaymentInitPayloadType> := [PaymentUrl, QrUrl, QrImage]

  /** The kind of QR code an SBP initialisation asks for. */
  datatype QrDataType = Image | Payload {
    function Value(): string
    {
      match this
      case Image => "IMAGE"
      case Payload => "PAYLOAD"
    }
  }

  /** The gateway's payment type: one-stage or two-stage (authorise, then confirm). */
  datatype PayType = SingleStage | TwoStage {
    function Value(): string
    {
      match this
      case SingleStage => "O"
      case TwoStage => "T"
    }
  }

  /** The receipt constants the advance-payment request uses. */
  const TAXATION_USN_INCOME_OUTCOME := "usn_income_outcome"
  const TAX_NONE := "none"
  const PAYMENT_METHOD_PREPAYMENT := "prepayment"
  const PAYMENT_OBJECT_SERVICE := "service"

  /** The values `auto()` generates. */
  lemma GeneratedValues()
    ensures Card.Value() == "card" && Sbp.Value() == "sbp"
    ensures PaymentUrl.Value() == "payment_url"
    ensures QrUrl.Value() == "qr_url"
    ensures QrImage.Value() == "qr_image"
  {
    Text.LowerIs("CARD", "card");
    Text.LowerIs("SBP", "sbp");
    Text.LowerIs("PAYMENT_URL", "payment_url");
    Text.LowerIs("QR_URL", "qr_url");
    Text.LowerIs("QR_IMAGE", "qr_image");
  }

  /** `PaymentStrategyType.choices()`: one (value, name) pair per member, in order. */
  function StrategyChoices(): (r: seq<(string, string)>)
    ensures |r| == |ALL_PAYMENT_STRATEGIES|
    ensures forall i :: 0 <= i < |r| ==>
      r[i] == (ALL_PAYMENT_STRATEGIES[i].Value(), ALL_PAYMENT_STRATEGIES[i].Name())
  {
    seq(|ALL_PAYMENT_STRATEGIES|, i requires 0 <= i < |ALL_PAYMENT_STRATEGIES| =>
      (ALL_PAYMENT_STRATEGIES[i].Value(), ALL_PAYMENT_STRATEGIES[i].Name()))
  }

  /** `ResponsePaymentInitPayloadType.choices()`. */
  function PayloadTypeChoices(): (r: seq<(string, string)>)
    ensures |r| == |ALL_PAYLOAD_TYPES|
    ensures forall i :: 0 <= i < |r| ==>
      r[i] == (ALL_PAYLOAD_TYPES[i].Value(), ALL_PAYLOAD_TYPES[i].Name())
  {
    seq(|ALL_PAYLOAD_TYPES|, i requires 0 <= i < |ALL_PAYLOAD_TYPES| =>
      (ALL_PAYLOAD_TYPES[i].Value(), ALL_PAYLOAD_TYPES[i].Name()))
  }

  /** `PaymentStrategyType(v)`, the lookup by value; None is Python's ValueError. */
  function StrategyFromValue(v: string): (r: Option<PaymentStrategyType>)
    ensures r.Some? ==> r.value.Value() == v
    ensures r.None? ==> forall t: PaymentStrategyType :: t.Value() != v
  {
    GeneratedValues();
    if v == Card.Value() then Some(Card)
    else if v == Sbp.Value() then Some(Sbp)
    else None
  }

  /** `ResponsePaymentInitPayloadType(v)`. */
  function PayloadTypeFromValue(v: string): (r: Option<ResponsePaymentInitPayloadType>)
    ensures r.Some? ==> r.value.Value() == v
    ensures r.None? ==> forall t: ResponsePaymentInitPayloadType :: t.Value() != v
  {
    GeneratedValues();
    if v == PaymentUrl.Value() then Some(PaymentUrl)
    else if v == QrUrl.Value() then Some(QrUrl)
    else if v == QrImage.Value() then Some(QrImage)
    else None
  }

  lemma StrategyValueRoundTrip(t: PaymentStrategyType)
    ensures StrategyFromValue(t.Value()) == Some(t)
  {
    GeneratedValues();
  }

  lemma PayloadTypeValueRoundTrip(t: ResponsePaymentInitPayloadType)
    ensures PayloadTypeFromValue(t.Value()) == Some(t)
  {
    GeneratedValues();
  }

  /** Every choice's value looks its own strategy up again. */
  lemma StrategyChoicesRoundTrip(i: int)
    requires 0 <= i < |StrategyChoices()|
    ensures StrategyFromValue(StrategyChoices()[i].0) == Some(ALL_PAYMENT_STRATEGIES[i])
  {
    StrategyValueRoundTrip(ALL_PAYMENT_STRATEGIES[i]);
  }

  /** Every choice's value looks its own payload type up again. */
  lemma PayloadTypeChoicesRoundTrip(i: int)
    requires 0 <= i < |PayloadTypeChoices()|
    ensures PayloadTypeFromValue(PayloadTypeChoices()[i].0) == Some(ALL_PAYLOAD_TYPES[i])
  {
    PayloadTypeValueRoundTrip(ALL_PAYLOAD_TYPES[i]);
  }
}
