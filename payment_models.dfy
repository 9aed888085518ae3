/**
 * `TinkoffPaymentData` (apps/tinkoff_payments/models.py): one payment session
 * at the gateway, bound one-to-one to an order. Instants and durations are
 * whole microseconds, as Django's DateTimeField and DurationField hold them.
 */
module PaymentModels {
  import opened PaymentEnums

  const PAYMENT_ID_MAX_LENGTH := 23
  const PAYMENT_STRATEGY_MAX_LENGTH := 4
  const PAYLOAD_TYPE_MAX_LENGTH := 11

  const MICROSECONDS_PER_SECOND := 1000000

  /** The column default for `payment_session_lifetime`: two hours. */
  const DEFAULT_PAYMENT_SESSION_LIFETIME := 7200 * MICROSECONDS_PER_SECOND

  /**
   * One row. The strategy and payload type are the stored strings of their
   * choice columns; `paymentId` is the primary key.
   */
  datatype TinkoffPaymentData = TinkoffPaymentData(
    orderPk: int,
    paymentId: string,
    paymentStrategy: string,
    payloadType: string,
    payload: string,
    createdAt: int,
    paymentSessionLifetime: int)

  /** `payment_session_expired_at`: creation plus lifetime. */
  function PaymentSessionExpiredAt(d: TinkoffPaymentData): (t: int)
    ensures t - d.createdAt == d.paymentSessionLifetime
  {
    d.createdAt + d.paymentSessionLifetime
  }

  /** `payment_session_is_expired()` at instant `now`; the boundary instant is already expired. */
  predicate PaymentSessionIsExpired(d: TinkoffPaymentData, now: int)
    ensures PaymentSessionIsExpired(d, now) <==> d.createdAt + d.paymentSessionLifetime <= now
  {
    now >= PaymentSessionExpiredAt(d)
  }

  /** The row fits its columns and its choice columns hold declared values. */
  predicate Storable(d: TinkoffPaymentData)
  {
    && |d.paymentId| <= PAYMENT_ID_MAX_LENGTH
    && |d.paymentStrategy| <= PAYMENT_STRATEGY_MAX_LENGTH
    && |d.payloadType| <= PAYLOAD_TYPE_MAX_LENGTH
    && StrategyFromValue(d.paymentStrategy).Some?
    && PayloadTypeFromValue(d.payloadType).Some?
  }

  /** Every declared choice value fits its column; `payment_url` fills it exactly. */
  lemma ChoiceValuesFitColumns()
    ensures forall t: PaymentStrategyType :: |t.Value()| <= PAYMENT_STRATEGY_MAX_LENGTH
    ensures forall t: ResponsePaymentInitPayloadType :: |t.Value()| <= PAYLOAD_TYPE_MAX_LENGTH
    ensures |PaymentUrl.Value()| == PAYLOAD_TYPE_MAX_LENGTH
  {
    GeneratedValues();
  }

  /** A row built from declared members is storable whenever its payment id fits. */
  lemma StorableFromMembers(d: TinkoffPaymentData, s: PaymentStrategyType, p: ResponsePaymentInitPayloadType)
    requires d.paymentStrategy == s.Value() && d.payloadType == p.Value()
    ensures Storable(d) <==> |d.paymentId| <= PAYMENT_ID_MAX_LENGTH
  {
    ChoiceValuesFitColumns();
    StrategyValueRoundTrip(s);
    PayloadTypeValueRoundTrip(p);
  }

  /** Once expired, a session stays expired. */
  lemma ExpiryIsMonotone(d: TinkoffPaymentData, t1: int, t2: int)
    requires t1 <= t2 && PaymentSessionIsExpired(d, t1)
    ensures PaymentSessionIsExpired(d, t2)
  {
  }

  /** With the default lifetime, a session is live one microsecond before two hours and expired at two hours. */
  lemma DefaultLifetimeBoundary(d: TinkoffPaymentData)
    requires d.paymentSessionLifetime == DEFAULT_PAYMENT_SESSION_LIFETIME
    ensures !PaymentSessionIsExpired(d, d.createdAt + 7200 * MICROSECONDS_PER_SECOND - 1)
    ensures PaymentSessionIsExpired(d, d.createdAt + 7200 * MICROSECONDS_PER_SECOND)
  {
  }
}
