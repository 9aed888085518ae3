/**
 * The rental order (apps/rent/models.py): its status vocabulary, the fields
 * the order workflow reads, and the temporary hold on a rental period.
 */
module OrderModels {
  import opened Wrappers

  /** `Order.Status`, in declaration order. */
  datatype Status =
    | New | AwaitPayment | AwaitReservation | ReservationSuccess | PaymentSuccess
    | WithoutDocs | OnApproval | ApprovalSuccess | VerifyFailed | AwaitConfirmPayment
    | ConfirmPaymentFailed | Booked | Active | Completed | Canceled | Rejected
    | OnReinit | ReinitFailed | PaymentSessionExpired
  {
    /** The value stored in the `status` column (each member's value is its own name). */
    function Value(): string
    {
      match this
      case New => "NEW"
      case AwaitPayment => "AWAIT_PAYMENT"
      case AwaitReservation => "AWAIT_RESERVATION"
      case ReservationSuccess => "RESERVATION_SUCCESS"
      case PaymentSuccess => "PAYMENT_SUCCESS"
      case WithoutDocs => "WITHOUT_DOCS"
      case OnApproval => "ON_APPROVAL"
      case ApprovalSuccess => "APPROVAL_SUCCESS"
      case VerifyFailed => "VERIFY_FAILED"
      case AwaitConfirmPayment => "AWAIT_CONFIRM_PAYMENT"
      case ConfirmPaymentFailed => "CONFIRM_PAYMENT_FAILED"
      case Booked => "BOOKED"
      case Active => "ACTIVE"
      case Completed => "COMPLETED"
      case Canceled => "CANCELED"
      case Rejected => "REJECTED"
      case OnReinit => "ON_REINIT"
      case ReinitFailed => "REINIT_FAILED"
      case PaymentSessionExpired => "PAYMENT_SESSION_EXPIRED"
    }
  }

  /** `max_length` of the `status` column. */
  const STATUS_MAX_LENGTH := 23

  /** The members in declaration order (`Order.Status` iterated). */
  const ALL_STATUSES: seq<Status> := [
    New, AwaitPayment, AwaitReservation, ReservationSuccess, PaymentSuccess,
    WithoutDocs, OnApproval, ApprovalSuccess, VerifyFailed, AwaitConfirmPayment,
    ConfirmPaymentFailed, Booked, Active, Completed, Canceled, Rejected,
    OnReinit, ReinitFailed, PaymentSessionExpired]

  /**
   * `Order.Status(v)`: the member whose stored value is `v`; None for a value
   * outside the choices (Django rejects it on validation).
   */
  function StatusFromValue(v: string): (r: Option<Status>)
    ensures r.Some? ==> r.value.Value() == v
    ensures r.None? ==> forall s: Status :: s.Value() != v
  {
    if v == "NEW" then Some(New)
    else if v == "AWAIT_PAYMENT" then Some(AwaitPayment)
    else if v == "AWAIT_RESERVATION" then Some(AwaitReservation)
    else if v == "RESERVATION_SUCCESS" then Some(ReservationSuccess)
    else if v == "PAYMENT_SUCCESS" then Some(PaymentSuccess)
    else if v == "WITHOUT_DOCS" then Some(WithoutDocs)
    else if v == "ON_APPROVAL" then Some(OnApproval)
    else if v == "APPROVAL_SUCCESS" then Some(ApprovalSuccess)
    else if v == "VERIFY_FAILED" then Some(VerifyFailed)
    else if v == "AWAIT_CONFIRM_PAYMENT" then Some(AwaitConfirmPayment)
    else if v == "CONFIRM_PAYMENT_FAILED" then Some(ConfirmPaymentFailed)
    else if v == "BOOKED" then Some(Booked)
    else if v == "ACTIVE" then Some(Active)
    else if v == "COMPLETED" then Some(Completed)
    else if v == "CANCELED" then Some(Canceled)
    else if v == "REJECTED" then Some(Rejected)
    else if v == "ON_REINIT" then Some(OnReinit)
    else if v == "REINIT_FAILED" then Some(ReinitFailed)
    else if v == "PAYMENT_SESSION_EXPIRED" then Some(PaymentSessionExpired)
    else None
  }

  /** Reading back the stored value gives the same member. */
  lemma StatusValueRoundTrip(s: Status)
    ensures StatusFromValue(s.Value()) == Some(s)
  {
    match s
    case New | AwaitPayment | AwaitReservation | ReservationSuccess | PaymentSuccess | WithoutDocs | OnApproval | ApprovalSuccess => RoundTripPart1(s);
    case VerifyFailed | AwaitConfirmPayment | ConfirmPaymentFailed | Booked => RoundTripPart2(s);
    case Active | Completed | Canceled => RoundTripPart3(s);
    case Rejected | OnReinit => RoundTripPart4(s);
    case ReinitFailed | PaymentSessionExpired => RoundTripPart5(s);
  }

  /** The round trip, one slice of the declaration order at a time. */
  lemma RoundTripPart1(s: Status)
    requires s.New? || s.AwaitPayment? || s.AwaitReservation? || s.ReservationSuccess? || s.PaymentSuccess? || s.WithoutDocs? || s.OnApproval? || s.ApprovalSuccess?
    ensures StatusFromValue(s.Value()) == Some(s)
  {
  }

  lemma RoundTripPart2(s: Status)
    requires s.VerifyFailed? || s.AwaitConfirmPayment? || s.ConfirmPaymentFailed? || s.Booked?
    ensures StatusFromValue(s.Value()) == Some(s)
  {
  }

  lemma RoundTripPart3(s: Status)
    requires s.Active? || s.Completed? || s.Canceled?
    ensures StatusFromValue(s.Value()) == Some(s)
  {
  }

  lemma RoundTripPart4(s: Status)
    requires s.Rejected? || s.OnReinit?
    ensures StatusFromValue(s.Value()) == Some(s)
  {
  }

  lemma RoundTripPart5(s: Status)
    requires s.ReinitFailed? || s.PaymentSessionExpired?
    ensures StatusFromValue(s.Value()) == Some(s)
  {
  }

  lemma StatusListed(s: Status)
    ensures s in ALL_STATUSES
  {
  }

  /**
   * The declared vocabulary: nineteen members with distinct values, every
   * status listed, every value fits the column, and the longest value fills
   * it exactly.
   */
  lemma StatusCatalogue()
    ensures |ALL_STATUSES| == 19
    ensures forall s: Status :: s in ALL_STATUSES
    ensures forall s: Status, t: Status :: s.Value() == t.Value() ==> s == t
    ensures forall s: Status :: |s.Value()| <= STATUS_MAX_LENGTH
    ensures |PaymentSessionExpired.Value()| == STATUS_MAX_LENGTH
  {
    forall s: Status ensures s in ALL_STATUSES {
      StatusListed(s);
    }
    forall s: Status, t: Status | s.Value() == t.Value() ensures s == t {
      StatusValueRoundTrip(s);
      StatusValueRoundTrip(t);
    }
  }

  /**
   * `District`: the declared district list is not part of this model; only
   * the member the order properties compare against is named.
   */
  datatype District = Pickup | OtherDistrict(value: string)

  /** The fields of `Order` the order workflow reads, and its `status`. */
  class Order {
    /** Primary key; None for an instance not yet saved. */
    const pk: Option<nat>
    const withManager: bool
    const startsAt: int
    const endsAt: int
    const pickupDistrict: District
    const returnDistrict: District
    var status: Status

    /** A new order: status defaults to NEW. */
    constructor (pk: Option<nat>, withManager: bool, startsAt: int, endsAt: int,
                 pickupDistrict: District, returnDistrict: District)
      ensures this.pk == pk && this.withManager == withManager
      ensures this.startsAt == startsAt && this.endsAt == endsAt
      ensures this.pickupDistrict == pickupDistrict && this.returnDistrict == returnDistrict
      ensures status == New
    {
      this.pk := pk;
      this.withManager := withManager;
      this.startsAt := startsAt;
      this.endsAt := endsAt;
      this.pickupDistrict := pickupDistrict;
      this.returnDistrict := returnDistrict;
      status := New;
    }

    /** `is_created` holds exactly for an instance that has no primary key yet. */
    predicate IsCreated()
      ensures IsCreated() <==> pk == None
    {
      pk.None?
    }

    /** `is_self_pickup`: the order is picked up at the rental point. */
    predicate IsSelfPickup()
      ensures IsSelfPickup() <==> pickupDistrict == Pickup
    {
      pickupDistrict.Pickup?
    }

    /** `is_self_return`: the order is returned to the rental point. */
    predicate IsSelfReturn()
      ensures IsSelfReturn() <==> returnDistrict == Pickup
    {
      returnDistrict.Pickup?
    }
  }

  /** A rental period held without an order: only a start and an end. */
  datatype TempBookedPeriod = TempBookedPeriod(startsAt: int, endsAt: int)
}
