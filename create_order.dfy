/**
 * `CreateOrderServiceForAPI` (apps/rent/services/create_order_service_for_api.py):
 * entering the service validates the request and holds its rental period,
 * leaving it releases the hold, and in between the order is created and its
 * payment session initialised in one transaction.
 */
module CreateOrder {
  import opened Wrappers
  import opened OrderModels
  import opened PaymentModels
  import opened Storage
  import opened PipeCore

  /** The serializer: whether `is_valid` accepts the data, and the validated fields. */
  datatype OrderRequest = OrderRequest(
    valid: bool,
    withManager: bool,
    startsAt: int,
    endsAt: int,
    pickupDistrict: District,
    returnDistrict: District,
    paymentStrategy: string)

  /**
   * What `InitPaymentSessionPipe` (not part of this model) does to the new
   * order: it raises, it stores no result, or it leaves the order in some
   * status with a saved payment session.
   */
  datatype InitPipeOutcome = InitPipeRaised | NoInitResult | Initialized(status: Status, data: TinkoffPaymentData)

  /**
   * The session the init pipe saves for the order with key `pk` refers to
   * that order.
   */
  predicate BindsNewOrder(init: nat -> InitPipeOutcome, pk: nat)
  {
    init(pk).Initialized? ==> init(pk).data.orderPk == pk
  }

  /** The exceptions the service lets escape. */
  datatype CreateError =
    | ValidationFailed          // `is_valid(raise_exception=True)`
    | InitRaised                // whatever the init pipe raised
    | NoResult(message: string) // NoResultOrderPipeException

  class CreateOrderService {
    const request: OrderRequest
    /** `__temp_booked_period`: the id of the hold this service booked. */
    var hold: Option<nat>

    constructor (request: OrderRequest)
      ensures this.request == request && hold == None
    {
      this.request := request;
      hold := None;
    }

    /** `book_period`: a new hold over the validated period, booked without an availability check. */
    method BookPeriod(db: Db)
      modifies this`hold, db`holds, db`nextHoldId
      ensures hold == Some(old(db.nextHoldId))
      ensures db.holds == old(db.holds)[old(db.nextHoldId) := TempBookedPeriod(request.startsAt, request.endsAt)]
      ensures db.nextHoldId == old(db.nextHoldId) + 1
      ensures old(db.Valid()) ==> db.Valid()
    {
      var id := db.nextHoldId;
      db.holds := db.holds[id := TempBookedPeriod(request.startsAt, request.endsAt)];
      db.nextHoldId := id + 1;
      hold := Some(id);
    }

    /** `__enter__`: validation first; only valid data books a hold. */
    method Enter(db: Db) returns (failure: Option<CreateError>)
      modifies this`hold, db`holds, db`nextHoldId
      ensures failure.None? <==> request.valid
      ensures failure.Some? ==> failure.value == ValidationFailed
      ensures !request.valid ==> hold == old(hold) && db.holds == old(db.holds) && db.nextHoldId == old(db.nextHoldId)
      ensures request.valid ==>
        && hold == Some(old(db.nextHoldId))
        && db.holds == old(db.holds)[old(db.nextHoldId) := TempBookedPeriod(request.startsAt, request.endsAt)]
        && db.nextHoldId == old(db.nextHoldId) + 1
      ensures old(db.Valid()) ==> db.Valid()
    {
      if !request.valid {
        return Some(ValidationFailed);
      }
      BookPeriod(db);
      failure := None;
    }

    /** `__exit__` / `release_period`: the booked hold is deleted. */
    method Exit(db: Db)
      requires hold.Some?
      modifies db`holds
      ensures db.holds == old(db.holds) - {hold.value}
      ensures old(db.Valid()) ==> db.Valid()
    {
      db.holds := db.holds - {hold.value};
    }

    /**
     * `create_order_and_init_payment`, atomic: the order is saved under the
     * next primary key and the init pipe runs on it (`init` says what it
     * does for that key; `initPipeName` is its `get_pipe_name()`, which the
     * missing-result message names). Only an init that stores a result
     * commits the order and its session; a raise or a missing result rolls
     * both back.
     */
    method CreateOrderAndInitPayment(db: Db, init: nat -> InitPipeOutcome, initPipeName: string) returns (r: Result<PipeOrderDTO, CreateError>)
      modifies db`orders, db`nextOrderPk, db`sessions
      ensures var outcome := init(old(db.nextOrderPk));
        && (r.Ok? <==> outcome.Initialized?)
        && (outcome == InitPipeRaised ==> r == Err(InitRaised))
        && (outcome == NoInitResult ==> r == Err(NoResult(NoResultMessage(initPipeName))))
      ensures r.Err? ==> db.orders == old(db.orders) && db.nextOrderPk == old(db.nextOrderPk) && db.sessions == old(db.sessions)
      ensures r.Ok? ==>
        var outcome := init(old(db.nextOrderPk));
        var order := r.value.order;
        && fresh(order)
        && order.pk == Some(old(db.nextOrderPk))
        && order.withManager == request.withManager
        && order.startsAt == request.startsAt && order.endsAt == request.endsAt
        && order.pickupDistrict == request.pickupDistrict && order.returnDistrict == request.returnDistrict
        && order.status == outcome.status
        && r.value.paymentData == Some(outcome.data)
        && db.orders == old(db.orders) + {order}
        && db.nextOrderPk == old(db.nextOrderPk) + 1
        && db.sessions == old(db.sessions)[outcome.data.paymentId := outcome.data]
      ensures old(db.Valid()) && BindsNewOrder(init, old(db.nextOrderPk)) ==> db.Valid()
    {
      var pk := db.nextOrderPk;
      var order := new Order(Some(pk), request.withManager, request.startsAt, request.endsAt,
                             request.pickupDistrict, request.returnDistrict);
      match init(pk)
      case InitPipeRaised =>
        r := Err(InitRaised);
      case NoInitResult =>
        r := Err(NoResult(NoResultMessage(initPipeName)));
      case Initialized(status, data) =>
        order.status := status;
        db.orders := db.orders + {order};
        db.nextOrderPk := pk + 1;
        db.sessions := db.sessions[data.paymentId := data];
        r := Ok(PipeOrderDTO(order, Some(data)));
        if old(db.Valid()) && data.orderPk == pk {
          SaveNewKeepsSessionsConsistent(old(db.sessions), pk, data);
        }
    }
  }

  /**
   * The service used as a context manager around
   * `create_order_and_init_payment`: whatever the outcome, the holds are
   * what they were before the attempt, since `__exit__` runs on every exit
   * from the block and a failed `__enter__` booked nothing; only a
   * successful attempt keeps the order.
   */
  method CreateWithinHold(request: OrderRequest, db: Db, init: nat -> InitPipeOutcome, initPipeName: string)
    returns (r: Result<PipeOrderDTO, CreateError>)
    requires db.Valid()
    modifies db`holds, db`nextHoldId, db`orders, db`nextOrderPk, db`sessions
    ensures db.holds == old(db.holds)
    ensures |db.holds| == |old(db.holds)|
    ensures r.Ok? <==> request.valid && init(old(db.nextOrderPk)).Initialized?
    ensures !request.valid ==> r == Err(ValidationFailed)
    ensures request.valid && init(old(db.nextOrderPk)) == NoInitResult ==> r == Err(NoResult(NoResultMessage(initPipeName)))
    ensures r.Err? ==> db.orders == old(db.orders) && db.sessions == old(db.sessions)
    ensures r.Ok? ==> db.orders == old(db.orders) + {r.value.order} && fresh(r.value.order)
    ensures BindsNewOrder(init, old(db.nextOrderPk)) ==> db.Valid()
  {
    var service := new CreateOrderService(request);
    var failure := service.Enter(db);
    if failure.Some? {
      return Err(failure.value);
    }
    ghost var held := db.holds;
    r := service.CreateOrderAndInitPayment(db, init, initPipeName);
    assert db.holds == held;
    service.Exit(db);
    assert old(db.nextHoldId) !in old(db.holds);
  }
}
