/**
 * The rental tasks (apps/rent/tasks.py): the pipeline task that runs an
 * order through the chain built from a stage, logging whatever the chain
 * raises, and the sweep that makes booked orders active once their rental
 * has begun.
 */
module RentTasks {
  import opened Wrappers
  import opened OrderModels
  import opened PaymentModels
  import opened Stages
  import opened Storage
  import opened PipeCore
  import opened Pipelines
  import opened OrderPipelineBuilding

  /** The order has primary key `id`. */
  predicate HasPk(o: Order, id: int)
  {
    o.pk.Some? && o.pk.value == id
  }

  /** `Order.objects.filter(pk=order_id).first()`. */
  method FindOrder(db: Db, orderId: int) returns (order: Order?)
    ensures order != null ==> order in db.orders && HasPk(order, orderId)
    ensures order == null <==> forall x :: x in db.orders ==> !HasPk(x, orderId)
  {
    if exists x :: x in db.orders && HasPk(x, orderId) {
      order :| order in db.orders && HasPk(order, orderId);
    } else {
      order := null;
    }
  }

  /** `order.payment_data`: the session bound to the order, if there is one. */
  method FindSession(db: Db, orderPk: int) returns (session: Option<TinkoffPaymentData>)
    ensures session.Some? ==> session.value in db.sessions.Values && session.value.orderPk == orderPk
    ensures session.None? <==> forall id :: id in db.sessions ==> db.sessions[id].orderPk != orderPk
  {
    if exists id :: id in db.sessions && db.sessions[id].orderPk == orderPk {
      var id :| id in db.sessions && db.sessions[id].orderPk == orderPk;
      session := Some(db.sessions[id]);
    } else {
      session := None;
    }
  }

  /** Why the Celery task itself fails, before the pipeline runs: these escape it. */
  datatype TaskFailure =
    | OrderMissing              // `None.payment_data`: AttributeError
    | SessionMissing            // the reverse one-to-one raises RelatedObjectDoesNotExist
    | StageMissing(message: string)  // the builder's AssertionError

  /** What the pipeline task records for a run of the chain: its record, then the logged error if it raised. */
  function TaskRecord(orderId: int, run: ChainRun): (t: seq<Event>)
    ensures |t| == |run.trace| + (if run.outcome.Raised? then 1 else 0)
    ensures t[..|run.trace|] == run.trace
    ensures run.outcome.Raised? ==> t[|t| - 1] == ErrorLogged(orderId)
  {
    run.trace + (if run.outcome.Raised? then [ErrorLogged(orderId)] else [])
  }

  /**
   * `order_pipeline_task`: the order and its session are loaded, the
   * pipeline is built from the stage and invoked on them; whatever the
   * pipeline raises is logged and swallowed. The shared pipes are rewired
   * to the new pipeline; no other order is touched.
   */
  method OrderPipelineTask(orderId: int, stage: string, db: Db, pipeMap: OrderPipeMap, o: Oracle)
    returns (failure: Option<TaskFailure>, ghost order: Order?, ghost session: Option<TinkoffPaymentData>)
    requires pipeMap.Valid()
    modifies pipeMap.checking, pipeMap.verify, pipeMap.confirm, db.orders`status, db`trace, db`sessions
    ensures order == null <==> forall x :: x in db.orders ==> !HasPk(x, orderId)
    ensures order != null ==> order in db.orders && HasPk(order, orderId)
    ensures session.Some? ==> order != null && session.value in old(db.sessions).Values && session.value.orderPk == orderId
    ensures order != null && session.None? ==> forall id :: id in old(db.sessions) ==> old(db.sessions)[id].orderPk != orderId
    ensures failure == Some(OrderMissing) <==> order == null
    ensures failure == Some(SessionMissing) <==> order != null && session.None?
    ensures failure.Some? && failure.value.StageMissing? <==> session.Some? && StartStage(stage).Err?
    ensures failure.Some? && failure.value.StageMissing? ==> failure.value.message == MissingStageMessage(stage)
    ensures failure.Some? ==> db.trace == old(db.trace) && db.sessions == old(db.sessions)
    ensures failure.Some? ==> forall x :: x in db.orders ==> x.status == old(x.status)
    ensures failure.None? ==>
      var run := RunChain(pipeMap.StagePipes(StartStage(stage).value), PipeOrderDTO(order, session), old(order.status), Steps(o));
      && db.trace == old(db.trace) + TaskRecord(orderId, run)
      && order.status == LastStatus(old(order.status), run.trace)
      && db.sessions == ApplySessions(old(db.sessions), run.trace)
    ensures forall x :: x in db.orders && x != order ==> x.status == old(x.status)
    ensures failure.None? ==> db.sessions == old(db.sessions)
    ensures old(db.Valid()) ==> db.Valid()
  {
    var found := FindOrder(db, orderId);
    order := found;
    if found == null {
      return Some(OrderMissing), null, None;
    }
    var paymentData := FindSession(db, orderId);
    session := paymentData;
    if paymentData.None? {
      return Some(SessionMissing), order, None;
    }
    failure := RunFromStage(orderId, found, paymentData, stage, db, pipeMap, o);
  }

  /** The pipeline task once the order and its session are loaded: the stage is checked, then the pipeline runs. */
  method RunFromStage(orderId: int, order: Order, session: Option<TinkoffPaymentData>, stage: string,
                      db: Db, pipeMap: OrderPipeMap, o: Oracle) returns (failure: Option<TaskFailure>)
    requires pipeMap.Valid()
    modifies pipeMap.checking, pipeMap.verify, pipeMap.confirm, order`status, db`trace, db`sessions
    ensures failure.Some? <==> StartStage(stage).Err?
    ensures failure.Some? ==> failure == Some(StageMissing(MissingStageMessage(stage)))
    ensures failure.Some? ==> db.trace == old(db.trace) && db.sessions == old(db.sessions) && order.status == old(order.status)
    ensures failure.None? ==>
      var run := RunChain(pipeMap.StagePipes(StartStage(stage).value), PipeOrderDTO(order, session), old(order.status), Steps(o));
      && db.trace == old(db.trace) + TaskRecord(orderId, run)
      && order.status == LastStatus(old(order.status), run.trace)
      && db.sessions == ApplySessions(old(db.sessions), run.trace)
    ensures db.sessions == old(db.sessions)
  {
    var start := StartStage(stage);
    if start.Err? {
      return Some(StageMissing(start.error));
    }
    RunPipeline(orderId, order, session, start.value, db, pipeMap, o);
    StagePipesLeaveSessions(pipeMap, start.value, PipeOrderDTO(order, session), old(order.status), o, old(db.sessions));
    failure := None;
  }

  /** The guarded part of the pipeline task: build from `start`, invoke on the order and its session, log a raise. */
  method RunPipeline(orderId: int, order: Order, session: Option<TinkoffPaymentData>, start: OrderProcessStage,
                     db: Db, pipeMap: OrderPipeMap, o: Oracle)
    requires pipeMap.Valid()
    modifies pipeMap.checking, pipeMap.verify, pipeMap.confirm, order`status, db`trace, db`sessions
    ensures var run := RunChain(pipeMap.StagePipes(start), PipeOrderDTO(order, session), old(order.status), Steps(o));
      && db.trace == old(db.trace) + TaskRecord(orderId, run)
      && order.status == LastStatus(old(order.status), run.trace)
      && db.sessions == ApplySessions(old(db.sessions), run.trace)
  {
    var builder := new OrderPipelineBuilder(pipeMap, start);
    var pipeline := builder.Build();
    InvokeLogged(orderId, pipeline, PipeOrderDTO(order, session), db, o);
  }

  /** The `try` of the pipeline task: the pipeline is invoked, and an exception it raises is logged. */
  method InvokeLogged(orderId: int, pipeline: Pipeline, dto: PipeOrderDTO, db: Db, o: Oracle)
    requires pipeline.Wired()
    modifies pipeline.pipes`result, pipeline.terminate`result, dto.order`status, db`trace, db`sessions
    ensures var run := RunChain(pipeline.pipes, dto, old(dto.order.status), Steps(o));
      && db.trace == old(db.trace) + TaskRecord(orderId, run)
      && dto.order.status == LastStatus(old(dto.order.status), run.trace)
      && db.sessions == ApplySessions(old(db.sessions), run.trace)
  {
    ghost var run := RunChain(pipeline.pipes, dto, dto.order.status, Steps(o));
    TerminatedRun(pipeline.pipes, pipeline.terminate, dto, dto.order.status, o);
    var outcome, handsOver := pipeline.Invoke(dto, db, o);
    assert db.trace == old(db.trace) + run.trace;
    if outcome.Raised? {
      db.Record(ErrorLogged(orderId));
    }
  }

  /** The status the BOOKED-to-ACTIVE sweep leaves an order with at instant `now`. */
  function SweptStatus(s: Status, startsAt: int, now: int): Status
  {
    if s == Booked && startsAt <= now then Active else s
  }

  /** Exactly the booked orders whose rental has begun become ACTIVE; every other status is left alone. */
  lemma SweepChangesOnlyStartedBookings(s: Status, startsAt: int, now: int)
    ensures SweptStatus(s, startsAt, now) != s <==> s == Booked && startsAt <= now
    ensures SweptStatus(s, startsAt, now) != s ==> SweptStatus(s, startsAt, now) == Active
  {
  }

  /** Sweeping twice at the same instant is sweeping once. */
  lemma SweepIdempotent(s: Status, startsAt: int, now: int)
    ensures SweptStatus(SweptStatus(s, startsAt, now), startsAt, now) == SweptStatus(s, startsAt, now)
  {
  }

  /** `order_booked_to_active_task` at instant `now`: one bulk update of the matching orders. */
  method OrderBookedToActive(db: Db, now: int)
    modifies db.orders`status
    ensures old(db.Valid()) ==> db.Valid()
    ensures forall x :: x in db.orders ==> x.status == SweptStatus(old(x.status), x.startsAt, now)
  {
    forall x | x in db.orders && x.status == Booked && x.startsAt <= now {
      x.status := Active;
    }
  }
}
