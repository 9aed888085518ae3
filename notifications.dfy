/**
 * Tinkoff's payment notifications (apps/tinkoff_payments/services/notifications):
 * the factory picks a handler by the notified payment status; AUTHORIZED and
 * CONFIRMED hand the order to the processing pipeline when checking would
 * admit it, REJECTED marks the order rejected, and DEADLINE_EXPIRED marks the
 * session's order expired.
 */
module Notifications {
  import opened Wrappers
  import OrderModels
  import opened PaymentModels
  import opened PaymentEnums
  import opened Stages
  import opened Storage
  import opened PipeCore
  import ExistsDocumentsCheck
  import opened RentTasks

  /** `NotificationPaymentStatus`, in declaration order. */
  datatype NotificationPaymentStatus =
    | Authorized | Confirmed | PartialReversed | Reversed | PartialRefunded
    | Refunded | Rejected | AttemptsExpired | Canceled | DeadlineExpired

  const ALL_NOTIFICATION_STATUSES: seq<NotificationPaymentStatus> :=
    [Authorized, Confirmed, PartialReversed, Reversed, PartialRefunded,
     Refunded, Rejected, AttemptsExpired, Canceled, DeadlineExpired]

  /** `TinkoffNotificationDTO`. */
  datatype Notification = Notification(
    terminalKey: string,
    token: string,
    orderId: int,
    success: bool,
    status: NotificationPaymentStatus,
    paymentId: string,
    errorCode: string,
    amount: int)

  /** The handler classes. */
  datatype HandlerKind = AuthorizedHandler | ConfirmedHandler | RejectedHandler | DeadlineExpiredHandler

  /** `_NOTIFICATION_HANDLER_CLASSES_MAP.get(payment_status)`. */
  function HandlerClass(s: NotificationPaymentStatus): (r: Option<HandlerKind>)
    ensures r.Some? <==> s in [Authorized, Confirmed, Rejected, DeadlineExpired]
  {
    match s
    case Authorized => Some(AuthorizedHandler)
    case Confirmed => Some(ConfirmedHandler)
    case Rejected => Some(RejectedHandler)
    case DeadlineExpired => Some(DeadlineExpiredHandler)
    case _ => None
  }

  /** The four handled statuses each have their own handler class; six statuses have none. */
  lemma HandlerClassesDistinct()
    ensures forall s1, s2 :: HandlerClass(s1).Some? && HandlerClass(s1) == HandlerClass(s2) ==> s1 == s2
    ensures |set i | 0 <= i < |ALL_NOTIFICATION_STATUSES| && HandlerClass(ALL_NOTIFICATION_STATUSES[i]).None?| == 6
  {
    var unhandled := set i | 0 <= i < |ALL_NOTIFICATION_STATUSES| && HandlerClass(ALL_NOTIFICATION_STATUSES[i]).None?;
    assert unhandled == {2, 3, 4, 5, 7, 8};
  }

  /** A handler instance. */
  class NotificationHandler {
    const kind: HandlerKind

    constructor (kind: HandlerKind)
      ensures this.kind == kind
    {
      this.kind := kind;
    }
  }

  /** `TinkoffNotificationHandlerFactory.create`: a new handler of the mapped class, or None. */
  method Create(s: NotificationPaymentStatus) returns (h: NotificationHandler?)
    ensures h == null <==> HandlerClass(s).None?
    ensures h != null ==> fresh(h) && h.kind == HandlerClass(s).value
  {
    match HandlerClass(s)
    case Some(k) => h := new NotificationHandler(k);
    case None => h := null;
  }

  /** The foreign key of every session refers to a saved order. */
  ghost predicate SessionsHaveOrders(db: Db)
    reads db
  {
    forall id :: id in db.sessions ==> exists x :: x in db.orders && HasPk(x, db.sessions[id].orderPk)
  }

  /**
   * What AUTHORIZED (which skips SBP sessions) or CONFIRMED (which skips
   * card sessions) enqueues for session `d` whose order has status `s`: the
   * pipeline task from CHECKING_EXISTS_DOCUMENTS, when checking admits the
   * status.
   */
  function EnqueuedFor(skipped: PaymentStrategyType, d: TinkoffPaymentData, s: OrderModels.Status): (t: seq<Event>)
    ensures t != [] <==> d.paymentStrategy != skipped.Value() && ExistsDocumentsCheck.IsValidStatus(s)
    ensures t != [] ==> t == [TaskEnqueued(d.orderPk, CheckingExistsDocuments)]
  {
    if d.paymentStrategy == skipped.Value() || !ExistsDocumentsCheck.IsValidStatus(s) then []
    else [TaskEnqueued(d.orderPk, CheckingExistsDocuments)]
  }

  /** An order sent to the pipeline, still in the status it was sent in, is not refused by checking's guard. */
  lemma EnqueuedOrderPassesGuard(skipped: PaymentStrategyType, d: TinkoffPaymentData, p: Pipe, dto: PipeOrderDTO)
    requires EnqueuedFor(skipped, d, dto.order.status) != []
    ensures var e := ExistsDocumentsCheck.Effect(p, dto, dto.order.status);
      !(e.outcome.Raised? && e.outcome.error.InvalidOrderStatus?)
  {
  }

  /**
   * The body AUTHORIZED and CONFIRMED share: the session of the notified
   * payment is looked up with its order; a session of the skipped strategy,
   * or an order checking would refuse, enqueues nothing. No status is
   * written.
   */
  method EnqueueChecking(skipped: PaymentStrategyType, n: Notification, db: Db) returns (ghost order: OrderModels.Order?)
    requires SessionsHaveOrders(db)
    modifies db`trace
    ensures old(db.Valid()) ==> db.Valid()
    ensures n.paymentId !in db.sessions ==> order == null && db.trace == old(db.trace)
    ensures n.paymentId in db.sessions ==>
      && order != null && order in db.orders && HasPk(order, db.sessions[n.paymentId].orderPk)
      && db.trace == old(db.trace) + EnqueuedFor(skipped, db.sessions[n.paymentId], order.status)
  {
    if n.paymentId !in db.sessions {
      return null;
    }
    var d := db.sessions[n.paymentId];
    var found := FindOrder(db, d.orderPk);
    order := found;
    if d.paymentStrategy == skipped.Value() {
      return;
    }
    if ExistsDocumentsCheck.IsValidStatus(found.status) {
      db.Record(TaskEnqueued(d.orderPk, CheckingExistsDocuments));
    }
  }

  /** `TinkoffNotificationAuthorizedHandler.handle`: SBP sessions are skipped. */
  method HandleAuthorized(n: Notification, db: Db) returns (ghost order: OrderModels.Order?)
    requires SessionsHaveOrders(db)
    modifies db`trace
    ensures old(db.Valid()) ==> db.Valid()
    ensures n.paymentId !in db.sessions ==> order == null && db.trace == old(db.trace)
    ensures n.paymentId in db.sessions ==>
      && order != null && order in db.orders && HasPk(order, db.sessions[n.paymentId].orderPk)
      && db.trace == old(db.trace) + EnqueuedFor(Sbp, db.sessions[n.paymentId], order.status)
  {
    order := EnqueueChecking(Sbp, n, db);
  }

  /** `TinkoffNotificationConfirmedHandler.handle`: card sessions are skipped. */
  method HandleConfirmed(n: Notification, db: Db) returns (ghost order: OrderModels.Order?)
    requires SessionsHaveOrders(db)
    modifies db`trace
    ensures old(db.Valid()) ==> db.Valid()
    ensures n.paymentId !in db.sessions ==> order == null && db.trace == old(db.trace)
    ensures n.paymentId in db.sessions ==>
      && order != null && order in db.orders && HasPk(order, db.sessions[n.paymentId].orderPk)
      && db.trace == old(db.trace) + EnqueuedFor(Card, db.sessions[n.paymentId], order.status)
  {
    order := EnqueueChecking(Card, n, db);
  }

  /**
   * `TinkoffNotificationRejectedHandler.handle`: the notified order, if it
   * exists, becomes REJECTED whatever its status, and only that status is
   * saved.
   */
  method HandleRejected(n: Notification, db: Db) returns (ghost order: OrderModels.Order?)
    modifies db.orders`status, db`trace
    ensures old(db.Valid()) ==> db.Valid()
    ensures order == null <==> forall x :: x in db.orders ==> !HasPk(x, n.orderId)
    ensures order == null ==> db.trace == old(db.trace)
    ensures order != null ==>
      && order in db.orders && HasPk(order, n.orderId)
      && order.status == OrderModels.Rejected
      && db.trace == old(db.trace) + [StatusSaved(order.pk, OrderModels.Rejected)]
    ensures forall x :: x in db.orders && x != order ==> x.status == old(x.status)
  {
    var found := FindOrder(db, n.orderId);
    order := found;
    if found == null {
      return;
    }
    found.status := OrderModels.Rejected;
    db.SaveStatus(found);
  }

  /** The order is the one the session with payment id `paymentId` belongs to. */
  predicate PaidBy(x: OrderModels.Order, paymentId: string, sessions: map<string, TinkoffPaymentData>)
  {
    paymentId in sessions && x.pk.Some? && sessions[paymentId].orderPk == x.pk.value
  }

  /**
   * `TinkoffNotificationDeadlineExpiredHandler.handle`: one bulk update
   * makes the session's order PAYMENT_SESSION_EXPIRED whatever its status;
   * every other order is untouched.
   */
  method HandleDeadlineExpired(n: Notification, db: Db)
    modifies db.orders`status
    ensures old(db.Valid()) ==> db.Valid()
    ensures forall x :: x in db.orders ==>
      x.status == if PaidBy(x, n.paymentId, db.sessions) then OrderModels.PaymentSessionExpired else old(x.status)
  {
    forall x | x in db.orders && PaidBy(x, n.paymentId, db.sessions) {
      x.status := OrderModels.PaymentSessionExpired;
    }
  }
}
