/**
 * `handle_expired_payment_sessions_task` (apps/tinkoff_payments/tasks.py):
 * one bulk update marks PAYMENT_SESSION_EXPIRED every order still awaiting
 * payment or reservation whose session has reached its expiry instant, and
 * reports how many orders it updated.
 */
module PaymentTasks {
  import opened OrderModels
  import opened PaymentModels
  import opened Storage

  /** The statuses the sweep looks at. */
  const AWAITING: seq<Status> := [AwaitPayment, AwaitReservation]

  /**
   * The sweep's filter, for an order with status `s`: awaiting, joined to a
   * session whose `created_at + payment_session_lifetime` is at most `now`.
   */
  predicate Selected(o: Order, s: Status, sessions: map<string, TinkoffPaymentData>, now: int)
  {
    && s in AWAITING
    && o.pk.Some?
    && exists id :: id in sessions && sessions[id].orderPk == o.pk.value
         && sessions[id].createdAt + sessions[id].paymentSessionLifetime <= now
  }

  /** The filter selects exactly the awaiting orders whose session `payment_session_is_expired` at `now`. */
  lemma SelectedIffExpired(o: Order, s: Status, sessions: map<string, TinkoffPaymentData>, now: int)
    ensures Selected(o, s, sessions, now) <==>
      && (s == AwaitPayment || s == AwaitReservation)
      && o.pk.Some?
      && exists id :: id in sessions && sessions[id].orderPk == o.pk.value && PaymentSessionIsExpired(sessions[id], now)
  {
    if Selected(o, s, sessions, now) {
      var id :| id in sessions && sessions[id].orderPk == o.pk.value
                && sessions[id].createdAt + sessions[id].paymentSessionLifetime <= now;
      assert PaymentSessionIsExpired(sessions[id], now);
    }
  }

  /** The orders the sweep updates. */
  function SelectedOrders(orders: set<Order>, sessions: map<string, TinkoffPaymentData>, now: int): set<Order>
    reads orders
  {
    set x | x in orders && Selected(x, x.status, sessions, now)
  }

  /**
   * The sweep at instant `now`: the selected orders become
   * PAYMENT_SESSION_EXPIRED, every other order keeps its status, and the
   * count returned is the number of orders updated.
   */
  method HandleExpiredPaymentSessions(db: Db, now: int) returns (count: nat)
    modifies db.orders`status
    ensures old(db.Valid()) ==> db.Valid()
    ensures forall x :: x in db.orders ==>
      x.status == if Selected(x, old(x.status), db.sessions, now) then PaymentSessionExpired else old(x.status)
    ensures count == |old(SelectedOrders(db.orders, db.sessions, now))|
    ensures count == |set x | x in db.orders && x.status != old(x.status)|
  {
    var expired := SelectedOrders(db.orders, db.sessions, now);
    forall x | x in expired {
      x.status := PaymentSessionExpired;
    }
    count := |expired|;
    assert expired == set x | x in db.orders && x.status != old(x.status);
  }
}
