/**
 * The persistent world the order workflow acts on: the orders, the payment
 * sessions keyed by payment id, the temporary period holds, and an ordered
 * record of every externally visible effect (a saved status, a notice sent,
 * a gateway request, a session deleted or saved, a task enqueued, an error
 * logged). The record is how ordering properties are stated.
 */
module Storage {
  import opened Wrappers
  import opened OrderModels
  import opened PaymentModels
  import opened Stages
  import opened Gateway

  /** The notice senders the pipes call; the cancel pipe may be given any other sender. */
  datatype NoticeSender =
    | OrderWithoutDocsNoticeSender
    | DocumentsVerifyFailedNoticeSender
    | OrderConfirmedNoticeSender
    | OrderCanceledNoticeSender
    | InjectedNoticeSender(senderId: nat)

  datatype Event =
    | StatusSaved(orderPk: Option<nat>, status: Status)        // order.save(update_fields=('status',))
    | NoticeSent(sender: NoticeSender, noticeOrderPk: Option<nat>)
    | DocumentsVerificationRun(verifiedOrderPk: Option<nat>)    // the documents verification service was called
    | GatewayRequested(request: Request)
    | SessionDeleted(deletedPaymentId: string)
    | SessionSaved(session: TinkoffPaymentData)
    | TaskEnqueued(taskOrderId: int, stage: OrderProcessStage)  // order_pipeline_task.delay(...)
    | ActionRan(actionId: nat)                                  // a SimplePipe action completed
    | ErrorLogged(loggedOrderId: int)

  /** The status an order ends with after the status saves in `t`, starting from `s`. */
  function LastStatus(s: Status, t: seq<Event>): (r: Status)
    ensures r == s || exists i :: 0 <= i < |t| && t[i].StatusSaved? && t[i].status == r
    decreases |t|
  {
    if t == [] then s
    else match t[|t| - 1]
      case StatusSaved(_, x) => x
      case _ => LastStatus(s, t[..|t| - 1])
  }

  /** The statuses saved in `t`, in order. */
  function SavedStatuses(t: seq<Event>): (r: seq<Status>)
    ensures |r| <= |t|
    decreases |t|
  {
    if t == [] then []
    else match t[|t| - 1]
      case StatusSaved(_, x) => SavedStatuses(t[..|t| - 1]) + [x]
      case _ => SavedStatuses(t[..|t| - 1])
  }

  /** The payment sessions after replaying the deletes and saves in `t` on `m`. */
  function ApplySessions(m: map<string, TinkoffPaymentData>, t: seq<Event>): map<string, TinkoffPaymentData>
    decreases |t|
  {
    if t == [] then m
    else
      var before := ApplySessions(m, t[..|t| - 1]);
      match t[|t| - 1]
      case SessionDeleted(id) => before - {id}
      case SessionSaved(d) => before[d.paymentId := d]
      case _ => before
  }

  predicate TouchesSessions(e: Event) { e.SessionDeleted? || e.SessionSaved? }

  lemma AppendAssociates(a: seq<Event>, b: seq<Event>, c: seq<Event>)
    ensures a + (b + c) == (a + b) + c
  {
  }

  lemma {:induction false} LastStatusConcat(s: Status, t1: seq<Event>, t2: seq<Event>)
    ensures LastStatus(s, t1 + t2) == LastStatus(LastStatus(s, t1), t2)
    decreases |t2|
  {
    if t2 != [] {
      assert (t1 + t2)[..|t1 + t2| - 1] == t1 + t2[..|t2| - 1];
      LastStatusConcat(s, t1, t2[..|t2| - 1]);
    } else {
      assert t1 + t2 == t1;
    }
  }

  /** The last saved status is the last element of the saved statuses. */
  lemma {:induction false} LastStatusIsLastSaved(s: Status, t: seq<Event>)
    ensures SavedStatuses(t) == [] ==> LastStatus(s, t) == s
    ensures SavedStatuses(t) != [] ==> LastStatus(s, t) == SavedStatuses(t)[|SavedStatuses(t)| - 1]
    decreases |t|
  {
    if t != [] {
      LastStatusIsLastSaved(s, t[..|t| - 1]);
    }
  }

  lemma {:induction false} SavedStatusesConcat(t1: seq<Event>, t2: seq<Event>)
    ensures SavedStatuses(t1 + t2) == SavedStatuses(t1) + SavedStatuses(t2)
    decreases |t2|
  {
    if t2 == [] {
      assert t1 + t2 == t1;
    } else {
      assert (t1 + t2)[..|t1 + t2| - 1] == t1 + t2[..|t2| - 1];
      SavedStatusesConcat(t1, t2[..|t2| - 1]);
    }
  }

  lemma {:induction false} ApplySessionsConcat(m: map<string, TinkoffPaymentData>, t1: seq<Event>, t2: seq<Event>)
    ensures ApplySessions(m, t1 + t2) == ApplySessions(ApplySessions(m, t1), t2)
    decreases |t2|
  {
    if t2 == [] {
      assert t1 + t2 == t1;
    } else {
      assert (t1 + t2)[..|t1 + t2| - 1] == t1 + t2[..|t2| - 1];
      ApplySessionsConcat(m, t1, t2[..|t2| - 1]);
    }
  }

  /** Replaying a delete of `oldId`, a save of `row` and a status save. */
  lemma ApplySessionsSwap(m: map<string, TinkoffPaymentData>, oldId: string, row: TinkoffPaymentData, pk: Option<nat>, s: Status)
    ensures ApplySessions(m, [SessionDeleted(oldId), SessionSaved(row), StatusSaved(pk, s)]) == (m - {oldId})[row.paymentId := row]
  {
    var t := [SessionDeleted(oldId), SessionSaved(row), StatusSaved(pk, s)];
    var t2, t1 := [SessionDeleted(oldId), SessionSaved(row)], [SessionDeleted(oldId)];
    assert t[..|t| - 1] == t2 && t2[..|t2| - 1] == t1 && t1[..|t1| - 1] == [];
    assert ApplySessions(m, t1) == m - {oldId};
    assert ApplySessions(m, t2) == (m - {oldId})[row.paymentId := row];
  }

  /** A record with no session delete or save leaves the sessions as they were. */
  /** No event of `t` deletes or saves a payment session. */
  predicate LeavesSessions(t: seq<Event>)
  {
    forall i :: 0 <= i < |t| ==> !TouchesSessions(t[i])
  }

  lemma LeavesSessionsConcat(t1: seq<Event>, t2: seq<Event>)
    requires LeavesSessions(t1) && LeavesSessions(t2)
    ensures LeavesSessions(t1 + t2)
  {
    forall i | |t1| <= i < |t1 + t2| ensures !TouchesSessions((t1 + t2)[i]) {
      assert (t1 + t2)[i] == t2[i - |t1|];
    }
  }

  lemma {:induction false} ApplySessionsUntouched(m: map<string, TinkoffPaymentData>, t: seq<Event>)
    requires forall i :: 0 <= i < |t| ==> !TouchesSessions(t[i])
    ensures ApplySessions(m, t) == m
    decreases |t|
  {
    if t != [] {
      ApplySessionsUntouched(m, t[..|t| - 1]);
    }
  }

  /**
   * What the schema guarantees of the payment sessions: each is stored
   * under its own payment id (the primary key), refers to an order whose
   * primary key has been assigned, and no two refer to the same order (the
   * one-to-one link).
   */
  predicate SessionsConsistent(sessions: map<string, TinkoffPaymentData>, nextOrderPk: nat)
  {
    && (forall id :: id in sessions ==> sessions[id].paymentId == id)
    && (forall id :: id in sessions ==> 0 <= sessions[id].orderPk < nextOrderPk)
    && (forall id1, id2 :: id1 in sessions && id2 in sessions && sessions[id1].orderPk == sessions[id2].orderPk ==> id1 == id2)
  }

  /** Replacing an order's session by a new one for the same order keeps the sessions consistent. */
  lemma SwapKeepsSessionsConsistent(m: map<string, TinkoffPaymentData>, nextOrderPk: nat, oldId: string, row: TinkoffPaymentData)
    requires SessionsConsistent(m, nextOrderPk)
    requires oldId in m && m[oldId].orderPk == row.orderPk
    ensures SessionsConsistent((m - {oldId})[row.paymentId := row], nextOrderPk)
  {
    var m' := (m - {oldId})[row.paymentId := row];
    forall id1, id2 | id1 in m' && id2 in m' && m'[id1].orderPk == m'[id2].orderPk
      ensures id1 == id2
    {
      if id1 != row.paymentId && id2 != row.paymentId {
        assert m'[id1] == m[id1] && m'[id2] == m[id2];
      }
    }
  }

  /** Saving the session of a newly assigned order key, and assigning the next key, keeps the sessions consistent. */
  lemma SaveNewKeepsSessionsConsistent(m: map<string, TinkoffPaymentData>, nextOrderPk: nat, row: TinkoffPaymentData)
    requires SessionsConsistent(m, nextOrderPk)
    requires row.orderPk == nextOrderPk
    ensures SessionsConsistent(m[row.paymentId := row], nextOrderPk + 1)
  {
    var m' := m[row.paymentId := row];
    forall id1, id2 | id1 in m' && id2 in m' && m'[id1].orderPk == m'[id2].orderPk
      ensures id1 == id2
    {
      if id1 != row.paymentId && id2 != row.paymentId {
        assert m'[id1] == m[id1] && m'[id2] == m[id2];
      }
    }
  }

  /** The database and the effect record. */
  class Db {
    var orders: set<Order>
    var sessions: map<string, TinkoffPaymentData>
    var holds: map<nat, TempBookedPeriod>
    var nextHoldId: nat
    var nextOrderPk: nat
    var trace: seq<Event>

    /**
     * What the schema guarantees: saved orders have distinct primary keys
     * below the next one to be assigned, the sessions are consistent, and
     * hold ids are below the next one to be assigned.
     */
    ghost predicate Valid()
      reads this
    {
      && (forall o :: o in orders ==> o.pk.Some? && o.pk.value < nextOrderPk)
      && (forall o1, o2 :: o1 in orders && o2 in orders && o1.pk == o2.pk ==> o1 == o2)
      && SessionsConsistent(sessions, nextOrderPk)
      && (forall h :: h in holds ==> h < nextHoldId)
    }

    constructor ()
      ensures orders == {} && sessions == map[] && holds == map[] && trace == []
      ensures nextHoldId == 0 && nextOrderPk == 0
      ensures Valid()
    {
      orders := {};
      sessions := map[];
      holds := map[];
      nextHoldId := 0;
      nextOrderPk := 0;
      trace := [];
    }

    method Record(e: Event)
      modifies this`trace
      ensures trace == old(trace) + [e]
    {
      trace := trace + [e];
    }

    method RecordAll(es: seq<Event>)
      modifies this`trace
      ensures trace == old(trace) + es
    {
      trace := trace + es;
    }

    /** `order.save(update_fields=('status',))`. */
    method SaveStatus(o: Order)
      modifies this`trace
      ensures trace == old(trace) + [StatusSaved(o.pk, o.status)]
    {
      trace := trace + [StatusSaved(o.pk, o.status)];
    }
  }

  /** In a consistent database no saved order counts as just created, and each has a primary key below the next one. */
  lemma SavedOrdersAreNotCreated(db: Db)
    requires db.Valid()
    ensures forall o :: o in db.orders ==> !o.IsCreated() && o.pk.value < db.nextOrderPk
  {
  }
}
