/**
 * The chain of responsibility (utils/pipelines/pipeline.py): a pipeline
 * holds its pipes in the order they were added, each wired to the next, the
 * last to a terminator SimplePipe that does nothing. Invoking it starts at
 * the first pipe; each pipe decides whether the chain goes on. Here every
 * pipe's invoke is dispatched on its class, and the pipeline is walked by
 * following the `next` links.
 */
module Pipelines {
  import opened Wrappers
  import opened OrderModels
  import opened PaymentModels
  import opened PaymentEnums
  import opened Gateway
  import opened Storage
  import opened PipeCore
  import SimplePipes
  import ExistsDocumentsCheck
  import DocumentsVerification
  import OrderConfirmation
  import OrderCancellation
  import OrderCompletion
  import PaymentSessionReinit

  /** `get_pipe_name` of an order pipe: every order pipe names itself. */
  function PipeName(k: PipeKind): (n: string)
    requires !k.SimplePipe?
    ensures k == CheckingExistsDocumentsPipe ==> n == ExistsDocumentsCheck.PIPE_NAME
    ensures k == VerifyDocumentsPipe ==> n == DocumentsVerification.PIPE_NAME
    ensures k == ConfirmOrderPipe ==> n == OrderConfirmation.PIPE_NAME
    ensures k.CancelOrderPipe? ==> n == OrderCancellation.PIPE_NAME
    ensures k == CompleteOrderPipe ==> n == OrderCompletion.PIPE_NAME
    ensures k == ReinitPaymentSessionPipe ==> n == PaymentSessionReinit.PIPE_NAME
  {
    match k
    case CheckingExistsDocumentsPipe => ExistsDocumentsCheck.PIPE_NAME
    case VerifyDocumentsPipe => DocumentsVerification.PIPE_NAME
    case ConfirmOrderPipe => OrderConfirmation.PIPE_NAME
    case CancelOrderPipe(_) => OrderCancellation.PIPE_NAME
    case CompleteOrderPipe => OrderCompletion.PIPE_NAME
    case ReinitPaymentSessionPipe => PaymentSessionReinit.PIPE_NAME
  }

  /** The allowed statuses of an order pipe, as `get_allowed_statuses` returns them. */
  function AllowedStatuses(k: PipeKind): seq<Status>
    requires !k.SimplePipe?
  {
    match k
    case CheckingExistsDocumentsPipe => ExistsDocumentsCheck.ALLOWED_STATUSES
    case VerifyDocumentsPipe => DocumentsVerification.ALLOWED_STATUSES
    case ConfirmOrderPipe => OrderConfirmation.ALLOWED_STATUSES
    case CancelOrderPipe(_) => OrderCancellation.ALLOWED_STATUSES
    case CompleteOrderPipe => OrderCompletion.ALLOWED_STATUSES
    case ReinitPaymentSessionPipe => PaymentSessionReinit.ALLOWED_STATUSES
  }

  /** The effect of one pipe's invoke, by its class. */
  function StepEffect(p: Pipe, dto: PipeOrderDTO, status: Status, o: Oracle): PipeEffect
  {
    match p.kind
    case SimplePipe(a) => SimplePipes.Effect(p, a)
    case CheckingExistsDocumentsPipe => ExistsDocumentsCheck.Effect(p, dto, status)
    case VerifyDocumentsPipe => DocumentsVerification.Effect(p, dto, status, o.verification)
    case ConfirmOrderPipe => OrderConfirmation.Effect(p, dto, status, o.gateway)
    case CancelOrderPipe(sender) => OrderCancellation.Effect(p, sender, dto, status, o.gateway)
    case CompleteOrderPipe => OrderCompletion.Effect(p, dto, status)
    case ReinitPaymentSessionPipe =>
      PaymentSessionReinit.Effect(p, dto, status, PaymentSessionReinit.InitService(dto.order.pk, o), o.now)
  }

  /**
   * The status guard every order pipe starts with: outside its allowed
   * statuses it raises InvalidOrderStatusPipeException, carrying the order
   * and the pipe, and does nothing else.
   */
  lemma GuardRefusesOutsideAllowed(p: Pipe, dto: PipeOrderDTO, status: Status, o: Oracle)
    requires !p.kind.SimplePipe? && status !in AllowedStatuses(p.kind)
    ensures var e := StepEffect(p, dto, status, o);
      && e.trace == [] && e.stored == None && !e.forwards
      && e.outcome == Raised(InvalidOrderStatus(dto.order, p, InvalidStatusMessage(dto.order.pk, status, AllowedStatuses(p.kind))))
  {
    match p.kind
    case CancelOrderPipe(_) =>
      assert !OrderCancellation.IsValidStatus(status);
    case _ =>
  }

  /** One pipe's invoke, dispatched on its class. */
  method Step(p: Pipe, dto: PipeOrderDTO, db: Db, o: Oracle) returns (outcome: PipeOutcome, callsNext: bool)
    modifies p`result, dto.order`status, db`trace, db`sessions
    ensures Performed(StepEffect(p, dto, old(dto.order.status), o), p, dto, db, outcome, callsNext)
  {
    match p.kind
    case SimplePipe(_) => outcome, callsNext := SimplePipes.Invoke(p, dto, db);
    case CheckingExistsDocumentsPipe => outcome, callsNext := ExistsDocumentsCheck.Invoke(p, dto, db);
    case VerifyDocumentsPipe => outcome, callsNext := DocumentsVerification.Invoke(p, dto, db, o.verification);
    case ConfirmOrderPipe => outcome, callsNext := OrderConfirmation.Invoke(p, dto, db, o.gateway);
    case CancelOrderPipe(_) => outcome, callsNext := OrderCancellation.Invoke(p, dto, db, o.gateway);
    case CompleteOrderPipe => outcome, callsNext := OrderCompletion.Invoke(p, dto, db);
    case ReinitPaymentSessionPipe =>
      outcome, callsNext := PaymentSessionReinit.Invoke(p, dto, db, PaymentSessionReinit.InitService(dto.order.pk, o), o.now);
  }

  /** `Step`, stated through the step function of the chain. */
  method ChainStep(p: Pipe, dto: PipeOrderDTO, db: Db, o: Oracle) returns (outcome: PipeOutcome, callsNext: bool)
    modifies p`result, dto.order`status, db`trace, db`sessions
    ensures Performed(Steps(o)(p, dto, old(dto.order.status)), p, dto, db, outcome, callsNext)
  {
    outcome, callsNext := Step(p, dto, db, o);
  }

  /**
   * What running a chain did: the record it left, the exception that
   * stopped it (or none), and whether every pipe handed on, so that the
   * chain's own `next` would be called.
   */
  datatype ChainRun = ChainRun(trace: seq<Event>, outcome: PipeOutcome, handsOver: bool)

  /** How one pipe acts on the data and the order's current status. */
  type StepFunction = (Pipe, PipeOrderDTO, Status) -> PipeEffect

  /** The pipes' invokes, with the outside world `o`. */
  function Steps(o: Oracle): StepFunction
  {
    (p: Pipe, dto: PipeOrderDTO, status: Status) => StepEffect(p, dto, status, o)
  }

  /** Running the pipes `ps` in turn on the same data, starting from status `status`. */
  function RunChain(ps: seq<Pipe>, dto: PipeOrderDTO, status: Status, step: StepFunction): (r: ChainRun)
    decreases |ps|
  {
    if ps == [] then ChainRun([], Finished, true)
    else
      var e := step(ps[0], dto, status);
      if !e.forwards then ChainRun(e.trace, e.outcome, false)
      else
        var rest := RunChain(ps[1..], dto, LastStatus(status, e.trace), step);
        ChainRun(e.trace + rest.trace, rest.outcome, rest.handsOver)
  }

  /** The pipeline, with its pipes in the order they were added and its terminator. */
  class Pipeline {
    var pipes: seq<Pipe>
    const terminate: Pipe

    /**
     * What `pipe` maintains: the pipes are distinct and not the
     * terminator, each one's next is the one added after it, the last
     * one's is the terminator, and the terminator does nothing.
     */
    ghost predicate Wired()
      reads this`pipes, pipes`next
    {
      && terminate.kind == SimplePipe(NoAction)
      && terminate !in pipes
      && (forall i, j :: 0 <= i < j < |pipes| ==> pipes[i] != pipes[j])
      && (forall i :: 0 <= i < |pipes| - 1 ==> pipes[i].next == pipes[i + 1])
      && (|pipes| > 0 ==> pipes[|pipes| - 1].next == terminate)
    }

    constructor ()
      ensures pipes == [] && fresh(terminate) && terminate.next == null && terminate.result == None
      ensures Wired()
    {
      pipes := [];
      terminate := new Pipe(SimplePipe(NoAction));
    }

    /**
     * `pipe`: the new pipe goes last and points at the terminator; the
     * previous last pipe now points at it; nothing else is rewired. The
     * pipeline itself is returned.
     */
    method Pipe(newPipe: PipeCore.Pipe) returns (self: Pipeline)
      requires Wired() && newPipe !in pipes && newPipe != terminate
      modifies this`pipes, newPipe`next, pipes`next
      ensures self == this
      ensures pipes == old(pipes) + [newPipe]
      ensures newPipe.next == terminate
      ensures |old(pipes)| > 0 ==> old(pipes)[|old(pipes)| - 1].next == newPipe
      ensures forall i :: 0 <= i < |old(pipes)| - 1 ==> pipes[i].next == old(pipes[i].next)
      ensures Wired()
    {
      newPipe.SetNext(terminate);
      if |pipes| > 0 {
        pipes[|pipes| - 1].SetNext(newPipe);
      }
      pipes := pipes + [newPipe];
      self := this;
    }

    /** `set_next`: what follows this pipeline hangs off its terminator; the pipes are untouched. */
    method SetNext(nextPipe: PipeCore.Pipe)
      requires Wired()
      modifies terminate`next
      ensures terminate.next == nextPipe
      ensures Wired()
    {
      terminate.SetNext(nextPipe);
    }

    /** All the pipes a run can reach: the added ones, then the terminator. */
    ghost function Chain(): seq<PipeCore.Pipe>
      reads this
    {
      pipes + [terminate]
    }

    /**
     * `invoke`: the first pipe (the terminator when there is none) is run,
     * then each pipe's `next` while the pipes hand on. The record, the
     * order's status, the sessions and the outcome are those of running
     * the chain; `handsOver` says the terminator would call the pipe set by
     * `set_next`.
     */
    method Invoke(dto: PipeOrderDTO, db: Db, o: Oracle) returns (outcome: PipeOutcome, handsOver: bool)
      requires Wired()
      modifies pipes`result, terminate`result, dto.order`status, db`trace, db`sessions
      ensures var run := RunChain(old(Chain()), dto, old(dto.order.status), Steps(o));
        && db.trace == old(db.trace) + run.trace
        && dto.order.status == LastStatus(old(dto.order.status), run.trace)
        && db.sessions == ApplySessions(old(db.sessions), run.trace)
        && outcome == run.outcome
        && handsOver == (run.handsOver && terminate.next != null)
      ensures Wired()
    {
      outcome, handsOver := Walk(dto, db, o);
    }

    /**
     * The invokes `invoke` sets off: the current pipe runs, and while it
     * hands on, its `next` runs after it, up to the terminator.
     */
    method Walk(dto: PipeOrderDTO, db: Db, o: Oracle) returns (outcome: PipeOutcome, handsOver: bool)
      requires Wired()
      modifies pipes`result, terminate`result, dto.order`status, db`trace, db`sessions
      ensures var run := RunChain(old(Chain()), dto, old(dto.order.status), Steps(o));
        && db.trace == old(db.trace) + run.trace
        && dto.order.status == LastStatus(old(dto.order.status), run.trace)
        && db.sessions == ApplySessions(old(db.sessions), run.trace)
        && outcome == run.outcome
        && handsOver == (run.handsOver && terminate.next != null)
    {
      ghost var all := Chain();
      ghost var s0 := dto.order.status;
      ghost var m0 := db.sessions;
      ghost var t0 := db.trace;
      ghost var done: seq<Event> := [];
      var cur := if |pipes| > 0 then pipes[0] else terminate;
      ghost var i := 0;
      var going := true;
      outcome, handsOver := Finished, false;
      while going && cur != terminate
        invariant 0 <= i < |all| && cur == all[i]
        invariant db.trace == t0 + done
        invariant dto.order.status == LastStatus(s0, done)
        invariant db.sessions == ApplySessions(m0, done)
        invariant going ==> RunChain(all, dto, s0, Steps(o)) == Then(done, RunChain(all[i..], dto, LastStatus(s0, done), Steps(o)))
        invariant !going ==> RunChain(all, dto, s0, Steps(o)) == ChainRun(done, outcome, false)
        decreases |all| - i, going
      {
        assert i < |pipes| && cur == pipes[i] && cur.next == all[i + 1];
        var callsNext;
        ghost var e;
        outcome, callsNext, done, e := RunAt(cur, dto, db, o, all, i, s0, m0, t0, done);
        if !callsNext {
          going := false;
        } else {
          cur := cur.next;
          i := i + 1;
        }
      }
      if going {
        assert i == |all| - 1;
        ghost var e;
        outcome, handsOver, done, e := RunAt(cur, dto, db, o, all, i, s0, m0, t0, done);
      }
    }
  }

  /**
   * One pipe's invoke inside a run of the chain `all`, as its `i`-th
   * pipe, after the record `done`: the run so far grows by that pipe's
   * effect.
   */
  method RunAt(cur: Pipe, dto: PipeOrderDTO, db: Db, o: Oracle, ghost all: seq<Pipe>, ghost i: nat,
               ghost s0: Status, ghost m0: map<string, TinkoffPaymentData>, ghost t0: seq<Event>, ghost done: seq<Event>)
    returns (outcome: PipeOutcome, callsNext: bool, ghost done': seq<Event>, ghost e: PipeEffect)
    requires i < |all| && cur == all[i]
    requires db.trace == t0 + done && dto.order.status == LastStatus(s0, done) && db.sessions == ApplySessions(m0, done)
    requires RunChain(all, dto, s0, Steps(o)) == Then(done, RunChain(all[i..], dto, LastStatus(s0, done), Steps(o)))
    modifies cur`result, dto.order`status, db`trace, db`sessions
    ensures e == Steps(o)(cur, dto, old(dto.order.status)) && done' == done + e.trace
    ensures db.trace == t0 + done' && dto.order.status == LastStatus(s0, done') && db.sessions == ApplySessions(m0, done')
    ensures outcome == e.outcome && callsNext == (e.forwards && cur.next != null)
    ensures !e.forwards ==> RunChain(all, dto, s0, Steps(o)) == ChainRun(done', outcome, false)
    ensures e.forwards && i == |all| - 1 ==> RunChain(all, dto, s0, Steps(o)) == ChainRun(done', Finished, true)
    ensures e.forwards && i < |all| - 1 ==>
      RunChain(all, dto, s0, Steps(o)) == Then(done', RunChain(all[i + 1..], dto, LastStatus(s0, done'), Steps(o)))
  {
    e := Steps(o)(cur, dto, dto.order.status);
    ghost var traceBefore := db.trace;
    outcome, callsNext := ChainStep(cur, dto, db, o);
    assert db.trace == traceBefore + e.trace;
    LastStatusConcat(s0, done, e.trace);
    ApplySessionsConcat(m0, done, e.trace);
    ChainAdvance(all, i, dto, s0, done, Steps(o));
    AppendAssociates(t0, done, e.trace);
    done' := done + e.trace;
  }

  /** How a run moves over the `i`-th pipe of the chain, after the record `done`. */
  lemma ChainAdvance(all: seq<Pipe>, i: nat, dto: PipeOrderDTO, s0: Status, done: seq<Event>, step: StepFunction)
    requires i < |all|
    requires RunChain(all, dto, s0, step) == Then(done, RunChain(all[i..], dto, LastStatus(s0, done), step))
    ensures var e := step(all[i], dto, LastStatus(s0, done));
      && (!e.forwards ==> RunChain(all, dto, s0, step) == ChainRun(done + e.trace, e.outcome, false))
      && (e.forwards && i == |all| - 1 ==> RunChain(all, dto, s0, step) == ChainRun(done + e.trace, Finished, true))
      && (e.forwards && i < |all| - 1 ==>
            RunChain(all, dto, s0, step) == Then(done + e.trace, RunChain(all[i + 1..], dto, LastStatus(LastStatus(s0, done), e.trace), step)))
  {
    var e := step(all[i], dto, LastStatus(s0, done));
    assert all[i..][0] == all[i] && all[i..][1..] == all[i + 1..];
    if e.forwards && i == |all| - 1 {
      assert all[i + 1..] == [];
      assert e.trace + [] == e.trace;
    }
  }

  /** A run of the rest of the chain, after the record `t`. */
  function Then(t: seq<Event>, r: ChainRun): ChainRun
  {
    ChainRun(t + r.trace, r.outcome, r.handsOver)
  }

  /**
   * The terminator adds nothing to a run: it records nothing, raises
   * nothing and hands on, so a chain ending in it runs as its pipes do.
   */
  lemma {:induction false} TerminatorAddsNothing(ps: seq<Pipe>, t: Pipe, dto: PipeOrderDTO, status: Status, step: StepFunction)
    requires forall s: Status :: step(t, dto, s) == SimplePipes.Effect(t, NoAction)
    ensures RunChain(ps + [t], dto, status, step) == RunChain(ps, dto, status, step)
    decreases |ps|
  {
    if ps == [] {
      assert [] + [t] == [t] && [t][1..] == [];
    } else {
      assert (ps + [t])[0] == ps[0] && (ps + [t])[1..] == ps[1..] + [t];
      var e := step(ps[0], dto, status);
      if e.forwards {
        TerminatorAddsNothing(ps[1..], t, dto, LastStatus(status, e.trace), step);
      }
    }
  }

  /** With the pipes' own invokes, the terminator of a pipeline adds nothing to its run. */
  lemma TerminatedRun(ps: seq<Pipe>, t: Pipe, dto: PipeOrderDTO, status: Status, o: Oracle)
    requires t.kind == SimplePipe(NoAction)
    ensures RunChain(ps + [t], dto, status, Steps(o)) == RunChain(ps, dto, status, Steps(o))
  {
    TerminatorAddsNothing(ps, t, dto, status, Steps(o));
  }

  /** A pipeline with no pipes runs only its terminator: nothing is recorded and the run hands on. */
  lemma EmptyPipelineRunsTerminator(t: Pipe, dto: PipeOrderDTO, status: Status, o: Oracle)
    requires t.kind == SimplePipe(NoAction)
    ensures RunChain([t], dto, status, Steps(o)) == ChainRun([], Finished, true)
  {
    TerminatedRun([], t, dto, status, o);
    assert [] + [t] == [t];
  }

  /** The step of a checking pipe is checking's effect. */
  lemma CheckingStep(p: Pipe, dto: PipeOrderDTO, status: Status, o: Oracle)
    requires p.kind == CheckingExistsDocumentsPipe
    ensures Steps(o)(p, dto, status) == ExistsDocumentsCheck.Effect(p, dto, status)
  {
  }

  /** The step of a verification pipe is verification's effect, with the oracle's verification. */
  lemma VerificationStep(p: Pipe, dto: PipeOrderDTO, status: Status, o: Oracle)
    requires p.kind == VerifyDocumentsPipe
    ensures Steps(o)(p, dto, status) == DocumentsVerification.Effect(p, dto, status, o.verification)
  {
  }

  /** The step of a confirmation pipe is confirmation's effect, with the oracle's gateway. */
  lemma ConfirmationStep(p: Pipe, dto: PipeOrderDTO, status: Status, o: Oracle)
    requires p.kind == ConfirmOrderPipe
    ensures Steps(o)(p, dto, status) == OrderConfirmation.Effect(p, dto, status, o.gateway)
  {
  }
}
