/**
 * `SimplePipe` (utils/pipelines/simple_pipe.py): a pipe that runs an action
 * and then hands the same data to its `next`, if one is set. An action
 * that raises is wrapped in a PipeProcessException with empty details.
 */
module SimplePipes {
  import opened Wrappers
  import opened Storage
  import opened PipeCore

  /** The effect of `invoke` of a SimplePipe with action `a`. */
  function Effect(p: Pipe, a: PipeAction): (e: PipeEffect)
    ensures e.stored == None
    ensures e.forwards <==> !a.RaisingAction?
    ensures e.outcome.Finished? <==> e.forwards
    ensures a.RaisingAction? ==> e.trace == [] && e.outcome == Raised(PipeProcess(p, ProcessMessage("SimplePipe", "")))
    ensures a.RecordedAction? ==> e.trace == [ActionRan(a.actionId)]
    ensures a.NoAction? ==> e.trace == []
  {
    match a
    case NoAction => PipeEffect([], Finished, None, true)
    case RecordedAction(id) => PipeEffect([ActionRan(id)], Finished, None, true)
    case RaisingAction => PipeEffect([], Raised(PipeProcess(p, ProcessMessage("SimplePipe", ""))), None, false)
  }

  /** `SimplePipe.invoke`: the action runs first; the next pipe is called only when it completed. */
  method Invoke(p: Pipe, dto: PipeOrderDTO, db: Db) returns (outcome: PipeOutcome, callsNext: bool)
    requires p.kind.SimplePipe?
    modifies db`trace
    ensures Performed(Effect(p, p.kind.action), p, dto, db, outcome, callsNext)
  {
    match p.kind.action
    case NoAction =>
      outcome, callsNext := Finished, p.next != null;
    case RecordedAction(id) =>
      db.Record(ActionRan(id));
      ApplySessionsUntouched(db.sessions, [ActionRan(id)]);
      outcome, callsNext := Finished, p.next != null;
    case RaisingAction =>
      outcome, callsNext := Raised(PipeProcess(p, ProcessMessage("SimplePipe", ""))), false;
  }

}
