/** The task lifecycle and readiness rule (src/tasks.rs). */
module Tasks {
  import opened Bytes

  type TaskId = nat

  datatype TaskTransition = Reopen | Submit | Close | Cancel

  datatype TaskStatus = Open | InProgress | Submitted | Closed | Canceled {
    /** Reports whether the lifecycle permits a move to `next`. */
    predicate CanTransitionTo(next: TaskStatus) {
      match this
      case Open => next == InProgress || next == Canceled
      case InProgress => next == Open || next == Submitted || next == Canceled
      case Submitted => next == Open || next == Closed || next == Canceled
      case _ => false
    }

    /** Applies a lifecycle action that does not create a claim. */
    function Transition(transition: TaskTransition): Option<TaskStatus> {
      match (this, transition)
      case (InProgress, Reopen) => Some(Open)
      case (Submitted, Reopen) => Some(Open)
      case (InProgress, Submit) => Some(Submitted)
      case (Submitted, Close) => Some(Closed)
      case (Open, Cancel) => Some(Canceled)
      case (InProgress, Cancel) => Some(Canceled)
      case (Submitted, Cancel) => Some(Canceled)
      case _ => None
    }
  }

  /** The actions, together with claiming, realize exactly the permitted moves. */
  lemma ActionsRealizeTheLifecycle(from: TaskStatus, to: TaskStatus)
    ensures from.CanTransitionTo(to) <==>
              || (from == Open && to == InProgress)
              || exists action :: from.Transition(action) == Some(to)
  {
    assert from.Transition(Reopen) == Some(to) || from.Transition(Submit) == Some(to)
        || from.Transition(Close) == Some(to) || from.Transition(Cancel) == Some(to)
        || (from == Open && to == InProgress) || !from.CanTransitionTo(to);
  }

  /** The status that each action is named after. */
  function TargetOf(action: TaskTransition): TaskStatus {
    match action
    case Reopen => Open
    case Submit => Submitted
    case Close => Closed
    case Cancel => Canceled
  }

  /** An action leads to the status it is named after whenever the lifecycle permits that move, and nowhere else. */
  lemma ActionsLeadToTheirTargets(from: TaskStatus, action: TaskTransition)
    ensures from.Transition(action) == if from.CanTransitionTo(TargetOf(action)) then Some(TargetOf(action)) else None
  {
  }

  /** The current facts from which a task's readiness is derived. */
  datatype TaskReadiness = TaskReadiness(
    status: TaskStatus, unresolvedDependencies: set<TaskId>, hasActiveClaim: bool)
  {
    predicate IsReady() {
      status == Open && unresolvedDependencies == {} && !hasActiveClaim
    }
  }
}
