/** The append-only event stream of a run, and what folding it tells about the tables (src/state.rs). */
module EventLog {
  import opened Bytes
  import opened Tables
  import opened Tasks
  import opened Database

  /** Appends one event at the next run-local sequence. */
  function Appended(log: seq<Event>, actor: Option<AgentId>, operation: OperationId, body: EventBody): seq<Event> {
    log + [Event(Highest(log, (e: Event) => e.sequence) + 1, actor, operation, body)]
  }

  function Append(db: Db, run: RunId, actor: Option<AgentId>, operation: OperationId, body: EventBody): Db {
    db.(events := db.events[run := Appended(LogOf(db, run), actor, operation, body)])
  }

  // ----- Folding a log -----

  function StatusIn(log: seq<Event>, task: TaskId): TaskStatus
    decreases |log|
  {
    if log == [] then Open
    else
      match log[|log| - 1].body
      case TaskChanged(t, _, next, _) => if t == task then next else StatusIn(log[..|log| - 1], task)
      case _ => StatusIn(log[..|log| - 1], task)
  }

  function AssignmentIn(log: seq<Event>, assignment: AssignmentId): Option<AssignmentState>
    decreases |log|
  {
    if log == [] then None
    else
      match log[|log| - 1].body
      case AssignmentCreated(a, _, _) => if a == assignment then Some(Active) else AssignmentIn(log[..|log| - 1], assignment)
      case AssignmentChanged(a, _, after) =>
        if a == assignment then Some(after) else AssignmentIn(log[..|log| - 1], assignment)
      case _ => AssignmentIn(log[..|log| - 1], assignment)
  }

  /** Whether a claim is released, once the log knows it. */
  function ClaimIn(log: seq<Event>, claim: nat): Option<bool>
    decreases |log|
  {
    if log == [] then None
    else
      match log[|log| - 1].body
      case TaskClaimed(_, _, c) => if c == claim then Some(false) else ClaimIn(log[..|log| - 1], claim)
      case ClaimReleased(_, c) => if c == claim then Some(true) else ClaimIn(log[..|log| - 1], claim)
      case _ => ClaimIn(log[..|log| - 1], claim)
  }

  /** An event continues the log: the state it says it replaces is the one the log leads to. */
  predicate Continues(log: seq<Event>, body: EventBody) {
    match body
    case TaskChanged(t, previous, next, _) => StatusIn(log, t) == previous && previous.CanTransitionTo(next)
    case AssignmentCreated(a, _, _) => AssignmentIn(log, a).None?
    case AssignmentChanged(a, before, _) => AssignmentIn(log, a) == Some(before)
    case TaskClaimed(_, _, c) => ClaimIn(log, c).None?
    case ClaimReleased(_, c) => ClaimIn(log, c) == Some(false)
    case _ => true
  }

  /** Sequences are 1..n, and every event continues what precedes it. */
  ghost predicate Sound(log: seq<Event>) {
    && Numbered(log, (e: Event) => e.sequence)
    && forall k | 0 <= k < |log| :: Continues(log[..k], log[k].body)
  }

  lemma AppendedKeepsSound(log: seq<Event>, actor: Option<AgentId>, operation: OperationId, body: EventBody)
    requires Sound(log) && Continues(log, body)
    ensures Sound(Appended(log, actor, operation, body))
  {
    HighestOfNumbered(log, (e: Event) => e.sequence);
    var longer := Appended(log, actor, operation, body);
    forall k | 0 <= k < |longer|
      ensures Continues(longer[..k], longer[k].body)
    {
      assert longer[..k] == log[..k];
      assert log[..|log|] == log;
    }
  }

  /** What one more event does to each fold. */
  lemma FoldsAfter(log: seq<Event>, actor: Option<AgentId>, operation: OperationId, body: EventBody)
    ensures var longer := Appended(log, actor, operation, body);
            && (forall t :: StatusIn(longer, t) ==
                 if body.TaskChanged? && body.task == t then body.next else StatusIn(log, t))
            && (forall a :: AssignmentIn(longer, a) ==
                 if body.AssignmentCreated? && body.assignment == a then Some(Active)
                 else if body.AssignmentChanged? && body.assignment == a then Some(body.after)
                 else AssignmentIn(log, a))
            && (forall c :: ClaimIn(longer, c) ==
                 if body.TaskClaimed? && body.claim == c then Some(false)
                 else if body.ClaimReleased? && body.claim == c then Some(true)
                 else ClaimIn(log, c))
  {
    var longer := Appended(log, actor, operation, body);
    assert longer[..|longer| - 1] == log;
  }
}
