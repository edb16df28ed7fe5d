/** The idempotent mutation ledger (src/state.rs). */
module Ledger {
  import opened Bytes
  import opened Tasks
  import opened Database
  import opened EventLog
  import opened Work
  import opened WorkInvariants
  import opened Inboxes

  // ----- Mutations and their identity -----

  datatype Command =
    | CreateCommand(create: CreateInput)
    | ClaimCommand(claim: ClaimInput)
    | TransitionCommand(move: TransitionInput)
    | SendCommand(send: SendInput)
    | AcknowledgeCommand(acknowledge: AcknowledgeInput)
  {
    function Id(): OperationId {
      match this
      case CreateCommand(c) => c.operation
      case ClaimCommand(c) => c.operation
      case TransitionCommand(c) => c.operation
      case SendCommand(c) => c.operation
      case AcknowledgeCommand(c) => c.operation
    }

    function Run(): RunId {
      match this
      case CreateCommand(c) => c.run
      case ClaimCommand(c) => c.run
      case TransitionCommand(c) => c.run
      case SendCommand(c) => c.run
      case AcknowledgeCommand(c) => c.run
    }

    function Actor(): Option<AgentId> {
      match this
      case CreateCommand(c) => c.actor
      case ClaimCommand(c) => c.actor
      case TransitionCommand(c) => c.actor
      case SendCommand(c) => c.actor
      case AcknowledgeCommand(c) => Some(c.agent)
    }

    function Kind(): Kind {
      match this
      case CreateCommand(_) => CreateKind
      case ClaimCommand(_) => ClaimKind
      case TransitionCommand(c) => TransitionKind(c.transition)
      case SendCommand(_) => SendKind
      case AcknowledgeCommand(_) => AcknowledgeKind
    }

    /** Retries may draw fresh task, assignment and time values, so these are no part of the request. */
    function Request(): Request {
      match this
      case CreateCommand(c) => CreateRequest(c.project, c.title, c.dependencies)
      case ClaimCommand(c) => ClaimRequest(c.agent, c.task)
      case TransitionCommand(c) => TransitionRequest(c.task, c.transition, c.Document(), c.summary)
      case SendCommand(c) => SendRequest(c.recipient, c.body)
      case AcknowledgeCommand(c) => AcknowledgeRequest(c.agent, c.through)
    }
  }

  datatype Mutation = Mutation(command: Command, fingerprint: Option<string>)

  datatype Outcome = Applied(response: Response) | Replayed(response: Response)

  predicate SameIdentity(stored: Operation, m: Mutation) {
    && stored.run == m.command.Run() && stored.kind == m.command.Kind() && stored.actor == m.command.Actor()
    && match stored.fingerprint
       case Some(fingerprint) => m.fingerprint == Some(fingerprint)
       case None => stored.request == m.command.Request()
  }

  /** The same kind of command by the same actor in the same run. */
  predicate SameCaller(a: Command, b: Command) {
    match (a, b)
    case (CreateCommand(x), CreateCommand(y)) => x.run == y.run && x.actor == y.actor
    case (ClaimCommand(x), ClaimCommand(y)) => x.run == y.run && x.actor == y.actor
    case (TransitionCommand(x), TransitionCommand(y)) =>
      x.run == y.run && x.actor == y.actor && x.transition == y.transition
    case (SendCommand(x), SendCommand(y)) => x.run == y.run && x.actor == y.actor
    case (AcknowledgeCommand(x), AcknowledgeCommand(y)) => x.run == y.run && x.agent == y.agent
    case _ => false
  }

  /** The same thing asked for: fresh task and assignment identifiers, and times, may differ. */
  predicate SameIntent(a: Command, b: Command) {
    match (a, b)
    case (CreateCommand(x), CreateCommand(y)) =>
      x.project == y.project && x.title == y.title && x.dependencies == y.dependencies
    case (ClaimCommand(x), ClaimCommand(y)) => x.agent == y.agent && x.task == y.task
    case (TransitionCommand(x), TransitionCommand(y)) =>
      x.task == y.task && x.transition == y.transition && x.summary == y.summary && SameResult(x, y)
    case (SendCommand(x), SendCommand(y)) => x.recipient == y.recipient && x.body == y.body
    case (AcknowledgeCommand(x), AcknowledgeCommand(y)) => x.agent == y.agent && x.through == y.through
    case _ => false
  }

  /** The same result, where evidence counts as part of it and stands on an empty document if there is no other. */
  predicate SameResult(x: TransitionInput, y: TransitionInput) {
    match (x.override, y.override)
    case (None, None) => x.result == y.result
    case (Some(e), Some(f)) => e == f && BodyOf(x) == BodyOf(y)
    case (Some(e), None) => y.result == Some(Document(BodyOf(x), Some(e)))
    case (None, Some(f)) => x.result == Some(Document(BodyOf(y), Some(f)))
  }

  function BodyOf(input: TransitionInput): string {
    match input.result
    case Some(document) => document.body
    case None => "{}"
  }

  /** Another call repeats a call: by its fingerprint if it carried one, and by what it asked for otherwise. */
  predicate Repeats(m: Mutation, again: Mutation) {
    && SameCaller(m.command, again.command)
    && match m.fingerprint
       case Some(fingerprint) => again.fingerprint == Some(fingerprint)
       case None => SameIntent(m.command, again.command)
  }

  /** Two requests are recorded as equal exactly when the callers and what they ask for are the same. */
  lemma RequestsAreIntents(a: Command, b: Command)
    requires a.Kind() == b.Kind()
    ensures a.Request() == b.Request() <==> SameIntent(a, b)
    ensures a.Run() == b.Run() && a.Actor() == b.Actor() <==> SameCaller(a, b)
  {
  }

  /** A row that a call left is matched exactly by the calls that repeat it. */
  lemma RowsMatchRepetitions(m: Mutation, again: Mutation, status: OperationStatus, result: Option<Response>)
    ensures SameIdentity(Intent(m).(status := status, result := result), again) <==> Repeats(m, again)
  {
    if m.command.Kind() == again.command.Kind() {
      RequestsAreIntents(m.command, again.command);
    }
  }

  // ----- Mutating -----

  function Apply(db: Db, command: Command): Result<(Db, Response)> {
    match command
    case CreateCommand(c) => ApplyCreate(db, c)
    case ClaimCommand(c) => ApplyClaim(db, c)
    case TransitionCommand(c) => ApplyTransition(db, c)
    case SendCommand(c) => ApplySend(db, c)
    case AcknowledgeCommand(c) => ApplyAcknowledge(db, c)
  }

  function Intent(m: Mutation): Operation {
    Operation(m.command.Run(), m.command.Kind(), m.command.Actor(), m.command.Request(), m.fingerprint, Pending, None)
  }

  predicate MayInsertOperation(db: Db, m: Mutation) {
    m.command.Run() in db.runs && (m.command.Actor().Some? ==> AgentInRun(db, m.command.Actor().value, m.command.Run()))
  }

  /** What one committed call does; an error leaves the tables as they were. */
  function Mutate(db: Db, m: Mutation): Result<(Db, Outcome)> {
    var id := m.command.Id();
    if id in db.operations then
      var stored := db.operations[id];
      if !SameIdentity(stored, m) then Err(OperationConflict)
      else if stored.status != Succeeded then Err(OperationIncomplete)
      else if stored.result.None? then Err(MissingOperationResult)
      else Ok((db, Replayed(stored.result.value)))
    else if !MayInsertOperation(db, m) then Err(ConstraintViolation)
    else
      var intent := Intent(m);
      match Apply(db.(operations := db.operations[id := intent]), m.command)
      case Err(error) => Err(error)
      case Ok((after, response)) =>
        Ok((after.(operations := after.operations[id := intent.(status := Succeeded, result := Some(response))]),
            Applied(response)))
  }

  function Committed<T>(db: Db, result: Result<(Db, T)>): Db {
    if result.Ok? then result.value.0 else db
  }

  function OutcomeOf<T>(result: Result<(Db, T)>): Result<T> {
    match result
    case Ok((_, outcome)) => Ok(outcome)
    case Err(error) => Err(error)
  }

  // ----- Crashes and lost responses -----

  /** A call may die before its transaction commits, or after, before its response arrives. */
  datatype Fate = Completes | FailsBeforeCommit | LosesResponse

  function Attempt(db: Db, m: Mutation, fate: Fate): Db {
    if fate == FailsBeforeCommit then db else Committed(db, Mutate(db, m))
  }

  /** What the caller learns, if anything. */
  function Answer(db: Db, m: Mutation, fate: Fate): Option<Result<Outcome>> {
    if fate == Completes then Some(OutcomeOf(Mutate(db, m))) else None
  }

  /** The attempt made the mutation's effect durable. */
  predicate TakesEffect(db: Db, m: Mutation, fate: Fate) {
    fate != FailsBeforeCommit && Mutate(db, m).Ok? && Mutate(db, m).value.1.Applied?
  }

  // ----- The ledger is complete -----

  ghost predicate LedgerComplete(operations: map<OperationId, Operation>) {
    forall id | id in operations :: operations[id].status == Succeeded && operations[id].result.Some?
  }

  /** No operation is ever forgotten or rewritten. */
  ghost predicate LedgerExtends(before: map<OperationId, Operation>, after: map<OperationId, Operation>) {
    forall id | id in before :: id in after && after[id] == before[id]
  }

  /** What a mutation is for never touches the ledger, agents, sessions, credentials or workspaces. */
  lemma ApplyLeavesTheRest(db: Db, command: Command)
    requires Apply(db, command).Ok?
    ensures var after := Apply(db, command).value.0;
            after == db.(tasks := after.tasks, edges := after.edges, claims := after.claims,
                         assignments := after.assignments, inboxes := after.inboxes, events := after.events)
  {
    match command
    case CreateCommand(c) => CreateLeavesTheRest(db, c);
    case ClaimCommand(c) => ClaimOutcome(db, c);
    case TransitionCommand(c) => TransitionLeavesTheRest(db, c);
    case SendCommand(c) => SendLeavesTheRest(db, c);
    case AcknowledgeCommand(c) =>
      if ApplyAcknowledge(db, c).value.1.Acknowledged? {
        AcknowledgementIsLocal(db, c);
      } else {
        RefusedCommandsChangeNothing(db, command);
      }
  }

  lemma CreateLeavesTheRest(db: Db, input: CreateInput)
    requires ApplyCreate(db, input).Ok?
    ensures var after := ApplyCreate(db, input).value.0;
            after == db.(tasks := after.tasks, edges := after.edges, events := after.events)
  {
  }

  lemma SendLeavesTheRest(db: Db, input: SendInput)
    requires ApplySend(db, input).Ok?
    ensures var after := ApplySend(db, input).value.0;
            after == db.(inboxes := after.inboxes, events := after.events)
  {
  }

  lemma TransitionLeavesTheRest(db: Db, input: TransitionInput)
    requires ApplyTransition(db, input).Ok?
    ensures var after := ApplyTransition(db, input).value.0;
            after == db.(tasks := after.tasks, claims := after.claims, assignments := after.assignments,
                         events := after.events)
  {
  }

  /** The tables as a new operation's mutation finds them. */
  function Begun(db: Db, m: Mutation): Db {
    db.(operations := db.operations[m.command.Id() := Intent(m)])
  }

  /** A call that takes effect is its command's effect, with the operation recorded beside it. */
  lemma EffectOfMutation(db: Db, m: Mutation)
    requires Mutate(db, m).Ok? && Mutate(db, m).value.1.Applied?
    ensures m.command.Id() !in db.operations && Apply(Begun(db, m), m.command).Ok?
    ensures var (applied, response) := Apply(Begun(db, m), m.command).value;
            && Mutate(db, m).value.1.response == response
            && Mutate(db, m).value.0 == applied.(operations := Mutate(db, m).value.0.operations)
  {
    hide Apply;
  }

  /** A first call is recorded only for a run in the tables and, where it names an agent, an agent of that run. */
  lemma StrangersAreRefused(db: Db, m: Mutation)
    requires m.command.Id() !in db.operations
    ensures var run, actor := m.command.Run(), m.command.Actor();
            if run in db.runs && (actor.None? || (actor.value in db.agents && db.agents[actor.value].run == run))
            then Mutate(db, m).Ok? <==> Apply(Begun(db, m), m.command).Ok?
            else Mutate(db, m) == Err(ConstraintViolation)
  {
    hide Apply;
  }

  /** Every committed call leaves a complete ledger, and adds at most its own operation to it. */
  lemma MutationCompletesItsOperation(db: Db, m: Mutation)
    requires LedgerComplete(db.operations) && Mutate(db, m).Ok?
    ensures var (after, outcome) := Mutate(db, m).value;
            && LedgerComplete(after.operations) && LedgerExtends(db.operations, after.operations)
            && m.command.Id() in after.operations && SameIdentity(after.operations[m.command.Id()], m)
            && after.operations[m.command.Id()].result == Some(outcome.response)
            && (outcome.Applied? <==> m.command.Id() !in db.operations)
            && (outcome.Replayed? ==> after == db)
            && (outcome.Applied? ==>
                  && after.operations.Keys == db.operations.Keys + {m.command.Id()}
                  && after.operations[m.command.Id()] ==
                       Intent(m).(status := Succeeded, result := Some(outcome.response)))
  {
    hide Apply;
    if m.command.Id() !in db.operations {
      ApplyLeavesTheRest(db.(operations := db.operations[m.command.Id() := Intent(m)]), m.command);
    }
  }

  /**
   * Once an operation is in the ledger, however much later, a call with its identity gets the stored
   * result and changes nothing, and any other call under its ID is refused and changes nothing.
   */
  lemma LaterCallsReplay(db: Db, after: Db, m: Mutation)
    requires LedgerComplete(db.operations) && LedgerExtends(db.operations, after.operations)
    requires m.command.Id() in db.operations
    ensures var stored := db.operations[m.command.Id()];
            Mutate(after, m) ==
              if SameIdentity(stored, m) then Ok((after, Replayed(stored.result.value))) else Err(OperationConflict)
  {
  }

  // ----- Events are signed by the call that appends them -----

  /** All that is new in the logs is in this run's, under this actor and operation. */
  ghost predicate SignedBy(db: Db, after: Db, run: RunId, actor: Option<AgentId>, operation: OperationId) {
    && (forall r | r != run :: LogOf(after, r) == LogOf(db, r))
    && LogOf(db, run) <= LogOf(after, run)
    && forall k | |LogOf(db, run)| <= k < |LogOf(after, run)| ::
         LogOf(after, run)[k].actor == actor && LogOf(after, run)[k].operation == operation
  }

  lemma AppendIsSigned(db: Db, now: Db, run: RunId, actor: Option<AgentId>, operation: OperationId, body: EventBody)
    requires SignedBy(db, now, run, actor, operation)
    ensures SignedBy(db, Append(now, run, actor, operation, body), run, actor, operation)
  {
  }

  lemma SameLogsAreSigned(db: Db, now: Db, after: Db, run: RunId, actor: Option<AgentId>, operation: OperationId)
    requires SignedBy(db, now, run, actor, operation) && after.events == now.events
    ensures SignedBy(db, after, run, actor, operation)
  {
  }

  lemma ClaimIsSigned(db: Db, input: ClaimInput)
    requires ApplyClaim(db, input).Ok?
    ensures SignedBy(db, ApplyClaim(db, input).value.0, input.run, input.actor, input.operation)
  {
    hide SignedBy, RejectionOf, Append, AgentBusyIn, ActiveClaim, Unresolved, AssignmentExists;
    SameLogsAreSignedFromTheStart(db, db, input.run, input.actor, input.operation);
    if ApplyClaim(db, input).value.1.Claimed? {
      var claim, generation := |db.claims| + 1, db.agents[input.agent].generation;
      var db1 := WithClaim(db, input);
      SameLogsAreSignedFromTheStart(db, db1, input.run, input.actor, input.operation);
      var changed := TaskChanged(input.task, Open, InProgress, None);
      AppendIsSigned(db, db1, input.run, input.actor, input.operation, changed);
      var db2 := Append(db1, input.run, input.actor, input.operation, changed);
      var claimed := TaskClaimed(input.task, input.assignment, claim);
      AppendIsSigned(db, db2, input.run, input.actor, input.operation, claimed);
      var db3 := Append(db2, input.run, input.actor, input.operation, claimed);
      AppendIsSigned(db, db3, input.run, input.actor, input.operation, AssignmentCreated(input.assignment, claim, generation));
    }
  }

  lemma SameLogsAreSignedFromTheStart(db: Db, after: Db, run: RunId, actor: Option<AgentId>, operation: OperationId)
    requires after.events == db.events
    ensures SignedBy(db, after, run, actor, operation)
  {
  }

  lemma ReleaseLeavesTasksAndLogs(db: Db, input: TransitionInput)
    requires ReleaseOwnership(db, input).Ok?
    ensures ReleaseOwnership(db, input).value.events == db.events
    ensures ReleaseOwnership(db, input).value.tasks == db.tasks
  {
  }

  lemma TransitionIsSigned(db: Db, input: TransitionInput)
    requires ApplyTransition(db, input).Ok?
    ensures SignedBy(db, ApplyTransition(db, input).value.0, input.run, input.actor, input.operation)
  {
    hide SignedBy, OverrideAccepted, AwaitsIntegration, ReleaseOwnership, Append, ActiveClaim;
    SameLogsAreSignedFromTheStart(db, db, input.run, input.actor, input.operation);
    if TransitionVerdict(db, input).Transitioned? {
      var previous, next := db.tasks[input.task].status, db.tasks[input.task].status.Transition(input.transition).value;
      var released := if previous == InProgress then ReleaseOwnership(db, input) else Ok(db);
      if previous == InProgress {
        ReleaseLeavesTasksAndLogs(db, input);
      }
      var db1 := WithStatus(released.value, input, next);
      SameLogsAreSignedFromTheStart(db, db1, input.run, input.actor, input.operation);
      var changed := TaskChanged(input.task, previous, next, input.override);
      AppendIsSigned(db, db1, input.run, input.actor, input.operation, changed);
      if previous == InProgress {
        var db2 := Append(db1, input.run, input.actor, input.operation, changed);
        var assignment, claim := ActiveAssignment(db, input.run, input.task), ActiveClaim(db, input.run, input.task);
        var ended := db.assignments[assignment.value];
        var left := AssignmentChanged(ended.id, ended.state, ReleasedState(input.transition).value);
        AppendIsSigned(db, db2, input.run, input.actor, input.operation, left);
        var db3 := Append(db2, input.run, input.actor, input.operation, left);
        AppendIsSigned(db, db3, input.run, input.actor, input.operation, ClaimReleased(input.task, claim.value + 1));
      }
    }
  }

  /** A call appends events to its own run only, and each carries the call's operation and actor. */
  lemma EventsNameTheirCall(db: Db, m: Mutation)
    requires Mutate(db, m).Ok?
    ensures SignedBy(db, Mutate(db, m).value.0, m.command.Run(), m.command.Actor(), m.command.Id())
  {
    hide SignedBy, ApplyClaim, ApplyTransition, ApplyCreate, ApplySend, ApplyAcknowledge;
    SameLogsAreSignedFromTheStart(db, db, m.command.Run(), m.command.Actor(), m.command.Id());
    if m.command.Id() !in db.operations {
      var begun := Begun(db, m);
      CommandsAreSigned(begun, m.command);
      var applied := Apply(begun, m.command).value.0;
      SameLogsAreSignedAcross(db, begun, applied, Mutate(db, m).value.0, m.command.Run(), m.command.Actor(), m.command.Id());
    }
  }

  lemma SameLogsAreSignedAcross(
      db: Db, begun: Db, applied: Db, after: Db, run: RunId, actor: Option<AgentId>, operation: OperationId)
    requires SignedBy(begun, applied, run, actor, operation) && begun.events == db.events && after.events == applied.events
    ensures SignedBy(db, after, run, actor, operation)
  {
    assert forall r :: LogOf(after, r) == LogOf(applied, r) && LogOf(begun, r) == LogOf(db, r);
  }

  lemma CommandsAreSigned(db: Db, command: Command)
    requires Apply(db, command).Ok?
    ensures SignedBy(db, Apply(db, command).value.0, command.Run(), command.Actor(), command.Id())
  {
    hide SignedBy, ApplyClaim, ApplyTransition, ApplyCreate, ApplySend, ApplyAcknowledge;
    match command
    case CreateCommand(c) => CreateIsSigned(db, c);
    case ClaimCommand(c) => ClaimIsSigned(db, c);
    case TransitionCommand(c) => TransitionIsSigned(db, c);
    case SendCommand(c) => SendIsSigned(db, c);
    case AcknowledgeCommand(c) => AcknowledgementIsSigned(db, c);
  }

  lemma CreateIsSigned(db: Db, input: CreateInput)
    requires ApplyCreate(db, input).Ok?
    ensures SignedBy(db, ApplyCreate(db, input).value.0, input.run, input.actor, input.operation)
  {
  }

  lemma SendIsSigned(db: Db, input: SendInput)
    requires ApplySend(db, input).Ok?
    ensures SignedBy(db, ApplySend(db, input).value.0, input.run, input.actor, input.operation)
  {
  }

  lemma AcknowledgementIsSigned(db: Db, input: AcknowledgeInput)
    requires ApplyAcknowledge(db, input).Ok?
    ensures SignedBy(db, ApplyAcknowledge(db, input).value.0, input.run, Some(input.agent), input.operation)
  {
    hide ApplyAcknowledge;
    RefusedCursorsChangeNothing(db, input);
    if ApplyAcknowledge(db, input).value.1.Acknowledged? {
      AcknowledgementIsLocal(db, input);
    }
  }

  /** The two errors for unfinished ledger rows never fire. */
  lemma LedgerErrorsNeverFire(db: Db, m: Mutation)
    requires LedgerComplete(db.operations)
    ensures Mutate(db, m) != Err(OperationIncomplete) && Mutate(db, m) != Err(MissingOperationResult)
  {
    if m.command.Id() !in db.operations {
      ApplyNeverBlamesTheLedger(db.(operations := db.operations[m.command.Id() := Intent(m)]), m.command);
    }
  }

  lemma ApplyNeverBlamesTheLedger(db: Db, command: Command)
    ensures Apply(db, command) != Err(OperationIncomplete) && Apply(db, command) != Err(MissingOperationResult)
  {
    match command
    case CreateCommand(_) =>
    case ClaimCommand(_) =>
    case TransitionCommand(_) =>
    case SendCommand(_) =>
    case AcknowledgeCommand(_) =>
  }

  predicate IsRefusal(response: Response) {
    response.ClaimRefused? || response.TransitionRefused? || response.CursorNotFound?
  }

  /** Replays and errors change no table; a refusal records its operation and nothing else. */
  lemma RefusalsChangeNothing(db: Db, m: Mutation)
    requires Mutate(db, m).Ok? ==> Mutate(db, m).value.1.Replayed? || IsRefusal(Mutate(db, m).value.1.response)
    ensures var after := Committed(db, Mutate(db, m));
            && after == db.(operations := after.operations)
            && (Mutate(db, m).Err? || Mutate(db, m).value.1.Replayed? ==> after == db)
  {
    var begun := db.(operations := db.operations[m.command.Id() := Intent(m)]);
    if m.command.Id() !in db.operations && Apply(begun, m.command).Ok? {
      RefusedCommandsChangeNothing(begun, m.command);
    }
  }

  lemma RefusedCommandsChangeNothing(db: Db, command: Command)
    requires Apply(db, command).Ok?
    ensures IsRefusal(Apply(db, command).value.1) ==> Apply(db, command).value.0 == db
  {
    match command
    case CreateCommand(_) =>
    case ClaimCommand(c) => ClaimOutcome(db, c);
    case TransitionCommand(c) => RefusedTransitionsChangeNothing(db, c);
    case SendCommand(_) =>
    case AcknowledgeCommand(c) => RefusedCursorsChangeNothing(db, c);
  }

  lemma RefusedTransitionsChangeNothing(db: Db, input: TransitionInput)
    requires ApplyTransition(db, input).Ok?
    ensures IsRefusal(ApplyTransition(db, input).value.1) ==> ApplyTransition(db, input).value.0 == db
  {
    hide ReleaseOwnership, OverrideAccepted, AwaitsIntegration, Append, WithStatus;
  }

  lemma RefusedCursorsChangeNothing(db: Db, input: AcknowledgeInput)
    requires ApplyAcknowledge(db, input).Ok?
    ensures IsRefusal(ApplyAcknowledge(db, input).value.1) ==> ApplyAcknowledge(db, input).value.0 == db
    ensures IsRefusal(ApplyAcknowledge(db, input).value.1) || ApplyAcknowledge(db, input).value.1.Acknowledged?
  {
    hide Append, Cursor;
  }
}
