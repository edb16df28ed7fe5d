/** One transaction's view of the tables, updated statement by statement (src/state.rs). */
module Repositories {
  import opened Bytes
  import opened Tables
  import opened Lifecycle
  import opened Tasks
  import opened Database
  import opened EventLog
  import opened Work
  import opened Sessions
  import opened Workspaces
  import opened Inboxes
  import opened Ledger

  class Transaction {
    var tables: Db

    constructor (committed: Db)
      ensures tables == committed
    {
      tables := committed;
    }

    // ----- Events -----

    /** Appends one event at the next run-local sequence. */
    method AppendEvent(run: RunId, actor: Option<AgentId>, operation: OperationId, body: EventBody)
      modifies this
      ensures tables == Append(old(tables), run, actor, operation, body)
    {
      var log := LogOf(tables, run);
      var sequence := Highest(log, (e: Event) => e.sequence) + 1;
      tables := tables.(events := tables.events[run := log + [Event(sequence, actor, operation, body)]]);
    }

    // ----- Tasks -----

    /** Creates an open task once every prerequisite is known to be in the run. */
    method CreateTask(input: CreateInput) returns (r: Result<Response>)
      modifies this
      ensures r.Ok? ==> ApplyCreate(old(tables), input) == Ok((tables, r.value))
      ensures r.Err? ==> ApplyCreate(old(tables), input) == Err(r.error)
    {
      var todo := input.dependencies;
      while todo != {}
        invariant tables == old(tables) && todo <= input.dependencies
        invariant forall d | d in input.dependencies - todo :: TaskInRun(tables, d, input.run)
        decreases todo
      {
        var d :| d in todo;
        if !TaskInRun(tables, d, input.run) {
          return Err(CorruptTaskState);
        }
        todo := todo - {d};
      }
      if input.task in tables.tasks || input.run !in tables.runs {
        return Err(ConstraintViolation);
      }
      tables := tables.(tasks := tables.tasks[input.task := Task(input.run, input.project, Open, None)]);
      todo := input.dependencies;
      label inserting:
      while todo != {}
        invariant todo <= input.dependencies
        invariant tables == old@inserting(tables).(edges := old(tables.edges)
                    + set d | d in input.dependencies - todo :: Edge(input.run, input.task, d))
        decreases todo
      {
        var d :| d in todo;
        tables := tables.(edges := tables.edges + {Edge(input.run, input.task, d)});
        todo := todo - {d};
      }
      assert input.dependencies - todo == input.dependencies;
      AppendEvent(input.run, input.actor, input.operation, TaskCreated(input.task));
      r := Ok(CreatedTask(input.task));
    }

    method ClaimRejectionReason(input: ClaimInput) returns (r: ClaimRejection)
      ensures r == RejectionOf(tables, input)
    {
      var claimed := ActiveClaim(tables, input.run, input.task);
      if claimed.Some? {
        return AlreadyClaimed;
      }
      if !TaskInRun(tables, input.task, input.run) {
        return TaskNotFound;
      }
      if tables.tasks[input.task].status != Open {
        return TaskNotOpen;
      }
      if Unresolved(tables, input.run, input.task) != {} {
        return Blocked;
      }
      if AgentBusyIn(tables, input.run, input.agent) {
        return AgentBusy;
      }
      return TaskNotOpen;
    }

    /** Takes an open, unblocked, unclaimed task for an idle agent, or says why not. */
    method CompareAndSetClaim(input: ClaimInput) returns (r: Result<Response>)
      modifies this
      ensures r.Err? ==> ApplyClaim(old(tables), input) == Err(r.error)
      ensures r.Ok? ==> r.value.ClaimRefused? || r.value.Claimed?
      ensures r.Ok? && r.value.ClaimRefused? ==>
                tables == old(tables) && ApplyClaim(old(tables), input) == Ok((tables, r.value))
      ensures r.Ok? && r.value.Claimed? ==>
                && AgentInRun(old(tables), input.agent, input.run) && Claimable(old(tables), input)
                && !AssignmentExists(old(tables), input.assignment)
                && r.value == Claimed(|old(tables.claims)| + 1, input.assignment)
                && tables == WithClaim(old(tables), input)
    {
      if !AgentInRun(tables, input.agent, input.run) {
        return Ok(ClaimRefused(AgentNotFound));
      }
      var generation := tables.agents[input.agent].generation;
      if !Claimable(tables, input) {
        var reason := ClaimRejectionReason(input);
        return Ok(ClaimRefused(reason));
      }
      if AssignmentExists(tables, input.assignment) {
        return Err(ConstraintViolation);
      }
      tables := tables.(tasks := tables.tasks[input.task := tables.tasks[input.task].(status := InProgress)]);
      tables := tables.(claims := tables.claims + [Claim(input.run, input.task, input.agent, input.operation, None)]);
      var claim := |tables.claims|;
      tables := tables.(assignments := tables.assignments + [Assignment(
        input.assignment, input.run, input.task, input.agent, None, claim, generation, Active, None, input.at, None)]);
      r := Ok(Claimed(claim, input.assignment));
    }

    method ClaimTask(input: ClaimInput) returns (r: Result<Response>)
      modifies this
      ensures r.Ok? ==> ApplyClaim(old(tables), input) == Ok((tables, r.value))
      ensures r.Err? ==> ApplyClaim(old(tables), input) == Err(r.error)
    {
      r := CompareAndSetClaim(input);
      if r.Ok? && r.value.Claimed? {
        var claim, generation := r.value.claim, tables.agents[input.agent].generation;
        AppendEvent(input.run, input.actor, input.operation, TaskChanged(input.task, Open, InProgress, None));
        AppendEvent(input.run, input.actor, input.operation, TaskClaimed(input.task, input.assignment, claim));
        AppendEvent(input.run, input.actor, input.operation, AssignmentCreated(input.assignment, claim, generation));
      }
    }

    /** Ends the one assignment and the one claim of an in-progress task. */
    method ReleaseTaskOwnership(input: TransitionInput) returns (r: Result<()>)
      modifies this
      ensures r.Ok? ==> ReleaseOwnership(old(tables), input) == Ok(tables)
      ensures r.Err? ==> ReleaseOwnership(old(tables), input) == Err(r.error)
    {
      var state := ReleasedState(input.transition);
      if state.None? {
        return Err(CorruptTaskState);
      }
      var works := (a: Assignment) => WorksOnTask(a, input.run, input.task);
      var holds := (c: Claim) => ClaimsTask(c, input.run, input.task);
      var assignments, claims := Count(tables.assignments, works), Count(tables.claims, holds);
      tables := tables.(assignments := Update(tables.assignments, works, (a: Assignment) => a.(
        state := state.value,
        summary := if input.summary.Some? then input.summary else a.summary,
        completed := Some(input.at))));
      tables := tables.(claims := Update(tables.claims, holds, (c: Claim) => c.(released := Some(input.at))));
      if assignments != 1 || claims != 1 {
        return Err(CorruptTaskState);
      }
      r := Ok(());
    }

    /** Moves the task, releasing its owner first if it is in progress. */
    method ApplyTaskTransition(input: TransitionInput) returns (r: Result<Response>)
      modifies this
      ensures var verdict := TransitionVerdict(old(tables), input);
              match r
              case Ok(response) =>
                && response == verdict
                && (verdict.TransitionRefused? ==> tables == old(tables))
                && (verdict.Transitioned? && verdict.previous != InProgress ==>
                      tables == WithStatus(old(tables), input, verdict.next))
                && (verdict.Transitioned? && verdict.previous == InProgress ==>
                      var released := ReleaseOwnership(old(tables), input);
                      released.Ok? && tables == WithStatus(released.value, input, verdict.next))
              case Err(error) =>
                && verdict.Transitioned? && verdict.previous == InProgress
                && ReleaseOwnership(old(tables), input) == Err(error)
    {
      var verdict := TransitionVerdict(tables, input);
      if verdict.TransitionRefused? {
        return Ok(verdict);
      }
      if verdict.previous == InProgress {
        var released := ReleaseTaskOwnership(input);
        if released.Err? {
          return Err(released.error);
        }
      }
      var task := tables.tasks[input.task];
      tables := tables.(tasks := tables.tasks[input.task :=
        task.(status := verdict.next, result := ResultAfter(task, input))]);
      r := Ok(verdict);
    }

    method TransitionTask(input: TransitionInput) returns (r: Result<Response>)
      modifies this
      ensures r.Ok? ==> ApplyTransition(old(tables), input) == Ok((tables, r.value))
      ensures r.Err? ==> ApplyTransition(old(tables), input) == Err(r.error)
    {
      hide OverrideAccepted, AwaitsIntegration, ReleaseOwnership, WithStatus;
      var claim := ActiveClaim(tables, input.run, input.task);
      var assignment := ActiveAssignment(tables, input.run, input.task);
      var ended := if assignment.Some? then Some(tables.assignments[assignment.value]) else None;
      r := ApplyTaskTransition(input);
      if r.Ok? && r.value.Transitioned? {
        var previous, next := r.value.previous, r.value.next;
        AppendEvent(input.run, input.actor, input.operation, TaskChanged(input.task, previous, next, input.override));
        if previous == InProgress {
          if ended.None? || claim.None? || ReleasedState(input.transition).None? {
            return Err(CorruptTaskState);
          }
          AppendEvent(input.run, input.actor, input.operation,
                      AssignmentChanged(ended.value.id, ended.value.state, ReleasedState(input.transition).value));
          AppendEvent(input.run, input.actor, input.operation, ClaimReleased(input.task, claim.value + 1));
        }
      }
    }

    // ----- Messages -----

    method SendMessage(input: SendInput) returns (r: Result<Response>)
      modifies this
      ensures r.Ok? ==> ApplySend(old(tables), input) == Ok((tables, r.value))
      ensures r.Err? ==> ApplySend(old(tables), input) == Err(r.error)
    {
      var box := Inbox(tables, input.run, input.recipient);
      var sequence := Highest(box, Sequence()) + 1;
      if !AgentInRun(tables, input.recipient, input.run)
         || (input.actor.Some? && !AgentInRun(tables, input.actor.value, input.run)) {
        return Err(ConstraintViolation);
      }
      tables := tables.(inboxes := tables.inboxes[(input.run, input.recipient) :=
        box + [Message(input.actor, sequence, input.body, input.at, None)]]);
      AppendEvent(input.run, input.actor, input.operation, MessageSent(input.recipient, sequence));
      r := Ok(Sent(sequence));
    }

    method AcknowledgeMessages(input: AcknowledgeInput) returns (r: Result<Response>)
      modifies this
      ensures r.Ok? ==> ApplyAcknowledge(old(tables), input) == Ok((tables, r.value))
      ensures r.Err? ==> ApplyAcknowledge(old(tables), input) == Err(r.error)
    {
      var box := Inbox(tables, input.run, input.agent);
      var highest := Highest(box, Sequence());
      if input.through <= 0 || input.through > highest {
        return Ok(CursorNotFound(highest));
      }
      var previous := Cursor(box);
      var covered := (m: Message) => Covers(input, m);
      if exists m | m in box :: Covers(input, m) && input.at < m.createdAt {
        return Err(ConstraintViolation);
      }
      var count := Count(box, covered);
      tables := tables.(inboxes := tables.inboxes[(input.run, input.agent) :=
        Update(box, covered, (m: Message) => m.(acknowledged := Some(input.at)))]);
      var through := if previous > input.through then previous else input.through;
      if count > 0 {
        AppendEvent(input.run, Some(input.agent), input.operation, MessageAcknowledged(input.agent, count, through));
      }
      r := Ok(Acknowledged(through, count));
    }

    // ----- Any command -----

    method Perform(command: Command) returns (r: Result<Response>)
      modifies this
      ensures r.Ok? ==> Apply(old(tables), command) == Ok((tables, r.value))
      ensures r.Err? ==> Apply(old(tables), command) == Err(r.error)
    {
      match command
      case CreateCommand(c) => r := CreateTask(c);
      case ClaimCommand(c) => r := ClaimTask(c);
      case TransitionCommand(c) => r := TransitionTask(c);
      case SendCommand(c) => r := SendMessage(c);
      case AcknowledgeCommand(c) => r := AcknowledgeMessages(c);
    }

    // ----- Sessions and credentials -----

    method UpdateSessionLifecycle(scope: SessionScope, observed: LifecycleState, at: Time)
      returns (r: Result<SessionOutcome>)
      modifies this
      ensures r.Ok? ==> RecordLifecycle(old(tables), scope, observed, at) == Ok((tables, r.value))
      ensures r.Err? ==> RecordLifecycle(old(tables), scope, observed, at) == Err(r.error)
    {
      if !SessionScopeCurrent(tables, scope) {
        return Ok(SessionStale);
      }
      var session, agent := tables.sessions[scope.session], tables.agents[scope.agent];
      if agent.state != session.state {
        return Err(InconsistentSessionLifecycle);
      }
      if session.state == observed {
        return Ok(SessionUnchanged);
      }
      if !session.state.Allows(observed) && !IsForegroundExit(session, observed) {
        return Err(InvalidSessionTransition);
      }
      var ended := if observed.IsTerminal() then Some(at) else None;
      tables := tables.(sessions := tables.sessions[scope.session := session.(state := observed, ended := ended)]);
      tables := tables.(agents := tables.agents[scope.agent := agent.(state := observed)]);
      if observed.IsTerminal() {
        if !RevocationAllowed(tables, {scope.session}, at) {
          return Err(ConstraintViolation);
        }
        tables := tables.(credentials := Revoked(tables, {scope.session}, at));
      }
      r := Ok(SessionApplied);
    }

    method ActivateSessionCredential(input: CredentialInput) returns (r: Result<()>)
      modifies this
      ensures r.Ok? ==> ActivateCredential(old(tables), input) == Ok(tables)
      ensures r.Err? ==> ActivateCredential(old(tables), input) == Err(r.error)
    {
      var scope := input.scope;
      if input.revoked.Some? {
        return Err(CredentialAlreadyRevoked);
      }
      if !SessionScopeCurrent(tables, scope) {
        return Err(InconsistentSessionLifecycle);
      }
      var previous := CredentialsOf(tables, scope.run, scope.agent);
      if !RevocationAllowed(tables, previous, input.createdAt) {
        return Err(ConstraintViolation);
      }
      tables := tables.(credentials := Revoked(tables, previous, input.createdAt));
      if scope.session in tables.credentials {
        return Err(ConstraintViolation);
      }
      tables := tables.(credentials := tables.credentials[scope.session := Credential(
        scope.run, scope.agent, scope.generation, input.verifier, input.createdAt, None)]);
      r := Ok(());
    }

    method StartAgentGeneration(run: RunId, agent: AgentId, current: int, next: int) returns (started: bool)
      modifies this
      ensures StartGeneration(old(tables), run, agent, current, next) == (tables, started)
    {
      if !AgentInRun(tables, agent, run) {
        return false;
      }
      var row := tables.agents[agent];
      if row.generation != current || !row.state.IsTerminal() || next <= current {
        return false;
      }
      tables := tables.(agents := tables.agents[agent := row.(generation := next, state := Starting)]);
      started := true;
    }

    // ----- Workspaces -----

    method RecordWorkspaceResultCommit(scope: AssignmentScope, commit: Commit) returns (r: Result<ResourceOutcome>)
      modifies this
      ensures r.Ok? ==> RecordResultCommit(old(tables), scope, commit) == Ok((tables, r.value))
      ensures r.Err? ==> RecordResultCommit(old(tables), scope, commit) == Err(r.error)
    {
      var workspace := WorkspaceForScope(tables, scope);
      if workspace.None? {
        return Ok(ResourceStale);
      }
      match workspace.value.result
      case Some(recorded) =>
        return if recorded == commit then Ok(ResourceUnchanged) else Err(WorkspaceConflict);
      case None =>
        tables := tables.(workspaces := tables.workspaces[scope.assignment :=
          tables.workspaces[scope.assignment].(result := Some(commit))]);
        return Ok(ResourceApplied);
    }

    method RecordWorkspaceTargetCommit(scope: AssignmentScope, commit: Commit) returns (r: Result<ResourceOutcome>)
      modifies this
      ensures r.Ok? ==> RecordTargetCommit(old(tables), scope, commit) == Ok((tables, r.value))
      ensures r.Err? ==> RecordTargetCommit(old(tables), scope, commit) == Err(r.error)
    {
      var workspace := WorkspaceForScope(tables, scope);
      if workspace.None? {
        return Ok(ResourceStale);
      }
      match workspace.value.target
      case Some(recorded) =>
        return if recorded == commit then Ok(ResourceUnchanged) else Err(WorkspaceConflict);
      case None =>
        tables := tables.(workspaces := tables.workspaces[scope.assignment :=
          tables.workspaces[scope.assignment].(target := Some(commit))]);
        return Ok(ResourceApplied);
    }

    method AssociateAssignmentSession(id: AssignmentId, session: SessionId) returns (r: Result<()>)
      modifies this
      ensures r.Ok? ==> AssociateSession(old(tables), id, session) == Ok(tables)
      ensures r.Err? ==> AssociateSession(old(tables), id, session) == Err(r.error)
    {
      if !MayAssociate(tables, id, session) {
        return Err(CorruptAssignmentState);
      }
      var i := AssignmentRow(tables, id).value;
      var row := tables.assignments[i];
      if row.session.Some? || row.completed.Some? {
        return Err(CorruptAssignmentState);
      }
      tables := tables.(assignments := tables.assignments[i := row.(session := Some(session))]);
      r := Ok(());
    }
  }
}
