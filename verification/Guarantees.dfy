/** What holds of every history a store can have, from its creation on (src/state.rs). */
module Guarantees {
  import opened Bytes
  import opened Tables
  import opened Lifecycle
  import opened Tasks
  import opened Database
  import opened EventLog
  import opened Work
  import opened WorkInvariants
  import opened LogAgreement
  import opened Readiness
  import opened Sessions
  import opened Fencing
  import opened Workspaces
  import opened History
  import opened Closure
  import opened Inboxes
  import opened Ledger
  import opened Safety
  import opened Runs

  /** The state some history leads to. */
  function Reached(steps: seq<Step>): Db {
    After(EMPTY_DB, steps)
  }

  // ----- Exactly once -----

  /** How many steps of a history made a mutation with this operation ID take effect. */
  function Effects(db: Db, steps: seq<Step>, id: OperationId): nat
    decreases |steps|
  {
    if steps == [] then 0
    else
      var n := |steps| - 1;
      var step := steps[n];
      Effects(db, steps[..n], id)
      + if step.Call? && step.mutation.command.Id() == id && TakesEffect(After(db, steps[..n]), step.mutation, step.fate)
        then 1 else 0
  }

  /** A step takes effect for an ID exactly when it brings that ID into the ledger. */
  lemma EffectsEnterTheLedger(db: Db, step: Step, id: OperationId, late: set<TaskId>)
    requires Safe(db, late)
    ensures var effective := step.Call? && step.mutation.command.Id() == id && TakesEffect(db, step.mutation, step.fate);
            id in Next(db, step).operations <==> id in db.operations || effective
    ensures step.Call? && step.mutation.command.Id() == id && TakesEffect(db, step.mutation, step.fate) ==>
              id !in db.operations
  {
    if step.Call? {
      if Mutate(db, step.mutation).Ok? {
        MutationCompletesItsOperation(db, step.mutation);
      }
    } else {
      OtherStepsLeaveLedgerAndInboxes(db, step);
    }
  }

  lemma OtherStepsLeaveLedgerAndInboxes(db: Db, step: Step)
    requires !step.Call?
    ensures Next(db, step).operations == db.operations && Next(db, step).inboxes == db.inboxes
  {
    hide Next;
    if IsFencingStep(step) {
      FencingStepsLeaveWorkAlone(db, step);
    } else if step.WorkspaceSeen? || step.RecordResult? || step.RecordTarget? {
      WorkspaceStepsUpdate(db, step);
    } else {
      InsertionsLeaveLedgerAndInboxes(db, step);
    }
  }

  lemma InsertionsLeaveLedgerAndInboxes(db: Db, step: Step)
    requires step.AddWorkspace? || step.TakeOver?
    ensures Next(db, step).operations == db.operations && Next(db, step).inboxes == db.inboxes
  {
    hide MayAssociate, OwnsWorkspace;
  }

  /** However calls, retries, failures and crashes interleave, an operation takes effect once or never. */
  lemma {:induction false} EachOperationTakesEffectAtMostOnce(db: Db, steps: seq<Step>, id: OperationId, late: set<TaskId>)
    requires Safe(db, late) && id !in db.operations
    ensures Effects(db, steps, id) == if id in After(db, steps).operations then 1 else 0
    decreases |steps|
  {
    if steps != [] {
      var n := |steps| - 1;
      EachOperationTakesEffectAtMostOnce(db, steps[..n], id, late);
      HistoriesAreSafe(db, steps[..n], late);
      EffectsEnterTheLedger(After(db, steps[..n]), steps[n], id, late + LateIn(db, steps[..n]));
    }
  }

  /**
   * After a call took effect, whatever happens next, repeating it returns the response it stored and changes
   * nothing, while any other request under its ID is refused and changes nothing.
   */
  lemma RepeatedCallsReplay(steps: seq<Step>, m: Mutation, fate: Fate, more: seq<Step>, again: Mutation)
    requires TakesEffect(Reached(steps), m, fate) && again.command.Id() == m.command.Id()
    ensures var response := Mutate(Reached(steps), m).value.1.response;
            var later := After(Next(Reached(steps), Call(m, fate)), more);
            && Mutate(later, again) == (if Repeats(m, again) then Ok((later, Replayed(response))) else Err(OperationConflict))
            && Mutate(later, m) == Ok((later, Replayed(response)))
  {
    var db := Reached(steps);
    var after := Next(db, Call(m, fate));
    ReachableStatesAreSafe(steps);
    MutationCompletesItsOperation(db, m);
    CallIsSafe(db, m, fate, LateIn(EMPTY_DB, steps));
    HistoriesAreSafe(after, more, LateIn(EMPTY_DB, steps));
    LaterCallsReplay(after, After(after, more), again);
    LaterCallsReplay(after, After(after, more), m);
    RowsMatchRepetitions(m, again, Succeeded, Some(Mutate(db, m).value.1.response));
  }

  // ----- Acknowledgements add up -----

  /** What a command's response says about messages newly acknowledged by this agent. */
  function CountFor(command: Command, response: Response, run: RunId, agent: AgentId): nat {
    if command.AcknowledgeCommand? && command.acknowledge.run == run && command.acknowledge.agent == agent
       && response.Acknowledged?
    then response.count else 0
  }

  /** The count an acknowledgement by this agent reported, if this step committed a new one. */
  function Reported(db: Db, step: Step, run: RunId, agent: AgentId): nat {
    if step.Call? && TakesEffect(db, step.mutation, step.fate)
    then CountFor(step.mutation.command, Mutate(db, step.mutation).value.1.response, run, agent)
    else 0
  }

  function TotalReported(db: Db, steps: seq<Step>, run: RunId, agent: AgentId): nat
    decreases |steps|
  {
    if steps == [] then 0
    else TotalReported(db, steps[..|steps| - 1], run, agent)
         + Reported(After(db, steps[..|steps| - 1]), steps[|steps| - 1], run, agent)
  }

  /** Only acknowledgements by an agent move its cursor, and each by the count it reports. */
  lemma CommandMovesTheCursor(db: Db, command: Command, run: RunId, agent: AgentId)
    requires InboxesTold(db) && Apply(db, command).Ok?
    ensures var (after, response) := Apply(db, command).value;
            Cursor(Inbox(after, run, agent)) == Cursor(Inbox(db, run, agent)) + CountFor(command, response, run, agent)
  {
    match command
    case CreateCommand(c) => CreateLeavesTheRest(db, c);
    case ClaimCommand(c) => ClaimOutcome(db, c);
    case TransitionCommand(c) => TransitionLeavesTheRest(db, c);
    case SendCommand(c) => SendingKeepsTheCursor(db, c, run, agent);
    case AcknowledgeCommand(c) => AcknowledgingMovesTheCursor(db, c, run, agent);
  }

  lemma SendingKeepsTheCursor(db: Db, input: SendInput, run: RunId, agent: AgentId)
    requires ApplySend(db, input).Ok?
    ensures InboxesTold(db) ==>
              Cursor(Inbox(ApplySend(db, input).value.0, run, agent)) == Cursor(Inbox(db, run, agent))
  {
    var box := Inbox(db, run, agent);
    var after := Inbox(ApplySend(db, input).value.0, run, agent);
    if InboxesTold(db) && after != box {
      InboxesArePrefixAcknowledged(db, run, agent);
      assert after[..|after| - 1] == box;
    }
  }

  lemma AcknowledgingMovesTheCursor(db: Db, input: AcknowledgeInput, run: RunId, agent: AgentId)
    requires InboxesTold(db) && ApplyAcknowledge(db, input).Ok?
    ensures var (after, response) := ApplyAcknowledge(db, input).value;
            Cursor(Inbox(after, run, agent)) == Cursor(Inbox(db, run, agent))
              + if input.run == run && input.agent == agent && response.Acknowledged? then response.count else 0
  {
    var k := AcknowledgedIn(LogOf(db, input.run), input.agent);
    assert InboxTold(LogOf(db, input.run), Inbox(db, input.run, input.agent), input.agent);
    CursorOfPrefix(Inbox(db, input.run, input.agent), k);
    AcknowledgementMovesThePrefix(db, input, k);
    if ApplyAcknowledge(db, input).value.1.Acknowledged? {
      AcknowledgementIsLocal(db, input);
      CursorOfPrefix(Inbox(ApplyAcknowledge(db, input).value.0, input.run, input.agent), Greater(k, input.through));
    }
  }

  lemma CallMovesTheCursor(db: Db, m: Mutation, run: RunId, agent: AgentId, late: set<TaskId>)
    requires Safe(db, late) && Mutate(db, m).Ok? && Mutate(db, m).value.1.Applied?
    ensures Cursor(Inbox(Mutate(db, m).value.0, run, agent)) ==
              Cursor(Inbox(db, run, agent)) + CountFor(m.command, Mutate(db, m).value.1.response, run, agent)
  {
    SameWorkIsSafe(db, Begun(db, m), late);
    EffectOfMutation(db, m);
    hide Mutate, Apply, Cursor, WorkSafe, CountFor;
    CommandMovesTheCursor(Begun(db, m), m.command, run, agent);
  }

  lemma StepMovesTheCursor(db: Db, step: Step, run: RunId, agent: AgentId, late: set<TaskId>)
    requires Safe(db, late)
    ensures Cursor(Inbox(Next(db, step), run, agent)) == Cursor(Inbox(db, run, agent)) + Reported(db, step, run, agent)
  {
    hide Safe, Mutate, Cursor;
    if !step.Call? {
      OtherStepsLeaveLedgerAndInboxes(db, step);
    } else if TakesEffect(db, step.mutation, step.fate) {
      CallMovesTheCursor(db, step.mutation, run, agent, late);
    } else {
      IneffectiveCallsChangeNothing(db, step.mutation, step.fate);
    }
  }

  lemma IneffectiveCallsChangeNothing(db: Db, m: Mutation, fate: Fate)
    requires !TakesEffect(db, m, fate)
    ensures Attempt(db, m, fate) == db
  {
    hide Apply;
  }

  /** The counts reported by all acknowledgements of an agent, replays aside, add up to its cursor. */
  lemma {:induction false} ReportsAddUp(steps: seq<Step>, run: RunId, agent: AgentId)
    ensures TotalReported(EMPTY_DB, steps, run, agent) == Cursor(Inbox(Reached(steps), run, agent))
    ensures AcknowledgedIn(LogOf(Reached(steps), run), agent) == Cursor(Inbox(Reached(steps), run, agent))
    decreases |steps|
  {
    hide Owned, Prerequisites, LogsAgree, InboxesTold, Accepted, Fenced, Next, Reported, Cursor;
    ReachableStatesAreSafe(steps);
    InboxesArePrefixAcknowledged(Reached(steps), run, agent);
    if steps == [] {
      NothingIsAcknowledgedAtFirst(run, agent);
    } else {
      var n := |steps| - 1;
      ReportsAddUp(steps[..n], run, agent);
      ReachableStatesAreSafe(steps[..n]);
      StepMovesTheCursor(Reached(steps[..n]), steps[n], run, agent, LateIn(EMPTY_DB, steps[..n]));
    }
  }

  lemma NothingIsAcknowledgedAtFirst(run: RunId, agent: AgentId)
    ensures Cursor(Inbox(Reached([]), run, agent)) == 0
  {
  }

  // ----- Nothing permanent is undone -----

  /** A closed or canceled task never changes again, whatever happens after it. */
  lemma FinalTasksNeverChange(steps: seq<Step>, more: seq<Step>, task: TaskId)
    requires IsFinal(Reached(steps).tasks, task)
    ensures task in After(Reached(steps), more).tasks
    ensures After(Reached(steps), more).tasks[task] == Reached(steps).tasks[task]
  {
    ReachableStatesAreSafe(steps);
    HistoriesAreSafe(Reached(steps), more, LateIn(EMPTY_DB, steps));
  }

  /** Everything that work once relied on stays closed for ever, however indirect the dependency. */
  lemma PrerequisitesStayClosed(steps: seq<Step>, more: seq<Step>, path: seq<TaskId>)
    requires DependencyPath(Reached(steps), path) && |path| > 1
    requires path[0] in Reached(steps).tasks && ReliesOnPrerequisites(Reached(steps).tasks[path[0]].status)
    ensures var last := path[|path| - 1];
            last in After(Reached(steps), more).tasks && After(Reached(steps), more).tasks[last].status == Closed
  {
    ReachableStatesAreSafe(steps);
    PrerequisitesAreTransitive(Reached(steps), path);
    FinalTasksNeverChange(steps, more, path[|path| - 1]);
  }

  /** Once a session has ended or been replaced, its credential never resolves again. */
  lemma RetiredSessionsStayRetired(
      steps: seq<Step>, more: seq<Step>, run: RunId, agent: AgentId, session: SessionId)
    requires Retired(Reached(steps), session)
    ensures !Resolves(After(Reached(steps), more), run, agent, session)
  {
    ReachableStatesAreSafe(steps);
    HistoriesAreSafe(Reached(steps), more, LateIn(EMPTY_DB, steps));
    RetiredNeverResolves(Reached(steps), After(Reached(steps), more), run, agent, session);
  }

  /** An event, once appended, keeps its place in its run's log. */
  lemma LogsOnlyGrow(steps: seq<Step>, more: seq<Step>, run: RunId)
    ensures LogOf(Reached(steps), run) <= LogOf(After(Reached(steps), more), run)
    ensures Sound(LogOf(Reached(steps), run))
  {
    ReachableStatesAreSafe(steps);
    HistoriesAreSafe(Reached(steps), more, LateIn(EMPTY_DB, steps));
    assert Tells(LogOf(Reached(steps), run), Reached(steps), run);
  }

  /** The errors reserved for corrupt tables are unreachable. */
  lemma CorruptionIsUnreachable(
      steps: seq<Step>, m: Mutation, input: TransitionInput, scope: SessionScope, state: LifecycleState, at: Time)
    ensures Mutate(Reached(steps), m) != Err(OperationIncomplete)
    ensures Mutate(Reached(steps), m) != Err(MissingOperationResult)
    ensures ApplyTransition(Reached(steps), input).Ok?
    ensures RecordLifecycle(Reached(steps), scope, state, at) != Err(InconsistentSessionLifecycle)
  {
    ReachableStatesAreSafe(steps);
    LedgerErrorsNeverFire(Reached(steps), m);
    TransitionsNeverFindCorruption(Reached(steps), input);
    LifecycleIsNeverInconsistent(Reached(steps), scope, state, at);
  }

  /**
   * In every history whose worktrees are recorded before closure, a closed task with an unintegrated
   * worktree was accepted by an operator, on evidence that still matches the recorded commits.
   */
  lemma ClosedWorkWasAccepted(steps: seq<Step>, task: TaskId, id: AssignmentId)
    requires task in Reached(steps).tasks && Reached(steps).tasks[task].status == Closed
    requires task !in LateIn(EMPTY_DB, steps)
    requires LatestId(Reached(steps), Reached(steps).tasks[task].run, task) == Some(id)
    requires id in Reached(steps).workspaces && Reached(steps).workspaces[id].kind == Worktree
    requires Reached(steps).workspaces[id].target.None?
    ensures exists k, e ::
              var log, workspace := LogOf(Reached(steps), Reached(steps).tasks[task].run), Reached(steps).workspaces[id];
              && 0 <= k < |log| && log[k].actor.None?
              && log[k].body == TaskChanged(task, Submitted, Closed, Some(e))
              && e.assignment == id && workspace.base == Some(e.base) && workspace.result == Some(e.result)
  {
    ReachableStatesAreSafe(steps);
    ClosedWorkIsIntegratedOrOverridden(Reached(steps), LateIn(EMPTY_DB, steps), task, id);
  }

  // ----- Ownership and readiness -----

  /** After any history a task is in progress exactly when one linked claim and assignment of one agent are open. */
  lemma OwnershipIsAlwaysExact(steps: seq<Step>, run: RunId, task: TaskId)
    requires TaskInRun(Reached(steps), task, run)
    ensures var db := Reached(steps);
            var claims := Count(db.claims, (c: Claim) => ClaimsTask(c, run, task));
            var works := Count(db.assignments, (a: Assignment) => WorksOnTask(a, run, task));
            var claim, assignment := ActiveClaim(db, run, task), ActiveAssignment(db, run, task);
            && claims == works == (if db.tasks[task].status == InProgress then 1 else 0)
            && (db.tasks[task].status == InProgress ==>
                  && claim.Some? && assignment.Some? && db.assignments[assignment.value].claim == claim.value + 1
                  && db.assignments[assignment.value].agent == db.claims[claim.value].agent)
  {
    ReachableStatesAreSafe(steps);
    OwnershipIsExact(Reached(steps), run, task);
  }

  /** After any history no agent has two uncompleted assignments. */
  lemma AgentsAlwaysWorkOnOneTask(steps: seq<Step>, run: RunId, agent: AgentId)
    ensures Count(Reached(steps).assignments, (a: Assignment) => KeepsBusy(a, run, agent)) <= 1
  {
    ReachableStatesAreSafe(steps);
    AgentsWorkOnOneTask(Reached(steps), run, agent);
  }

  // ----- Stopped runs and recovered work -----

  /** Once a run is stopped, none of its credentials resolves. */
  lemma StoppedRunsResolveNothing(steps: seq<Step>, run: RunId, agent: AgentId, s: SessionId)
    ensures !Resolves(Next(Reached(steps), EndRun(run)), run, agent, s)
  {
    hide Reached;
  }

  ghost predicate SameRecovery(db: Db, after: Db) {
    after.recoveredSessions == db.recoveredSessions && after.recoveredAssignments == db.recoveredAssignments
  }

  lemma CallsLeaveRecovery(db: Db, m: Mutation, fate: Fate)
    ensures SameRecovery(db, Attempt(db, m, fate))
  {
    hide Apply;
    if fate != FailsBeforeCommit && Mutate(db, m).Ok? && m.command.Id() !in db.operations {
      ApplyLeavesTheRest(Begun(db, m), m.command);
    }
  }

  lemma NewAgentsLeaveRecovery(db: Db, agent: AgentId, run: RunId, generation: int)
    ensures SameRecovery(db, Kept(db, InsertAgent(db, agent, run, generation)))
  {
  }

  lemma GenerationsLeaveRecovery(db: Db, agent: AgentId, run: RunId, generation: int, next: int)
    ensures SameRecovery(db, StartGeneration(db, run, agent, generation, next).0)
  {
  }

  lemma NewSessionsLeaveRecovery(db: Db, input: SessionInput)
    ensures SameRecovery(db, Kept(db, InsertSession(db, input)))
  {
  }

  lemma LaunchesLeaveRecovery(db: Db, scope: SessionScope, provider: string)
    ensures SameRecovery(db, RecordLaunch(db, scope, provider).0)
  {
  }

  lemma ReconciliationsLeaveRecovery(db: Db, scope: SessionScope, resource: ResourceState)
    ensures SameRecovery(db, RecordSessionReconciliation(db, scope, resource).0)
  {
  }

  lemma ObservationsLeaveRecovery(db: Db, scope: SessionScope, state: LifecycleState, at: Time)
    ensures SameRecovery(db, Committed(db, RecordLifecycle(db, scope, state, at)))
  {
    hide RecordLifecycle;
    if RecordLifecycle(db, scope, state, at).Ok? {
      ObservationsAreLocal(db, scope, state, at);
    }
  }

  lemma CredentialsLeaveRecovery(db: Db, input: CredentialInput)
    ensures SameRecovery(db, Kept(db, ActivateCredential(db, input)))
    ensures SameRecovery(db, Kept(db, ReplaceDesiredCredential(db, input)))
  {
    hide SessionScopeCurrent, RevocationAllowed, Revoked, CredentialsOf, ReplacesCredential;
  }

  lemma WorkspacesLeaveRecovery(db: Db, input: WorkspaceInput)
    ensures SameRecovery(db, Kept(db, RecordWorkspace(db, input)))
  {
  }

  lemma WorkspaceStatesLeaveRecovery(db: Db, scope: AssignmentScope, resource: ResourceState)
    ensures SameRecovery(db, RecordWorkspaceState(db, scope, resource).0)
  {
  }

  lemma ResultsLeaveRecovery(db: Db, scope: AssignmentScope, commit: Commit)
    ensures SameRecovery(db, Committed(db, RecordResultCommit(db, scope, commit)))
  {
  }

  lemma TargetsLeaveRecovery(db: Db, scope: AssignmentScope, commit: Commit)
    ensures SameRecovery(db, Committed(db, RecordTargetCommit(db, scope, commit)))
  {
  }

  lemma AssociationsLeaveRecovery(db: Db, id: AssignmentId, session: SessionId)
    ensures SameRecovery(db, Kept(db, AssociateSession(db, id, session)))
  {
    hide MayAssociate;
  }

  /** What was recovered stays recovered, and a recovery marks just what it names. */
  lemma RecoveryIsKept(db: Db, step: Step)
    ensures Next(db, step).recoveredSessions == db.recoveredSessions + if step.Recover? then step.sessions else {}
    ensures Next(db, step).recoveredAssignments == db.recoveredAssignments + if step.Recover? then step.assignments else {}
  {
    hide Next;
    if step.Call? {
      CallsLeaveRecovery(db, step.mutation, step.fate);
      CallsAreAttempts(db, step);
    } else if step.AddAgent? || step.Restart? || step.AddSession? {
      AgentStepsLeaveRecovery(db, step);
    } else if step.Launched? || step.Reconciled? || step.Observe? {
      ObservationStepsLeaveRecovery(db, step);
    } else if step.Activate? || step.Rotate? {
      CredentialStepsLeaveRecovery(db, step);
    } else if step.BeginRun? || step.EndRun? || step.ResumeRun? || step.Recover? {
      RunStepsMarkRecovery(db, step);
    } else if step.RecordResult? || step.RecordTarget? {
      CommitStepsLeaveRecovery(db, step);
    } else {
      WorkspaceStepsLeaveRecovery(db, step);
    }
  }

  lemma CallsAreAttempts(db: Db, step: Step)
    requires step.Call?
    ensures Next(db, step) == Attempt(db, step.mutation, step.fate)
  {
  }

  lemma RunStepsMarkRecovery(db: Db, step: Step)
    requires step.BeginRun? || step.EndRun? || step.ResumeRun? || step.Recover?
    ensures Next(db, step).recoveredSessions == db.recoveredSessions + if step.Recover? then step.sessions else {}
    ensures Next(db, step).recoveredAssignments == db.recoveredAssignments + if step.Recover? then step.assignments else {}
  {
  }

  lemma AgentStepsLeaveRecovery(db: Db, step: Step)
    requires step.AddAgent? || step.Restart? || step.AddSession?
    ensures SameRecovery(db, Next(db, step))
  {
    hide InsertAgent, StartGeneration, InsertSession, SameRecovery;
    match step
    case AddAgent(agent, run, generation) =>
      NewAgentsLeaveRecovery(db, agent, run, generation);
    case Restart(run, agent, current, next) =>
      GenerationsLeaveRecovery(db, agent, run, current, next);
    case AddSession(input) => NewSessionsLeaveRecovery(db, input);
  }

  lemma ObservationStepsLeaveRecovery(db: Db, step: Step)
    requires step.Launched? || step.Reconciled? || step.Observe?
    ensures SameRecovery(db, Next(db, step))
  {
    hide RecordLaunch, RecordSessionReconciliation, RecordLifecycle, SameRecovery;
    match step
    case Launched(scope, provider) => LaunchesLeaveRecovery(db, scope, provider);
    case Reconciled(scope, resource) => ReconciliationsLeaveRecovery(db, scope, resource);
    case Observe(scope, state, at) => ObservationsLeaveRecovery(db, scope, state, at);
  }

  lemma CredentialStepsLeaveRecovery(db: Db, step: Step)
    requires step.Activate? || step.Rotate?
    ensures SameRecovery(db, Next(db, step))
  {
    hide ActivateCredential, ReplaceDesiredCredential, SameRecovery;
    CredentialsLeaveRecovery(db, step.credential);
  }

  lemma WorkspaceStepsLeaveRecovery(db: Db, step: Step)
    requires step.AddWorkspace? || step.WorkspaceSeen? || step.TakeOver?
    ensures SameRecovery(db, Next(db, step))
  {
    hide RecordWorkspace, RecordWorkspaceState, AssociateSession, SameRecovery;
    match step
    case AddWorkspace(input) => WorkspacesLeaveRecovery(db, input);
    case WorkspaceSeen(scope, resource) => WorkspaceStatesLeaveRecovery(db, scope, resource);
    case TakeOver(id, session) => AssociationsLeaveRecovery(db, id, session);
  }

  lemma CommitStepsLeaveRecovery(db: Db, step: Step)
    requires step.RecordResult? || step.RecordTarget?
    ensures SameRecovery(db, Next(db, step))
  {
    hide RecordResultCommit, RecordTargetCommit, SameRecovery;
    match step
    case RecordResult(scope, commit) => ResultsLeaveRecovery(db, scope, commit);
    case RecordTarget(scope, commit) => TargetsLeaveRecovery(db, scope, commit);
  }

  /** A recovered session or assignment can record nothing more, whatever happens after its recovery. */
  lemma {:induction false} RecoveredWorkStaysStale(
      db: Db, more: seq<Step>, scope: SessionScope, state: LifecycleState, at: Time, owner: AssignmentScope, commit: Commit)
    ensures scope.session in db.recoveredSessions ==>
              RecordLifecycle(After(db, more), scope, state, at) == Ok((After(db, more), SessionStale))
    ensures owner.assignment in db.recoveredAssignments ==>
              RecordResultCommit(After(db, more), owner, commit) == Ok((After(db, more), ResourceStale))
              && RecordTargetCommit(After(db, more), owner, commit) == Ok((After(db, more), ResourceStale))
  {
    hide After;
    RecoveryIsKeptFor(db, more);
  }

  lemma {:induction false} RecoveryIsKeptFor(db: Db, more: seq<Step>)
    ensures db.recoveredSessions <= After(db, more).recoveredSessions
    ensures db.recoveredAssignments <= After(db, more).recoveredAssignments
    decreases |more|
  {
    hide Next;
    if more != [] {
      RecoveryIsKeptFor(db, more[..|more| - 1]);
      RecoveryIsKept(After(db, more[..|more| - 1]), more[|more| - 1]);
    }
  }

  // ----- Fencing and logs -----

  /**
   * After any history an agent's state is its current session's, at most one of its sessions resolves, and only
   * a live one does; and whatever happens next, its generation does not decrease.
   */
  lemma CredentialsAreAlwaysFenced(steps: seq<Step>, more: seq<Step>, run: RunId, agent: AgentId, s: SessionId, t: SessionId)
    requires agent in Reached(steps).agents
    ensures var db, later := Reached(steps), After(Reached(steps), more);
            && (s in db.sessions && db.sessions[s].agent == agent
                && db.sessions[s].generation == db.agents[agent].generation ==>
                  db.sessions[s].state == db.agents[agent].state)
            && (Resolves(db, run, agent, s) ==> !Retired(db, s) && db.sessions[s].state in {Starting, Running, Unknown})
            && (Resolves(db, run, agent, s) && Resolves(db, run, agent, t) ==> s == t)
            && agent in later.agents && later.agents[agent].generation >= db.agents[agent].generation
  {
    hide Resolves, Retired;
    var db := Reached(steps);
    ReachableStatesAreSafe(steps);
    HistoriesAreSafe(db, more, LateIn(EMPTY_DB, steps));
    if s in db.sessions {
      AgentMirrorsItsSession(db, s);
    }
    if Resolves(db, run, agent, s) {
      ResolvedSessionsAreLive(db, run, agent, s);
      if Resolves(db, run, agent, t) {
        OneSessionResolves(db, run, agent, s, t);
      }
    }
  }

  /** After any history folding a run's log gives the status of every task, and the state of every assignment and claim. */
  lemma LogsAlwaysTellTheTables(steps: seq<Step>, run: RunId, task: TaskId, i: nat)
    ensures var db := Reached(steps); var log := LogOf(db, run);
            && Sound(log)
            && StatusIn(log, task) == (if TaskInRun(db, task, run) then db.tasks[task].status else Open)
            && (i < |db.assignments| ==> i < |db.claims|)
            && (i < |db.assignments| && db.assignments[i].run == run ==>
                  && AssignmentIn(log, db.assignments[i].id) == Some(db.assignments[i].state)
                  && ClaimIn(log, i + 1) == Some(db.claims[i].released.Some?))
  {
    ReachableStatesAreSafe(steps);
    assert Tells(LogOf(Reached(steps), run), Reached(steps), run);
  }

  /** After any history listing, readiness facts and claiming agree, and a refused claim is told a true reason. */
  lemma ReadinessAlwaysAgrees(steps: seq<Step>, input: ClaimInput)
    requires AgentInRun(Reached(steps), input.agent, input.run) && !AssignmentExists(Reached(steps), input.assignment)
    ensures var db := Reached(steps);
            var ready := TaskInRun(db, input.task, input.run) && ReadinessOf(db, input.task).value.IsReady();
            && (input.task in ReadyTasks(db, input.run) <==> ready)
            && ApplyClaim(db, input).Ok?
            && (!AgentBusyIn(db, input.run, input.agent) ==> (ApplyClaim(db, input).value.1.Claimed? <==> ready))
            && (ApplyClaim(db, input).value.1.ClaimRefused? ==>
                  Explains(db, input, ApplyClaim(db, input).value.1.claimReason))
  {
    var db := Reached(steps);
    ReachableStatesAreSafe(steps);
    ReadyMeansListed(db, input.run, input.task);
    if !AgentBusyIn(db, input.run, input.agent) {
      ReadyMeansClaimable(db, input);
    }
    if ApplyClaim(db, input).value.1.ClaimRefused? {
      RejectionsAreTrue(db, input);
    }
  }
}
