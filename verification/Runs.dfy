/** Whole histories of a store: any interleaving of calls, crashes, retries and observations (src/state.rs). */
module Runs {
  import opened Bytes
  import opened Lifecycle
  import opened Tasks
  import opened Database
  import opened Work
  import opened WorkInvariants
  import opened LogAgreement
  import opened Sessions
  import opened Fencing
  import opened Workspaces
  import opened History
  import opened Closure
  import opened Inboxes
  import opened Ledger
  import opened Safety

  // ----- Steps -----

  datatype Step =
    | Call(mutation: Mutation, fate: Fate)
    | BeginRun(run: RunId)
    | EndRun(run: RunId)
    | ResumeRun(run: RunId)
    | AddAgent(agent: AgentId, run: RunId, generation: int)
    | Restart(run: RunId, agent: AgentId, current: int, next: int)
    | AddSession(session: SessionInput)
    | Launched(scope: SessionScope, provider: string)
    | Reconciled(scope: SessionScope, resource: ResourceState)
    | Observe(scope: SessionScope, state: LifecycleState, at: Time)
    | Activate(credential: CredentialInput)
    | Rotate(credential: CredentialInput)
    | Recover(sessions: set<SessionId>, assignments: set<AssignmentId>)
    | AddWorkspace(workspace: WorkspaceInput)
    | WorkspaceSeen(owner: AssignmentScope, resource: ResourceState)
    | RecordResult(owner: AssignmentScope, commit: Commit)
    | RecordTarget(owner: AssignmentScope, commit: Commit)
    | TakeOver(assignment: AssignmentId, taker: SessionId)

  function Kept(db: Db, result: Result<Db>): Db {
    if result.Ok? then result.value else db
  }

  function Next(db: Db, step: Step): Db {
    match step
    case Call(m, fate) => Attempt(db, m, fate)
    case BeginRun(run) => Kept(db, InsertRun(db, run))
    case EndRun(run) => Kept(db, StopRun(db, run))
    case ResumeRun(run) => ReactivateRun(db, run)
    case AddAgent(agent, run, generation) => Kept(db, InsertAgent(db, agent, run, generation))
    case Restart(run, agent, current, next) => StartGeneration(db, run, agent, current, next).0
    case AddSession(input) => Kept(db, InsertSession(db, input))
    case Launched(scope, provider) => RecordLaunch(db, scope, provider).0
    case Reconciled(scope, resource) => RecordSessionReconciliation(db, scope, resource).0
    case Observe(scope, state, at) => Committed(db, RecordLifecycle(db, scope, state, at))
    case Activate(input) => Kept(db, ActivateCredential(db, input))
    case Rotate(input) => Kept(db, ReplaceDesiredCredential(db, input))
    case Recover(sessions, assignments) => db.(
      recoveredSessions := db.recoveredSessions + sessions,
      recoveredAssignments := db.recoveredAssignments + assignments)
    case AddWorkspace(input) => Kept(db, RecordWorkspace(db, input))
    case WorkspaceSeen(scope, resource) => RecordWorkspaceState(db, scope, resource).0
    case RecordResult(scope, commit) => Committed(db, RecordResultCommit(db, scope, commit))
    case RecordTarget(scope, commit) => Committed(db, RecordTargetCommit(db, scope, commit))
    case TakeOver(assignment, session) => Kept(db, AssociateSession(db, assignment, session))
  }

  function After(db: Db, steps: seq<Step>): Db
    decreases |steps|
  {
    if steps == [] then db else Next(After(db, steps[..|steps| - 1]), steps[|steps| - 1])
  }

  /** The closed tasks whose latest assignment gets its worktree recorded only by this step. */
  function LateTasks(db: Db, step: Step): set<TaskId> {
    if step.AddWorkspace? then set t | t in db.tasks && IsLateFor(db, step.workspace, t) else {}
  }

  function LateIn(db: Db, steps: seq<Step>): set<TaskId>
    decreases |steps|
  {
    if steps == [] then {}
    else LateIn(db, steps[..|steps| - 1]) + LateTasks(After(db, steps[..|steps| - 1]), steps[|steps| - 1])
  }

  // ----- The invariant of every reachable state -----

  ghost predicate Safe(db: Db, late: set<TaskId>) {
    WorkSafe(db, late) && Fenced(db) && LedgerComplete(db.operations)
  }

  ghost predicate Evolved(db: Db, after: Db) {
    WorkExtends(db, after) && Evolves(db, after) && LedgerExtends(db.operations, after.operations)
  }

  lemma EvolvedIsTransitive(a: Db, b: Db, c: Db)
    requires Evolved(a, b) && Evolved(b, c)
    ensures Evolved(a, c)
  {
    WorkExtendsTransitively(a, b, c);
    EvolvesIsTransitive(a, b, c);
  }

  lemma EmptyIsSafe()
    ensures Safe(EMPTY_DB, {})
  {
    forall r
      ensures Tells(LogOf(EMPTY_DB, r), EMPTY_DB, r)
    {
    }
    forall run: RunId, agent: AgentId
      ensures InboxTold(LogOf(EMPTY_DB, run), Inbox(EMPTY_DB, run, agent), agent)
    {
    }
  }

  // ----- Steps on agents, sessions and credentials -----

  /** A step on the fencing tables that evolves them is safe. */
  lemma FencingStepIsSafe(db: Db, after: Db, late: set<TaskId>)
    requires Safe(db, late) && Fenced(after) && Evolves(db, after)
    requires LeavesWork(db, after)
    ensures Safe(after, late) && Evolved(db, after)
  {
    SameWorkIsSafe(db, after, late);
  }

  predicate IsFencingStep(step: Step) {
    step.BeginRun? || step.EndRun? || step.ResumeRun? || step.AddAgent? || step.Restart? || step.AddSession?
    || step.Launched? || step.Reconciled? || step.Observe? || step.Activate? || step.Rotate? || step.Recover?
  }

  lemma FencingStepsAreFenced(db: Db, step: Step)
    requires Fenced(db) && IsFencingStep(step)
    ensures Fenced(Next(db, step)) && Evolves(db, Next(db, step))
  {
    hide Fenced, Evolves, Next;
    if step.AddSession? || step.Launched? || step.Reconciled? || step.Observe? || step.Activate? || step.Rotate? {
      SessionStepsAreFenced(db, step);
    } else if step.AddAgent? || step.Restart? {
      AgentStepsAreFenced(db, step);
    } else {
      RunStepsLeaveFencing(db, step);
      EvolvesIsReflexive(db, Next(db, step));
    }
  }

  lemma RunStepsLeaveFencing(db: Db, step: Step)
    requires step.BeginRun? || step.EndRun? || step.ResumeRun? || step.Recover?
    ensures Next(db, step).agents == db.agents && Next(db, step).sessions == db.sessions
    ensures Next(db, step).credentials == db.credentials
  {
    hide Attempt, InsertAgent, StartGeneration, InsertSession, RecordLaunch, RecordSessionReconciliation, RecordLifecycle;
    hide ActivateCredential, ReplaceDesiredCredential, RecordWorkspace, RecordWorkspaceState, AssociateSession;
  }

  lemma AgentStepsAreFenced(db: Db, step: Step)
    requires Fenced(db) && (step.AddAgent? || step.Restart?)
    ensures Fenced(Next(db, step)) && Evolves(db, Next(db, step))
  {
    hide Fenced, Evolves, InsertAgent, StartGeneration;
    EvolvesIsReflexive(db, db);
    match step
    case AddAgent(agent, run, generation) =>
      if InsertAgent(db, agent, run, generation).Ok? { InsertAgentKeepsFenced(db, agent, run, generation); }
    case Restart(run, agent, current, next) => StartGenerationKeepsFenced(db, run, agent, current, next);
  }

  lemma SessionStepsAreFenced(db: Db, step: Step)
    requires Fenced(db)
    requires step.AddSession? || step.Launched? || step.Reconciled? || step.Observe? || step.Activate? || step.Rotate?
    ensures Fenced(Next(db, step)) && Evolves(db, Next(db, step))
  {
    hide Fenced, Evolves, RecordLaunch, RecordSessionReconciliation, RecordLifecycle, ActivateCredential,
         ReplaceDesiredCredential, InsertSession;
    EvolvesIsReflexive(db, db);
    match step
    case AddSession(input) => if InsertSession(db, input).Ok? { InsertSessionKeepsFenced(db, input); }
    case Launched(scope, provider) => LaunchKeepsFenced(db, scope, provider);
    case Reconciled(scope, resource) => ReconciliationKeepsFenced(db, scope, resource);
    case Observe(scope, state, at) =>
      if RecordLifecycle(db, scope, state, at).Ok? { LifecycleKeepsFenced(db, scope, state, at); }
    case Activate(input) => if ActivateCredential(db, input).Ok? { ActivateKeepsFenced(db, input); }
    case Rotate(input) => if ReplaceDesiredCredential(db, input).Ok? { ReplaceKeepsFenced(db, input); }
  }

  ghost predicate LeavesWork(db: Db, after: Db) {
    after == db.(runs := after.runs, agents := after.agents, sessions := after.sessions,
                 credentials := after.credentials, recoveredSessions := after.recoveredSessions,
                 recoveredAssignments := after.recoveredAssignments)
  }

  lemma FencingStepsLeaveWorkAlone(db: Db, step: Step)
    requires IsFencingStep(step)
    ensures LeavesWork(db, Next(db, step))
  {
    hide RecordLaunch, RecordSessionReconciliation, RecordLifecycle, ActivateCredential, ReplaceDesiredCredential,
         LeavesWork, InsertSession, InsertAgent, StartGeneration;
    match step
    case BeginRun(run) => RunStepsLeaveWork(db, run, {}, {});
    case EndRun(run) => RunStepsLeaveWork(db, run, {}, {});
    case ResumeRun(run) => RunStepsLeaveWork(db, run, {}, {});
    case Recover(sessions, assignments) => RunStepsLeaveWork(db, 0, sessions, assignments);
    case AddAgent(agent, run, generation) => AgentStepsLeaveWork(db, agent, run, generation, 0);
    case Restart(run, agent, current, next) => AgentStepsLeaveWork(db, agent, run, current, next);
    case AddSession(input) => AddSessionLeavesWork(db, input);
    case Launched(scope, provider) => LaunchLeavesWork(db, scope, provider);
    case Reconciled(scope, resource) => ReconciliationLeavesWork(db, scope, resource);
    case Observe(scope, state, at) => LifecycleLeavesWork(db, scope, state, at);
    case Activate(input) => ActivationLeavesWork(db, input);
    case Rotate(input) => RotationLeavesWork(db, input);
    case _ =>
  }

  lemma RunStepsLeaveWork(db: Db, run: RunId, sessions: set<SessionId>, assignments: set<AssignmentId>)
    ensures LeavesWork(db, Kept(db, InsertRun(db, run))) && LeavesWork(db, Kept(db, StopRun(db, run)))
    ensures LeavesWork(db, ReactivateRun(db, run))
    ensures LeavesWork(db, Next(db, Recover(sessions, assignments)))
  {
  }

  lemma AgentStepsLeaveWork(db: Db, agent: AgentId, run: RunId, generation: int, next: int)
    ensures LeavesWork(db, Kept(db, InsertAgent(db, agent, run, generation)))
    ensures LeavesWork(db, StartGeneration(db, run, agent, generation, next).0)
  {
  }

  lemma AddSessionLeavesWork(db: Db, input: SessionInput)
    ensures LeavesWork(db, Kept(db, InsertSession(db, input)))
  {
  }

  lemma LaunchLeavesWork(db: Db, scope: SessionScope, provider: string)
    ensures LeavesWork(db, RecordLaunch(db, scope, provider).0)
  {
  }

  lemma ReconciliationLeavesWork(db: Db, scope: SessionScope, resource: ResourceState)
    ensures LeavesWork(db, RecordSessionReconciliation(db, scope, resource).0)
  {
  }

  lemma LifecycleLeavesWork(db: Db, scope: SessionScope, state: LifecycleState, at: Time)
    ensures LeavesWork(db, Committed(db, RecordLifecycle(db, scope, state, at)))
  {
  }

  lemma ActivationLeavesWork(db: Db, input: CredentialInput)
    ensures LeavesWork(db, Kept(db, ActivateCredential(db, input)))
  {
  }

  lemma RotationLeavesWork(db: Db, input: CredentialInput)
    ensures LeavesWork(db, Kept(db, ReplaceDesiredCredential(db, input)))
  {
  }

  // ----- Steps on workspaces and assignments -----

  /** Updating workspaces in place is safe as long as ownership and recorded commits stay. */
  lemma WorkspaceUpdateIsSafe(db: Db, after: Db, late: set<TaskId>)
    requires Safe(db, late) && UpdatesWorkspaces(db, after)
    ensures Safe(after, late) && Evolved(db, after)
  {
    WorkspaceTablesLeaveTheRest(db, after);
    UneventfulKeepsAccepted(db, after, late);
  }

  lemma WorkspaceTablesLeaveTheRest(db: Db, after: Db)
    requires Owned(db) && LogsAgree(db) && InboxesTold(db) && after == db.(workspaces := after.workspaces)
    requires WorkspacesEvolve(db.workspaces, after.workspaces)
    ensures Owned(after) && LogsAgree(after) && InboxesTold(after) && WorkExtends(db, after) && Evolves(db, after)
    ensures forall r :: LogOf(after, r) == LogOf(db, r)
  {
    OwnedDependsOnWork(db, after);
    AgreementDependsOnWork(db, after);
    WorkspaceStepsExtend(db, after);
    InboxesIgnoreTaskEvents(db, after);
    EvolvesIsReflexive(db, after);
  }

  lemma AddWorkspaceIsSafe(db: Db, input: WorkspaceInput, late: set<TaskId>)
    requires Safe(db, late) && RecordWorkspace(db, input).Ok?
    ensures Safe(RecordWorkspace(db, input).value, late + LateTasks(db, AddWorkspace(input)))
    ensures Evolved(db, RecordWorkspace(db, input).value)
  {
    var after := RecordWorkspace(db, input).value;
    WorkspaceTablesLeaveTheRest(db, after);
    RecordingKeepsAcceptedUnlessLate(db, input, late + LateTasks(db, AddWorkspace(input)));
  }

  lemma TakeOverIsSafe(db: Db, id: AssignmentId, session: SessionId, late: set<TaskId>)
    requires Safe(db, late) && AssociateSession(db, id, session).Ok?
    ensures Safe(AssociateSession(db, id, session).value, late) && Evolved(db, AssociateSession(db, id, session).value)
  {
    var after := AssociateSession(db, id, session).value;
    AssociateExtends(db, id, session);
    RelabelingIsSafe(db, after, AssignmentRow(db, id).value, Some(session), late);
  }

  lemma RelabelingIsSafe(db: Db, after: Db, i: nat, session: Option<SessionId>, late: set<TaskId>)
    requires Safe(db, late) && Extends(db, after) && i < |db.assignments|
    requires after == db.(assignments := db.assignments[i := db.assignments[i].(session := session)])
    ensures Safe(after, late) && Evolved(db, after)
  {
    RelabelingKeepsOwned(db, after, i, session);
    RelabelingKeepsAgreement(db, after, i, session);
    assert forall r :: LogOf(after, r) == LogOf(db, r);
    UneventfulKeepsAccepted(db, after, late);
    InboxesIgnoreTaskEvents(db, after);
    EvolvesIsReflexive(db, after);
  }

  lemma RelabelingKeepsOwned(db: Db, after: Db, i: nat, session: Option<SessionId>)
    requires Owned(db) && i < |db.assignments|
    requires after == db.(assignments := db.assignments[i := db.assignments[i].(session := session)])
    ensures Owned(after)
  {
    forall k | 0 <= k < |after.assignments|
      ensures Paired(after, k)
    {
      assert Paired(db, k);
    }
    forall t | IsInProgress(after, t)
      ensures exists k :: Live(after, k) && after.assignments[k].task == t
    {
      assert IsInProgress(db, t);
      var k :| Live(db, k) && db.assignments[k].task == t;
      assert Live(after, k);
    }
    assert forall k :: Live(after, k) <==> Live(db, k);
    assert forall t :: IsInProgress(db, t) ==> IsInProgress(after, t);
  }

  lemma RelabelingKeepsAgreement(db: Db, after: Db, i: nat, session: Option<SessionId>)
    requires LogsAgree(db) && i < |db.assignments|
    requires after == db.(assignments := db.assignments[i := db.assignments[i].(session := session)])
    ensures LogsAgree(after)
  {
    forall r
      ensures Tells(LogOf(after, r), after, r)
    {
      assert Tells(LogOf(db, r), db, r);
      forall a | NoAssignment(after, a)
        ensures NoAssignment(db, a)
      {
        assert forall k | 0 <= k < |db.assignments| :: after.assignments[k].id == db.assignments[k].id;
      }
    }
  }

  // ----- Every step, every history -----

  lemma CallIsSafe(db: Db, m: Mutation, fate: Fate, late: set<TaskId>)
    requires Safe(db, late)
    ensures Safe(Attempt(db, m, fate), late) && Evolved(db, Attempt(db, m, fate))
  {
    SameWorkIsSafe(db, db, late);
    EvolvesIsReflexive(db, db);
    if fate != FailsBeforeCommit && Mutate(db, m).Ok? {
      MutationKeepsWorkSafe(db, m, late);
      MutationCompletesItsOperation(db, m);
      MutationLeavesFencing(db, m);
      EvolvesIsReflexive(db, Mutate(db, m).value.0);
    }
  }

  lemma MutationLeavesFencing(db: Db, m: Mutation)
    requires Mutate(db, m).Ok?
    ensures var after := Mutate(db, m).value.0;
            && after.runs == db.runs && after.agents == db.agents && after.sessions == db.sessions
            && after.credentials == db.credentials && after.workspaces == db.workspaces
  {
    if m.command.Id() !in db.operations {
      ApplyLeavesTheRest(db.(operations := db.operations[m.command.Id() := Intent(m)]), m.command);
    }
  }

  lemma RewriteUpdatesWorkspaces(db: Db, id: AssignmentId, row: Workspace)
    requires id in db.workspaces && WorkspaceEvolves(db.workspaces[id], row)
    ensures UpdatesWorkspaces(db, db.(workspaces := db.workspaces[id := row]))
  {
  }

  lemma NoUpdateUpdatesWorkspaces(db: Db)
    ensures UpdatesWorkspaces(db, db)
  {
  }

  lemma StateRecordUpdates(db: Db, scope: AssignmentScope, resource: ResourceState)
    ensures UpdatesWorkspaces(db, RecordWorkspaceState(db, scope, resource).0)
  {
    hide AssignmentScopeCurrent, UpdatesWorkspaces;
    NoUpdateUpdatesWorkspaces(db);
    var w := WorkspaceForScope(db, scope);
    if w.Some? {
      RewriteUpdatesWorkspaces(db, scope.assignment, w.value.(state := resource));
    }
  }

  lemma ResultRecordUpdates(db: Db, scope: AssignmentScope, commit: Commit)
    ensures UpdatesWorkspaces(db, Committed(db, RecordResultCommit(db, scope, commit)))
  {
    hide AssignmentScopeCurrent, UpdatesWorkspaces;
    NoUpdateUpdatesWorkspaces(db);
    var w := WorkspaceForScope(db, scope);
    if w.Some? && w.value.result.None? {
      RewriteUpdatesWorkspaces(db, scope.assignment, w.value.(result := Some(commit)));
    }
  }

  lemma TargetRecordUpdates(db: Db, scope: AssignmentScope, commit: Commit)
    ensures UpdatesWorkspaces(db, Committed(db, RecordTargetCommit(db, scope, commit)))
  {
    hide AssignmentScopeCurrent, UpdatesWorkspaces;
    NoUpdateUpdatesWorkspaces(db);
    var w := WorkspaceForScope(db, scope);
    if w.Some? && w.value.target.None? {
      RewriteUpdatesWorkspaces(db, scope.assignment, w.value.(target := Some(commit)));
    }
  }

  /** The fenced workspace updates touch nothing else, and replace no recorded commit. */
  lemma WorkspaceStepsUpdate(db: Db, step: Step)
    requires step.WorkspaceSeen? || step.RecordResult? || step.RecordTarget?
    ensures UpdatesWorkspaces(db, Next(db, step))
  {
    hide UpdatesWorkspaces, RecordWorkspaceState, RecordResultCommit, RecordTargetCommit;
    match step
    case WorkspaceSeen(scope, resource) => StateRecordUpdates(db, scope, resource);
    case RecordResult(scope, commit) => ResultRecordUpdates(db, scope, commit);
    case RecordTarget(scope, commit) => TargetRecordUpdates(db, scope, commit);
    case _ =>
  }

  ghost predicate UpdatesWorkspaces(db: Db, after: Db) {
    && after == db.(workspaces := after.workspaces)
    && WorkspacesEvolve(db.workspaces, after.workspaces) && after.workspaces.Keys == db.workspaces.Keys
  }

  lemma WorkspaceStepIsSafe(db: Db, step: Step, late: set<TaskId>)
    requires Safe(db, late) && (step.WorkspaceSeen? || step.RecordResult? || step.RecordTarget?)
    ensures Safe(Next(db, step), late) && Evolved(db, Next(db, step))
  {
    WorkspaceStepsUpdate(db, step);
    WorkspaceUpdateIsSafe(db, Next(db, step), late);
  }

  /** A step that changes nothing is safe, and exempting more tasks keeps a state safe. */
  lemma StandingStillIsSafe(db: Db, late: set<TaskId>, more: set<TaskId>)
    requires Safe(db, late)
    ensures Safe(db, late + more) && Evolved(db, db)
  {
    SameWorkIsSafe(db, db, late + more);
    EvolvesIsReflexive(db, db);
  }

  lemma CoordinationIsSafe(db: Db, step: Step, late: set<TaskId>)
    requires Safe(db, late) && (step.AddWorkspace? || step.TakeOver?)
    ensures Safe(Next(db, step), late + LateTasks(db, step)) && Evolved(db, Next(db, step))
  {
    hide Safe, Evolved, RecordWorkspace, AssociateSession;
    StandingStillIsSafe(db, late, LateTasks(db, step));
    if step.AddWorkspace? && RecordWorkspace(db, step.workspace).Ok? {
      AddWorkspaceIsSafe(db, step.workspace, late);
    } else if step.TakeOver? && AssociateSession(db, step.assignment, step.taker).Ok? {
      TakeOverIsSafe(db, step.assignment, step.taker, late);
      assert late + LateTasks(db, step) == late;
    }
  }

  lemma StepIsSafe(db: Db, step: Step, late: set<TaskId>)
    requires Safe(db, late)
    ensures Safe(Next(db, step), late + LateTasks(db, step)) && Evolved(db, Next(db, step))
  {
    if step.AddWorkspace? || step.TakeOver? {
      CoordinationIsSafe(db, step, late);
    } else {
      assert late + LateTasks(db, step) == late;
      if IsFencingStep(step) {
        FencingStepsAreFenced(db, step);
        FencingStepsLeaveWorkAlone(db, step);
        hide Next;
        FencingStepIsSafe(db, Next(db, step), late);
      } else if step.Call? {
        CallIsSafe(db, step.mutation, step.fate, late);
      } else {
        WorkspaceStepIsSafe(db, step, late);
      }
    }
  }

  /** Any history keeps every invariant, and undoes nothing that is permanent. */
  lemma {:induction false} HistoriesAreSafe(db: Db, steps: seq<Step>, late: set<TaskId>)
    requires Safe(db, late)
    ensures Safe(After(db, steps), late + LateIn(db, steps)) && Evolved(db, After(db, steps))
    decreases |steps|
  {
    hide Safe, Evolved, Next, LateTasks;
    if steps == [] {
      StandingStillIsSafe(db, late, {});
    } else {
      var n := |steps| - 1;
      HistoriesAreSafe(db, steps[..n], late);
      OneMoreStepIsSafe(db, After(db, steps[..n]), steps[n], late + LateIn(db, steps[..n]));
      assert late + LateIn(db, steps) ==
        late + LateIn(db, steps[..n]) + LateTasks(After(db, steps[..n]), steps[n]);
    }
  }

  lemma OneMoreStepIsSafe(db: Db, before: Db, step: Step, late: set<TaskId>)
    requires Safe(before, late) && Evolved(db, before)
    ensures Safe(Next(before, step), late + LateTasks(before, step)) && Evolved(db, Next(before, step))
  {
    StepIsSafe(before, step, late);
    EvolvedIsTransitive(db, before, Next(before, step));
  }

  /** Every state the store can reach from an empty database satisfies the whole invariant. */
  lemma ReachableStatesAreSafe(steps: seq<Step>)
    ensures Safe(After(EMPTY_DB, steps), LateIn(EMPTY_DB, steps))
  {
    EmptyIsSafe();
    HistoriesAreSafe(EMPTY_DB, steps, {});
    assert {} + LateIn(EMPTY_DB, steps) == LateIn(EMPTY_DB, steps);
  }
}
