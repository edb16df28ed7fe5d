/** Workspace records, their write-once commits, and the sessions that take over assignments (src/state.rs). */
module Workspaces {
  import opened Bytes
  import opened Tables
  import opened Lifecycle
  import opened Database
  import opened Sessions

  datatype ResourceOutcome = ResourceApplied | ResourceUnchanged | ResourceStale

  function AssignmentRow(db: Db, id: AssignmentId): (i: Option<nat>)
    ensures i.Some? ==> i.value < |db.assignments| && db.assignments[i.value].id == id
    ensures i.None? ==> forall k | 0 <= k < |db.assignments| :: db.assignments[k].id != id
  {
    First(db.assignments, (a: Assignment) => a.id == id)
  }

  // ----- Recording a workspace -----

  datatype WorkspaceInput = WorkspaceInput(
    scope: AssignmentScope, project: ProjectId, kind: WorkspaceKind, base: Option<Commit>, state: ResourceState)

  /** The insert trigger: a workspace belongs to an assignment of its generation and to its task's project. */
  predicate OwnsWorkspace(db: Db, input: WorkspaceInput) {
    var i := AssignmentRow(db, input.scope.assignment);
    && i.Some?
    && var a := db.assignments[i.value];
       && a.run == input.scope.run && a.generation == input.scope.generation
       && TaskInRun(db, a.task, a.run) && db.tasks[a.task].project == input.project
  }

  function RecordWorkspace(db: Db, input: WorkspaceInput): Result<Db> {
    if input.scope.assignment in db.workspaces || !OwnsWorkspace(db, input) then Err(ConstraintViolation)
    else Ok(db.(workspaces := db.workspaces[input.scope.assignment := Workspace(
      input.scope.run, input.project, input.scope.generation, input.kind, input.state, input.base, None, None)]))
  }

  // ----- Fenced updates -----

  predicate AssignmentScopeCurrent(db: Db, scope: AssignmentScope) {
    var i := AssignmentRow(db, scope.assignment);
    && i.Some?
    && var a := db.assignments[i.value];
       && a.run == scope.run && a.generation == scope.generation
       && AgentInRun(db, a.agent, a.run) && db.agents[a.agent].generation == scope.generation
       && RunIsActive(db, a.run)
       && (a.session.None? || SessionOwns(db, a.session.value, a))
       && scope.assignment !in db.recoveredAssignments
  }

  predicate SessionOwns(db: Db, s: SessionId, a: Assignment) {
    && s in db.sessions && db.sessions[s].run == a.run
    && db.sessions[s].agent == a.agent && db.sessions[s].generation == a.generation
  }

  /** The workspace, while its immutable ownership remains current. */
  function WorkspaceForScope(db: Db, scope: AssignmentScope): (w: Option<Workspace>)
    ensures w.Some? ==> scope.assignment in db.workspaces && db.workspaces[scope.assignment] == w.value
  {
    if AssignmentScopeCurrent(db, scope) && scope.assignment in db.workspaces
       && db.workspaces[scope.assignment].run == scope.run
       && db.workspaces[scope.assignment].generation == scope.generation
    then Some(db.workspaces[scope.assignment]) else None
  }

  function RecordWorkspaceState(db: Db, scope: AssignmentScope, state: ResourceState): (Db, ResourceOutcome) {
    var w := WorkspaceForScope(db, scope);
    if w.None? then (db, ResourceStale)
    else if w.value.state == state then (db, ResourceUnchanged)
    else (db.(workspaces := db.workspaces[scope.assignment := w.value.(state := state)]), ResourceApplied)
  }

  function RecordResultCommit(db: Db, scope: AssignmentScope, commit: Commit): Result<(Db, ResourceOutcome)> {
    var w := WorkspaceForScope(db, scope);
    if w.None? then Ok((db, ResourceStale))
    else match w.value.result
      case Some(recorded) => if recorded == commit then Ok((db, ResourceUnchanged)) else Err(WorkspaceConflict)
      case None =>
        Ok((db.(workspaces := db.workspaces[scope.assignment := w.value.(result := Some(commit))]), ResourceApplied))
  }

  function RecordTargetCommit(db: Db, scope: AssignmentScope, commit: Commit): Result<(Db, ResourceOutcome)> {
    var w := WorkspaceForScope(db, scope);
    if w.None? then Ok((db, ResourceStale))
    else match w.value.target
      case Some(recorded) => if recorded == commit then Ok((db, ResourceUnchanged)) else Err(WorkspaceConflict)
      case None =>
        Ok((db.(workspaces := db.workspaces[scope.assignment := w.value.(target := Some(commit))]), ResourceApplied))
  }

  // ----- Sessions taking over assignments -----

  predicate MayAssociate(db: Db, id: AssignmentId, session: SessionId) {
    var i := AssignmentRow(db, id);
    && i.Some? && session in db.sessions
    && var a, s := db.assignments[i.value], db.sessions[session];
       && a.run == s.run && a.agent == s.agent && a.generation == s.generation && !s.state.IsTerminal()
       && SessionScopeCurrent(db, SessionScope(s.run, s.agent, session, s.generation))
  }

  function AssociateSession(db: Db, id: AssignmentId, session: SessionId): Result<Db> {
    if !MayAssociate(db, id, session) then Err(CorruptAssignmentState)
    else
      var i := AssignmentRow(db, id).value;
      if db.assignments[i].session.Some? || db.assignments[i].completed.Some? then Err(CorruptAssignmentState)
      else Ok(db.(assignments := db.assignments[i := db.assignments[i].(session := Some(session))]))
  }

  // ----- What a history can and cannot change -----

  /** Ownership, kind and base never change, and a recorded commit is never replaced. */
  ghost predicate WorkspaceEvolves(before: Workspace, after: Workspace) {
    && after.run == before.run && after.project == before.project && after.generation == before.generation
    && after.kind == before.kind && after.base == before.base
    && (before.result.Some? ==> after.result == before.result)
    && (before.target.Some? ==> after.target == before.target)
  }

  ghost predicate WorkspacesEvolve(before: map<AssignmentId, Workspace>, after: map<AssignmentId, Workspace>) {
    forall id | id in before :: id in after && WorkspaceEvolves(before[id], after[id])
  }

  lemma WorkspacesEvolveTransitively(
      a: map<AssignmentId, Workspace>, b: map<AssignmentId, Workspace>, c: map<AssignmentId, Workspace>)
    requires WorkspacesEvolve(a, b) && WorkspacesEvolve(b, c)
    ensures WorkspacesEvolve(a, c)
  {
    forall id | id in a
      ensures id in c && WorkspaceEvolves(a[id], c[id])
    {
      assert WorkspaceEvolves(a[id], b[id]) && WorkspaceEvolves(b[id], c[id]);
    }
  }

  /**
   * A commit record succeeds or repeats exactly when it agrees with what is stored; a second, different
   * commit is refused, and a stale scope changes nothing.
   */
  lemma TargetsAreWrittenOnce(db: Db, scope: AssignmentScope, first: Commit, second: Commit)
    requires RecordTargetCommit(db, scope, first).Ok? && !RecordTargetCommit(db, scope, first).value.1.ResourceStale?
    ensures var after := RecordTargetCommit(db, scope, first).value.0;
            RecordTargetCommit(after, scope, second) ==
              if second == first then Ok((after, ResourceUnchanged)) else Err(WorkspaceConflict)
  {
    hide AssignmentScopeCurrent;
    ScopesIgnoreWorkspaces(db, RecordTargetCommit(db, scope, first).value.0, scope);
  }

  /** The same for result commits: the first one recorded stands. */
  lemma ResultsAreWrittenOnce(db: Db, scope: AssignmentScope, first: Commit, second: Commit)
    requires RecordResultCommit(db, scope, first).Ok? && !RecordResultCommit(db, scope, first).value.1.ResourceStale?
    ensures var after := RecordResultCommit(db, scope, first).value.0;
            RecordResultCommit(after, scope, second) ==
              if second == first then Ok((after, ResourceUnchanged)) else Err(WorkspaceConflict)
  {
    hide AssignmentScopeCurrent;
    ScopesIgnoreWorkspaces(db, RecordResultCommit(db, scope, first).value.0, scope);
  }

  /** A record touches one column of one workspace: a result, a target or a state as it was given. */
  lemma RecordsAreLocal(db: Db, scope: AssignmentScope, commit: Commit, state: ResourceState)
    ensures var (after, outcome) := RecordWorkspaceState(db, scope, state);
            && (!outcome.ResourceApplied? ==> after == db)
            && (outcome.ResourceApplied? ==>
                  && scope.assignment in db.workspaces
                  && after == db.(workspaces := db.workspaces[scope.assignment := db.workspaces[scope.assignment].(state := state)]))
    ensures RecordResultCommit(db, scope, commit).Ok? ==>
              var (after, outcome) := RecordResultCommit(db, scope, commit).value;
              && (!outcome.ResourceApplied? ==> after == db)
              && (outcome.ResourceApplied? ==>
                    && scope.assignment in db.workspaces && db.workspaces[scope.assignment].result.None?
                    && after == db.(workspaces :=
                         db.workspaces[scope.assignment := db.workspaces[scope.assignment].(result := Some(commit))]))
    ensures RecordTargetCommit(db, scope, commit).Ok? ==>
              var (after, outcome) := RecordTargetCommit(db, scope, commit).value;
              && (!outcome.ResourceApplied? ==> after == db)
              && (outcome.ResourceApplied? ==>
                    && scope.assignment in db.workspaces && db.workspaces[scope.assignment].target.None?
                    && after == db.(workspaces :=
                         db.workspaces[scope.assignment := db.workspaces[scope.assignment].(target := Some(commit))]))
  {
    hide AssignmentScopeCurrent;
  }

  /**
   * Exactly which scopes can write: those of a recorded workspace of the same run and generation, while the
   * assignment's agent is still at that generation in an active run, the session that took the assignment over, if
   * any, is of that generation too, and the assignment was not recovered.
   */
  lemma ScopesWriteExactly(db: Db, scope: AssignmentScope, i: nat, state: ResourceState)
    requires AssignmentRow(db, scope.assignment) == Some(i)
    ensures var a := db.assignments[i];
            RecordWorkspaceState(db, scope, state) != (db, ResourceStale) <==>
              && a.run == scope.run && a.generation == scope.generation
              && a.agent in db.agents && db.agents[a.agent].run == a.run && db.agents[a.agent].generation == a.generation
              && a.run in db.runs && db.runs[a.run] && scope.assignment !in db.recoveredAssignments
              && (a.session.Some? ==>
                    var s := a.session.value;
                    && s in db.sessions && db.sessions[s].run == a.run && db.sessions[s].agent == a.agent
                    && db.sessions[s].generation == a.generation)
              && scope.assignment in db.workspaces && db.workspaces[scope.assignment].run == scope.run
              && db.workspaces[scope.assignment].generation == scope.generation
  {
  }

  /** When a workspace is recorded, once per assignment, with the values given and no commit yet. */
  lemma WorkspacesAreRecordedExactly(db: Db, input: WorkspaceInput)
    ensures RecordWorkspace(db, input).Ok? <==>
              && input.scope.assignment !in db.workspaces
              && match AssignmentRow(db, input.scope.assignment)
                 case None => false
                 case Some(i) =>
                   var a := db.assignments[i];
                   && a.run == input.scope.run && a.generation == input.scope.generation
                   && a.task in db.tasks && db.tasks[a.task].run == a.run && db.tasks[a.task].project == input.project
    ensures RecordWorkspace(db, input).Ok? ==>
              RecordWorkspace(db, input).value == db.(workspaces := db.workspaces[input.scope.assignment := Workspace(
                input.scope.run, input.project, input.scope.generation, input.kind, input.state, input.base, None, None)])
  {
  }

  /** A record of a state says whether it was news. */
  lemma StatesAreRecordedExactly(db: Db, scope: AssignmentScope, state: ResourceState)
    requires WorkspaceForScope(db, scope).Some?
    ensures RecordWorkspaceState(db, scope, state).1 ==
              if WorkspaceForScope(db, scope).value.state == state then ResourceUnchanged else ResourceApplied
  {
  }

  /**
   * A session takes an open assignment over exactly if nobody did before and it is a live, current, unrecovered
   * session of the assignment's run, agent and generation in an active run.
   */
  lemma SessionsTakeOverExactly(db: Db, id: AssignmentId, session: SessionId, i: nat)
    requires AssignmentRow(db, id) == Some(i)
    ensures var a := db.assignments[i];
            AssociateSession(db, id, session).Ok? <==>
              && a.session.None? && a.completed.None?
              && session in db.sessions && session !in db.recoveredSessions
              && db.sessions[session].state in {Starting, Running, Unknown}
              && db.sessions[session].run == a.run && db.sessions[session].agent == a.agent
              && db.sessions[session].generation == a.generation
              && a.agent in db.agents && db.agents[a.agent].run == a.run && db.agents[a.agent].generation == a.generation
              && a.run in db.runs && db.runs[a.run]
    ensures AssociateSession(db, id, session).Ok? ==>
              AssociateSession(db, id, session).value ==
                db.(assignments := db.assignments[i := db.assignments[i].(session := Some(session))])
  {
  }

  /** Whether a scope is current does not depend on what workspaces record. */
  lemma ScopesIgnoreWorkspaces(db: Db, after: Db, scope: AssignmentScope)
    requires after == db.(workspaces := after.workspaces)
    ensures AssignmentScopeCurrent(after, scope) <==> AssignmentScopeCurrent(db, scope)
  {
    assert AssignmentRow(after, scope.assignment) == AssignmentRow(db, scope.assignment);
  }

  /** A session or generation replaced since the scope was issued can no longer write. */
  lemma ReplacedGenerationsCannotWrite(db: Db, scope: AssignmentScope, state: ResourceState, commit: Commit)
    requires AssignmentRow(db, scope.assignment).Some?
    requires var agent := db.assignments[AssignmentRow(db, scope.assignment).value].agent;
             agent in db.agents && db.agents[agent].generation != scope.generation
    ensures RecordWorkspaceState(db, scope, state) == (db, ResourceStale)
    ensures RecordResultCommit(db, scope, commit) == Ok((db, ResourceStale))
    ensures RecordTargetCommit(db, scope, commit) == Ok((db, ResourceStale))
  {
  }
}
