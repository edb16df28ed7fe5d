/** Agents, their session generations and session credentials (src/state.rs). */
module Sessions {
  import opened Bytes
  import opened Lifecycle
  import opened Database

  datatype SessionOutcome = SessionApplied | SessionUnchanged | SessionStale

  // ----- Runs and agents -----

  function InsertRun(db: Db, run: RunId): Result<Db> {
    if run in db.runs then Err(ConstraintViolation) else Ok(db.(runs := db.runs[run := true]))
  }

  function StopRun(db: Db, run: RunId): Result<Db> {
    if RunIsActive(db, run) then Ok(db.(runs := db.runs[run := false])) else Err(RunNotActive)
  }

  /** The last step of a run recovery. */
  function ReactivateRun(db: Db, run: RunId): Db {
    if run in db.runs then db.(runs := db.runs[run := true]) else db
  }

  function InsertAgent(db: Db, id: AgentId, run: RunId, generation: int): Result<Db> {
    if id in db.agents || run !in db.runs || generation < 0 then Err(ConstraintViolation)
    else Ok(db.(agents := db.agents[id := Agent(run, generation, Starting)]))
  }

  /** A replacement generation starts only once the previous one is terminal. */
  function StartGeneration(db: Db, run: RunId, agent: AgentId, current: int, next: int): (Db, bool) {
    if !AgentInRun(db, agent, run) || db.agents[agent].generation != current
       || !db.agents[agent].state.IsTerminal() || next <= current
    then (db, false)
    else (db.(agents := db.agents[agent := Agent(run, next, Starting)]), true)
  }

  // ----- Sessions -----

  datatype SessionInput = SessionInput(
    session: SessionId, run: RunId, agent: AgentId, generation: int, owner: ProcessOwner, reconciliation: ResourceState)

  function InsertSession(db: Db, input: SessionInput): Result<Db> {
    if input.session in db.sessions || !AgentInRun(db, input.agent, input.run) || input.generation < 0
       || (exists s | s in db.sessions ::
             db.sessions[s].agent == input.agent && db.sessions[s].generation == input.generation)
    then Err(ConstraintViolation)
    else Ok(db.(sessions := db.sessions[input.session := Session(
      input.run, input.agent, input.generation, input.owner, None, input.reconciliation, Starting, None)]))
  }

  /** Durable ownership, checked before provider data or control is accepted. */
  predicate SessionScopeCurrent(db: Db, scope: SessionScope) {
    && scope.session in db.sessions
    && var session := db.sessions[scope.session];
       && session.run == scope.run && session.agent == scope.agent && session.generation == scope.generation
       && AgentInRun(db, scope.agent, scope.run) && db.agents[scope.agent].generation == scope.generation
       && RunIsActive(db, scope.run) && scope.session !in db.recoveredSessions
  }

  function RecordLaunch(db: Db, scope: SessionScope, provider: string): (Db, SessionOutcome) {
    if !SessionScopeCurrent(db, scope) then (db, SessionStale)
    else
      var session := db.sessions[scope.session];
      if session.reconciliation == Observed && session.provider == Some(provider) then (db, SessionUnchanged)
      else (db.(sessions := db.sessions[scope.session :=
              session.(provider := Some(provider), reconciliation := Observed)]), SessionApplied)
  }

  function RecordSessionReconciliation(db: Db, scope: SessionScope, state: ResourceState): (Db, SessionOutcome) {
    if !SessionScopeCurrent(db, scope) then (db, SessionStale)
    else if db.sessions[scope.session].reconciliation == state then (db, SessionUnchanged)
    else (db.(sessions := db.sessions[scope.session := db.sessions[scope.session].(reconciliation := state)]),
          SessionApplied)
  }

  /** A wrapper's reaped exit refines an earlier conclusion that its process was lost. */
  predicate IsForegroundExit(session: Session, observed: LifecycleState) {
    session.owner == Foreground && session.state == Lost && observed == Exited
  }

  function Revoked(db: Db, which: set<SessionId>, at: Time): map<SessionId, Credential> {
    map s | s in db.credentials ::
      if s in which && db.credentials[s].revoked.None? then db.credentials[s].(revoked := Some(at))
      else db.credentials[s]
  }

  /** A revocation may not be dated before the credential it revokes. */
  predicate RevocationAllowed(db: Db, which: set<SessionId>, at: Time) {
    forall s | s in which && s in db.credentials && db.credentials[s].revoked.None? :: db.credentials[s].createdAt <= at
  }

  /** Applies an observation only to the session and agent generation it owns. */
  function RecordLifecycle(
      db: Db, scope: SessionScope, observed: LifecycleState, at: Time): Result<(Db, SessionOutcome)>
  {
    if !SessionScopeCurrent(db, scope) then Ok((db, SessionStale))
    else
      var session, agent := db.sessions[scope.session], db.agents[scope.agent];
      if agent.state != session.state then Err(InconsistentSessionLifecycle)
      else if session.state == observed then Ok((db, SessionUnchanged))
      else if !session.state.Allows(observed) && !IsForegroundExit(session, observed)
      then Err(InvalidSessionTransition)
      else
        var terminal := observed.IsTerminal();
        if terminal && !RevocationAllowed(db, {scope.session}, at) then Err(ConstraintViolation)
        else Ok((db.(
          sessions := db.sessions[scope.session :=
            session.(state := observed, ended := if terminal then Some(at) else None)],
          agents := db.agents[scope.agent := agent.(state := observed)],
          credentials := if terminal then Revoked(db, {scope.session}, at) else db.credentials), SessionApplied))
  }

  // ----- Credentials -----

  datatype CredentialInput = CredentialInput(
    scope: SessionScope, verifier: string, createdAt: Time, revoked: Option<Time>)

  function CredentialsOf(db: Db, run: RunId, agent: AgentId): set<SessionId> {
    set s | s in db.credentials && db.credentials[s].run == run && db.credentials[s].agent == agent
  }

  /** Replaces an agent's active credential with the verifier for a new session. */
  function ActivateCredential(db: Db, input: CredentialInput): Result<Db> {
    var previous := CredentialsOf(db, input.scope.run, input.scope.agent);
    if input.revoked.Some? then Err(CredentialAlreadyRevoked)
    else if !SessionScopeCurrent(db, input.scope) then Err(InconsistentSessionLifecycle)
    else if !RevocationAllowed(db, previous, input.createdAt) || input.scope.session in db.credentials
    then Err(ConstraintViolation)
    else Ok(db.(credentials := Revoked(db, previous, input.createdAt)[input.scope.session := Credential(
      input.scope.run, input.scope.agent, input.scope.generation, input.verifier, input.createdAt, None)]))
  }

  predicate ReplacesCredential(db: Db, input: CredentialInput) {
    && input.scope.session in db.credentials
    && var stored := db.credentials[input.scope.session];
       && stored.run == input.scope.run && stored.agent == input.scope.agent
       && stored.generation == input.scope.generation && stored.revoked.None?
       && input.scope.session in db.sessions && db.sessions[input.scope.session].reconciliation == Desired
  }

  /** Rotates a verifier only while its launch remains a known desired intent. */
  function ReplaceDesiredCredential(db: Db, input: CredentialInput): Result<Db> {
    if input.revoked.Some? then Err(CredentialAlreadyRevoked)
    else if !ReplacesCredential(db, input) then Err(InconsistentSessionLifecycle)
    else Ok(db.(credentials := db.credentials[input.scope.session :=
      db.credentials[input.scope.session].(verifier := input.verifier, createdAt := input.createdAt)]))
  }

  /** Only the unrevoked credential of an agent's current, unended generation in an active run resolves. */
  predicate Resolves(db: Db, run: RunId, agent: AgentId, session: SessionId) {
    && session in db.credentials && session in db.sessions && AgentInRun(db, agent, run) && RunIsActive(db, run)
    && var credential, row := db.credentials[session], db.sessions[session];
       && credential.run == row.run == run && credential.agent == row.agent == agent
       && credential.generation == row.generation == db.agents[agent].generation
       && credential.revoked.None? && row.ended.None?
  }
}
