/** Generation fencing: what every step keeps, and what can never come back (src/state.rs). */
module Fencing {
  import opened Bytes
  import opened Lifecycle
  import opened Database
  import opened Sessions

  // ----- The invariant of one state -----

  /** A session belongs to an agent of its run, and ends exactly when its state is terminal. */
  ghost predicate SessionFits(agents: map<AgentId, Agent>, session: Session) {
    && session.agent in agents && agents[session.agent].run == session.run
    && (session.ended.Some? <==> session.state.IsTerminal())
    && var agent := agents[session.agent];
       && (session.generation == agent.generation ==> session.state == agent.state)
       && (session.generation > agent.generation ==> session.state == Starting)
  }

  ghost predicate IsCurrent(agents: map<AgentId, Agent>, session: Session, agent: AgentId)
    requires agent in agents
  {
    session.agent == agent && session.generation == agents[agent].generation
  }

  ghost predicate HasCurrentSession(agents: map<AgentId, Agent>, sessions: map<SessionId, Session>, agent: AgentId)
    requires agent in agents
  {
    exists s :: s in sessions && IsCurrent(agents, sessions[s], agent)
  }

  ghost predicate SessionsFit(agents: map<AgentId, Agent>, sessions: map<SessionId, Session>) {
    && (forall s | s in sessions :: SessionFits(agents, sessions[s]))
    && (forall s, t | s in sessions && t in sessions && s != t ::
          sessions[s].agent == sessions[t].agent ==> sessions[s].generation != sessions[t].generation)
    && (forall a | a in agents :: HasCurrentSession(agents, sessions, a) || agents[a].state == Starting)
  }

  ghost predicate CredentialFits(sessions: map<SessionId, Session>, s: SessionId, credential: Credential) {
    && s in sessions && credential.run == sessions[s].run && credential.agent == sessions[s].agent
    && credential.generation == sessions[s].generation
  }

  ghost predicate CredentialsFit(sessions: map<SessionId, Session>, credentials: map<SessionId, Credential>) {
    && (forall s | s in credentials :: CredentialFits(sessions, s, credentials[s]))
    && (forall s, t | s in credentials && t in credentials && s != t ::
          credentials[s].revoked.None? && credentials[t].revoked.None? ==> credentials[s].agent != credentials[t].agent)
  }

  ghost predicate Fenced(db: Db) {
    SessionsFit(db.agents, db.sessions) && CredentialsFit(db.sessions, db.credentials)
  }

  /** An agent's state is the state of its current-generation session. */
  lemma AgentMirrorsItsSession(db: Db, s: SessionId)
    requires Fenced(db) && s in db.sessions
    ensures AgentInRun(db, db.sessions[s].agent, db.sessions[s].run)
    ensures db.sessions[s].generation == db.agents[db.sessions[s].agent].generation ==>
              db.sessions[s].state == db.agents[db.sessions[s].agent].state
  {
    assert SessionFits(db.agents, db.sessions[s]);
  }

  /** At most one session of an agent resolves to a credential. */
  lemma OneSessionResolves(db: Db, run: RunId, agent: AgentId, s: SessionId, t: SessionId)
    requires Fenced(db) && Resolves(db, run, agent, s) && Resolves(db, run, agent, t)
    ensures s == t
  {
  }

  /** A lifecycle observation never finds the agent and its session in different states. */
  lemma LifecycleIsNeverInconsistent(db: Db, scope: SessionScope, observed: LifecycleState, at: Time)
    requires Fenced(db)
    ensures RecordLifecycle(db, scope, observed, at) != Err(InconsistentSessionLifecycle)
  {
    if SessionScopeCurrent(db, scope) {
      assert SessionFits(db.agents, db.sessions[scope.session]);
    }
  }

  /** Resolution requires a live session: one that is neither ended nor replaced. */
  lemma ResolvedSessionsAreLive(db: Db, run: RunId, agent: AgentId, s: SessionId)
    requires Fenced(db) && Resolves(db, run, agent, s)
    ensures !Retired(db, s) && db.sessions[s].state in {Starting, Running, Unknown}
    ensures db.agents[agent].state == db.sessions[s].state
  {
    assert SessionFits(db.agents, db.sessions[s]);
  }

  // ----- What a history can and cannot change -----

  /** The session has ended, or its agent has moved past its generation. */
  ghost predicate Retired(db: Db, s: SessionId) {
    && s in db.sessions
    && (|| db.sessions[s].ended.Some?
        || (db.sessions[s].agent in db.agents
            && db.agents[db.sessions[s].agent].generation > db.sessions[s].generation))
  }

  ghost predicate SessionEvolves(before: Session, after: Session) {
    && after.run == before.run && after.agent == before.agent
    && after.generation == before.generation && after.owner == before.owner
    && (before.state.IsTerminal() ==> after.state == before.state || IsForegroundExit(before, after.state))
    && (before.ended.Some? ==> after.ended.Some?)
  }

  /** Generations never decrease, terminal sessions are final, and revocations are permanent. */
  ghost predicate AgentsEvolve(before: map<AgentId, Agent>, after: map<AgentId, Agent>) {
    forall a | a in before ::
      a in after && after[a].run == before[a].run && after[a].generation >= before[a].generation
  }

  ghost predicate SessionsEvolve(before: map<SessionId, Session>, after: map<SessionId, Session>) {
    forall s | s in before :: s in after && SessionEvolves(before[s], after[s])
  }

  ghost predicate CredentialsEvolve(before: map<SessionId, Credential>, after: map<SessionId, Credential>) {
    forall s | s in before :: s in after && (before[s].revoked.Some? ==> after[s] == before[s])
  }

  ghost predicate Evolves(db: Db, after: Db) {
    && AgentsEvolve(db.agents, after.agents) && SessionsEvolve(db.sessions, after.sessions)
    && CredentialsEvolve(db.credentials, after.credentials)
  }

  lemma EvolvesIsTransitive(a: Db, b: Db, c: Db)
    requires Evolves(a, b) && Evolves(b, c)
    ensures Evolves(a, c)
  {
    forall s | s in a.sessions
      ensures s in c.sessions && SessionEvolves(a.sessions[s], c.sessions[s])
    {
      assert SessionEvolves(a.sessions[s], b.sessions[s]) && SessionEvolves(b.sessions[s], c.sessions[s]);
    }
  }

  /** Once a session is retired, no history makes its credential resolve again. */
  lemma RetiredNeverResolves(db: Db, after: Db, run: RunId, agent: AgentId, s: SessionId)
    requires Evolves(db, after) && Retired(db, s)
    ensures Retired(after, s) && !Resolves(after, run, agent, s)
  {
    assert SessionEvolves(db.sessions[s], after.sessions[s]);
  }

  /** A revoked credential stays revoked. */
  lemma RevokedNeverResolves(db: Db, after: Db, run: RunId, agent: AgentId, s: SessionId)
    requires Evolves(db, after) && s in db.credentials && db.credentials[s].revoked.Some?
    ensures !Resolves(after, run, agent, s)
  {
  }

  /** A terminal observation retires its session. */
  lemma EndingRetires(db: Db, scope: SessionScope, observed: LifecycleState, at: Time)
    requires Fenced(db) && observed.IsTerminal()
    requires RecordLifecycle(db, scope, observed, at).Ok?
    ensures !RecordLifecycle(db, scope, observed, at).value.1.SessionStale? ==>
              Retired(RecordLifecycle(db, scope, observed, at).value.0, scope.session)
  {
    if SessionScopeCurrent(db, scope) {
      assert SessionFits(db.agents, db.sessions[scope.session]);
    }
  }

  /** An applied observation of an ended session: it ends then, loses its credential, and resolves for nobody. */
  lemma EndedSessionsLoseTheirCredential(
      db: Db, scope: SessionScope, observed: LifecycleState, at: Time, run: RunId, agent: AgentId)
    requires observed in {Exited, Lost, Quarantined}
    requires RecordLifecycle(db, scope, observed, at).Ok? && RecordLifecycle(db, scope, observed, at).value.1.SessionApplied?
    ensures var after, s := RecordLifecycle(db, scope, observed, at).value.0, scope.session;
            && s in db.sessions && s in after.sessions
            && after.sessions[s] == db.sessions[s].(state := observed, ended := Some(at))
            && (s in db.credentials ==>
                  && s in after.credentials && after.credentials[s].revoked.Some?
                  && (db.credentials[s].revoked.None? ==> after.credentials[s].revoked == Some(at)))
            && !Resolves(after, run, agent, s)
  {
  }

  /** An applied observation of a live session: it stays unended, and every credential stays as it was. */
  lemma LiveSessionsKeepTheirCredential(db: Db, scope: SessionScope, observed: LifecycleState, at: Time)
    requires observed in {Running, Unknown}
    requires RecordLifecycle(db, scope, observed, at).Ok? && RecordLifecycle(db, scope, observed, at).value.1.SessionApplied?
    ensures var after, s := RecordLifecycle(db, scope, observed, at).value.0, scope.session;
            && s in db.sessions && s in after.sessions
            && after.sessions[s] == db.sessions[s].(state := observed, ended := None)
            && after.credentials == db.credentials
  {
  }

  /** Only the session observed and its agent change state, and no credential but that session's. */
  lemma ObservationsAreLocal(db: Db, scope: SessionScope, observed: LifecycleState, at: Time)
    requires RecordLifecycle(db, scope, observed, at).Ok?
    ensures var (after, outcome) := RecordLifecycle(db, scope, observed, at).value;
            && (!outcome.SessionApplied? ==> after == db)
            && after == db.(sessions := after.sessions, agents := after.agents, credentials := after.credentials)
            && after.sessions.Keys == db.sessions.Keys && after.agents.Keys == db.agents.Keys
            && after.credentials.Keys == db.credentials.Keys
            && (forall s | s in db.sessions && s != scope.session :: after.sessions[s] == db.sessions[s])
            && (forall s | s in db.credentials && s != scope.session :: after.credentials[s] == db.credentials[s])
            && (forall a | a in db.agents && a != scope.agent :: after.agents[a] == db.agents[a])
            && (outcome.SessionApplied? ==>
                  scope.agent in db.agents && after.agents[scope.agent] == db.agents[scope.agent].(state := observed))
  {
  }

  /**
   * Exactly which observations are applied: those of a current session, by its own unrecovered generation in an
   * active run, that are news; any other state may follow a live one except a new start, and an exit may follow a
   * foreground loss.
   */
  lemma ObservationsAreAppliedExactly(db: Db, scope: SessionScope, observed: LifecycleState, at: Time)
    requires Fenced(db)
    ensures var result := RecordLifecycle(db, scope, observed, at);
            var current :=
              && scope.session in db.sessions && db.sessions[scope.session].run == scope.run
              && db.sessions[scope.session].agent == scope.agent && db.sessions[scope.session].generation == scope.generation
              && scope.agent in db.agents && db.agents[scope.agent].run == scope.run
              && db.agents[scope.agent].generation == scope.generation
              && scope.run in db.runs && db.runs[scope.run] && scope.session !in db.recoveredSessions;
            && (result == Ok((db, SessionStale)) <==> !current)
            && (current ==>
                  var session := db.sessions[scope.session];
                  && (result == Ok((db, SessionUnchanged)) <==> observed == session.state)
                  && (result == Err(InvalidSessionTransition) <==>
                        && observed != session.state
                        && (session.state in {Exited, Lost, Quarantined} || observed == Starting)
                        && !(session.owner == Foreground && session.state == Lost && observed == Exited))
                  && (result == Err(ConstraintViolation) ==>
                        scope.session in db.credentials && at < db.credentials[scope.session].createdAt))
  {
    if SessionScopeCurrent(db, scope) {
      assert SessionFits(db.agents, db.sessions[scope.session]);
    }
  }

  /** A session in an ended state resolves for nobody. */
  lemma EndedSessionsResolveForNobody(db: Db, run: RunId, agent: AgentId, s: SessionId)
    requires Fenced(db) && s in db.sessions && db.sessions[s].state in {Exited, Lost, Quarantined}
    ensures db.sessions[s].ended.Some? && !Resolves(db, run, agent, s)
  {
    assert SessionFits(db.agents, db.sessions[s]);
  }

  /**
   * Exactly which credentials resolve: the unrevoked one of the agent's current generation, issued to that session
   * and generation, while the session lives and the run is active.
   */
  lemma CredentialsResolveExactly(db: Db, run: RunId, agent: AgentId, s: SessionId)
    requires Fenced(db)
    ensures Resolves(db, run, agent, s) <==>
              && s in db.sessions && db.sessions[s].run == run && db.sessions[s].agent == agent
              && db.sessions[s].generation == db.agents[agent].generation
              && db.sessions[s].state in {Starting, Running, Unknown}
              && s in db.credentials && db.credentials[s].revoked.None? && run in db.runs && db.runs[run]
  {
    if s in db.sessions {
      assert SessionFits(db.agents, db.sessions[s]);
      assert s in db.credentials ==> CredentialFits(db.sessions, s, db.credentials[s]);
    }
  }

  /** A new generation is started exactly for an agent of the run that is at the expected one and has ended. */
  lemma GenerationsStartExactly(db: Db, run: RunId, agent: AgentId, current: int, next: int)
    ensures var (after, started) := StartGeneration(db, run, agent, current, next);
            && (started <==>
                  && agent in db.agents && db.agents[agent].run == run && db.agents[agent].generation == current
                  && db.agents[agent].state in {Exited, Lost, Quarantined} && next > current)
            && after == if started then db.(agents := db.agents[agent := Agent(run, next, Starting)]) else db
  {
  }

  /** A new generation retires every session the agent has had so far. */
  lemma ReplacementRetires(db: Db, run: RunId, agent: AgentId, current: int, next: int, s: SessionId)
    requires Fenced(db) && s in db.sessions && db.sessions[s].agent == agent && db.sessions[s].generation <= current
    requires StartGeneration(db, run, agent, current, next).1
    ensures Retired(StartGeneration(db, run, agent, current, next).0, s)
  {
  }

  /** A fresh credential resolves exactly if its session has not ended, and displaces all others of the agent. */
  lemma ActivationResolves(db: Db, input: CredentialInput, other: SessionId)
    requires Fenced(db) && ActivateCredential(db, input).Ok?
    ensures var scope, after := input.scope, ActivateCredential(db, input).value;
            && (Resolves(after, scope.run, scope.agent, scope.session) <==> db.sessions[scope.session].ended.None?)
            && (other != scope.session ==> !Resolves(after, scope.run, scope.agent, other))
  {
    RevocationKeepsFit(db, db.sessions, CredentialsOf(db, input.scope.run, input.scope.agent), input.createdAt);
  }

  // ----- Every step keeps the invariant -----

  lemma InsertAgentKeepsFenced(db: Db, id: AgentId, run: RunId, generation: int)
    requires Fenced(db) && InsertAgent(db, id, run, generation).Ok?
    ensures Fenced(InsertAgent(db, id, run, generation).value) && Evolves(db, InsertAgent(db, id, run, generation).value)
  {
    var agents := InsertAgent(db, id, run, generation).value.agents;
    forall s | s in db.sessions
      ensures SessionFits(agents, db.sessions[s])
    {
      assert SessionFits(db.agents, db.sessions[s]);
    }
    forall a | a in db.agents && HasCurrentSession(db.agents, db.sessions, a)
      ensures HasCurrentSession(agents, db.sessions, a)
    {
      var s :| s in db.sessions && IsCurrent(db.agents, db.sessions[s], a);
      assert IsCurrent(agents, db.sessions[s], a);
    }
  }

  lemma StartGenerationKeepsFenced(db: Db, run: RunId, agent: AgentId, current: int, next: int)
    requires Fenced(db)
    ensures Fenced(StartGeneration(db, run, agent, current, next).0)
    ensures Evolves(db, StartGeneration(db, run, agent, current, next).0)
  {
    if StartGeneration(db, run, agent, current, next).1 {
      RestartKeepsFit(db.agents, db.sessions, agent, next);
    }
  }

  lemma RestartKeepsFit(agents: map<AgentId, Agent>, sessions: map<SessionId, Session>, agent: AgentId, next: int)
    requires SessionsFit(agents, sessions) && agent in agents && next > agents[agent].generation
    ensures SessionsFit(agents[agent := Agent(agents[agent].run, next, Starting)], sessions)
  {
    var after := agents[agent := Agent(agents[agent].run, next, Starting)];
    forall s | s in sessions
      ensures SessionFits(after, sessions[s])
    {
      assert SessionFits(agents, sessions[s]);
    }
    forall a | a in agents && a != agent && HasCurrentSession(agents, sessions, a)
      ensures HasCurrentSession(after, sessions, a)
    {
      var s :| s in sessions && IsCurrent(agents, sessions[s], a);
      assert IsCurrent(after, sessions[s], a);
    }
  }

  lemma InsertSessionKeepsFenced(db: Db, input: SessionInput)
    requires Fenced(db) && InsertSession(db, input).Ok?
    ensures Fenced(InsertSession(db, input).value) && Evolves(db, InsertSession(db, input).value)
  {
    var sessions := InsertSession(db, input).value.sessions;
    if HasCurrentSession(db.agents, db.sessions, input.agent) {
      var s :| s in db.sessions && IsCurrent(db.agents, db.sessions[s], input.agent);
      assert db.sessions[s].generation != input.generation;
    }
    forall a | a in db.agents && HasCurrentSession(db.agents, db.sessions, a)
      ensures HasCurrentSession(db.agents, sessions, a)
    {
      var s :| s in db.sessions && IsCurrent(db.agents, db.sessions[s], a);
      assert s in sessions && IsCurrent(db.agents, sessions[s], a);
    }
    CredentialsFollowSessions(db.sessions, sessions, db.credentials);
  }

  /** Credentials read only the immutable scope of a session. */
  lemma CredentialsFollowSessions(
      before: map<SessionId, Session>, after: map<SessionId, Session>, credentials: map<SessionId, Credential>)
    requires SessionsEvolve(before, after) && CredentialsFit(before, credentials)
    ensures CredentialsFit(after, credentials)
  {
    forall s | s in credentials
      ensures CredentialFits(after, s, credentials[s])
    {
      assert CredentialFits(before, s, credentials[s]);
      assert SessionEvolves(before[s], after[s]);
    }
  }

  /** Rewriting one session, and its agent with it when the state changes. */
  lemma SessionUpdateKeepsFit(
      agents: map<AgentId, Agent>, agents': map<AgentId, Agent>, sessions: map<SessionId, Session>,
      s: SessionId, row: Session)
    requires SessionsFit(agents, sessions) && s in sessions && row.agent in agents
    requires SessionEvolves(sessions[s], row) && (row.ended.Some? <==> row.state.IsTerminal())
    requires if row.state == sessions[s].state then agents' == agents
             else row.generation == agents[row.agent].generation
                  && agents' == agents[row.agent := agents[row.agent].(state := row.state)]
    ensures SessionsFit(agents', sessions[s := row]) && SessionsEvolve(sessions, sessions[s := row])
  {
    var after := sessions[s := row];
    forall x | x in after
      ensures SessionFits(agents', after[x])
    {
      assert SessionFits(agents, sessions[s]) && SessionFits(agents, sessions[x]);
    }
    CurrentSessionsStay(agents, agents', sessions, s, row);
    hide SessionFits, HasCurrentSession;
  }

  /** Rewriting a session keeps every agent's current session, or leaves the agent starting. */
  lemma CurrentSessionsStay(
      agents: map<AgentId, Agent>, agents': map<AgentId, Agent>, sessions: map<SessionId, Session>,
      s: SessionId, row: Session)
    requires s in sessions && row.agent in agents && SessionEvolves(sessions[s], row)
    requires forall a | a in agents :: HasCurrentSession(agents, sessions, a) || agents[a].state == Starting
    requires agents' == agents
             || (row.generation == agents[row.agent].generation
                 && agents' == agents[row.agent := agents[row.agent].(state := row.state)])
    ensures forall a | a in agents' :: HasCurrentSession(agents', sessions[s := row], a) || agents'[a].state == Starting
  {
    var after := sessions[s := row];
    forall a | a in agents'
      ensures HasCurrentSession(agents', after, a) || agents'[a].state == Starting
    {
      if HasCurrentSession(agents, sessions, a) {
        var x :| x in sessions && IsCurrent(agents, sessions[x], a);
        assert x in after && IsCurrent(agents', after[x], a);
      } else {
        assert !IsCurrent(agents, sessions[s], a);
      }
    }
  }

  lemma LaunchKeepsFenced(db: Db, scope: SessionScope, provider: string)
    requires Fenced(db)
    ensures Fenced(RecordLaunch(db, scope, provider).0) && Evolves(db, RecordLaunch(db, scope, provider).0)
  {
    var after := RecordLaunch(db, scope, provider).0;
    if after != db {
      assert SessionFits(db.agents, db.sessions[scope.session]);
      SessionUpdateKeepsFit(db.agents, db.agents, db.sessions, scope.session, after.sessions[scope.session]);
      CredentialsFollowSessions(db.sessions, after.sessions, db.credentials);
    }
  }

  lemma ReconciliationKeepsFenced(db: Db, scope: SessionScope, state: ResourceState)
    requires Fenced(db)
    ensures Fenced(RecordSessionReconciliation(db, scope, state).0)
    ensures Evolves(db, RecordSessionReconciliation(db, scope, state).0)
  {
    var after := RecordSessionReconciliation(db, scope, state).0;
    if after != db {
      assert SessionFits(db.agents, db.sessions[scope.session]);
      SessionUpdateKeepsFit(db.agents, db.agents, db.sessions, scope.session, after.sessions[scope.session]);
      CredentialsFollowSessions(db.sessions, after.sessions, db.credentials);
    }
  }

  lemma LifecycleKeepsFenced(db: Db, scope: SessionScope, observed: LifecycleState, at: Time)
    requires Fenced(db) && RecordLifecycle(db, scope, observed, at).Ok?
    ensures Fenced(RecordLifecycle(db, scope, observed, at).value.0)
    ensures Evolves(db, RecordLifecycle(db, scope, observed, at).value.0)
  {
    if RecordLifecycle(db, scope, observed, at).value.1.SessionApplied? {
      var after := RecordLifecycle(db, scope, observed, at).value.0;
      assert SessionFits(db.agents, db.sessions[scope.session]);
      ObservationKeepsFenced(db, after, scope.session, after.sessions[scope.session], at);
    }
  }

  lemma ObservationKeepsFenced(db: Db, after: Db, s: SessionId, row: Session, at: Time)
    requires Fenced(db) && s in db.sessions && row.agent in db.agents && row.state != db.sessions[s].state
    requires SessionEvolves(db.sessions[s], row) && (row.ended.Some? <==> row.state.IsTerminal())
    requires row.generation == db.agents[row.agent].generation && after.sessions == db.sessions[s := row]
    requires after.agents == db.agents[row.agent := db.agents[row.agent].(state := row.state)]
    requires after.credentials == if row.state.IsTerminal() then Revoked(db, {s}, at) else db.credentials
    ensures Fenced(after) && Evolves(db, after)
  {
    SessionUpdateKeepsFit(db.agents, after.agents, db.sessions, s, row);
    CredentialsFollowSessions(db.sessions, after.sessions, db.credentials);
    RevocationKeepsFit(db, after.sessions, {s}, at);
  }

  /** Revoking credentials breaks nothing. */
  lemma RevocationKeepsFit(db: Db, sessions: map<SessionId, Session>, which: set<SessionId>, at: Time)
    requires CredentialsFit(sessions, db.credentials)
    ensures CredentialsFit(sessions, Revoked(db, which, at)) && CredentialsEvolve(db.credentials, Revoked(db, which, at))
    ensures forall s | s in which && s in db.credentials :: Revoked(db, which, at)[s].revoked.Some?
  {
    var after := Revoked(db, which, at);
    forall s | s in after
      ensures CredentialFits(sessions, s, after[s])
    {
      assert CredentialFits(sessions, s, db.credentials[s]);
    }
  }

  lemma ActivateKeepsFenced(db: Db, input: CredentialInput)
    requires Fenced(db) && ActivateCredential(db, input).Ok?
    ensures Fenced(ActivateCredential(db, input).value) && Evolves(db, ActivateCredential(db, input).value)
  {
    var scope := input.scope;
    var previous := CredentialsOf(db, scope.run, scope.agent);
    var revoked := Revoked(db, previous, input.createdAt);
    RevocationKeepsFit(db, db.sessions, previous, input.createdAt);
    forall s | s in revoked && revoked[s].agent == scope.agent
      ensures revoked[s].revoked.Some?
    {
      assert CredentialFits(db.sessions, s, db.credentials[s]);
      assert SessionFits(db.agents, db.sessions[s]);
    }
  }

  lemma ReplaceKeepsFenced(db: Db, input: CredentialInput)
    requires Fenced(db) && ReplaceDesiredCredential(db, input).Ok?
    ensures Fenced(ReplaceDesiredCredential(db, input).value) && Evolves(db, ReplaceDesiredCredential(db, input).value)
  {
    var after := ReplaceDesiredCredential(db, input).value;
    forall s | s in after.credentials
      ensures CredentialFits(db.sessions, s, after.credentials[s])
    {
      assert CredentialFits(db.sessions, s, db.credentials[s]);
    }
  }

  /** A step that leaves agents, sessions and credentials alone evolves nothing. */
  lemma EvolvesIsReflexive(db: Db, after: Db)
    requires after.agents == db.agents && after.sessions == db.sessions && after.credentials == db.credentials
    ensures Evolves(db, after) && (Fenced(db) ==> Fenced(after))
  {
  }

  // ----- What the other steps do, and when -----

  /** A run is opened once, and only an active one is stopped; a run that was opened can be resumed. */
  lemma RunsOpenAndClose(db: Db, run: RunId)
    ensures InsertRun(db, run).Ok? <==> run !in db.runs
    ensures InsertRun(db, run).Ok? ==> InsertRun(db, run).value == db.(runs := db.runs[run := true])
    ensures StopRun(db, run).Ok? <==> run in db.runs && db.runs[run]
    ensures StopRun(db, run).Ok? ==> StopRun(db, run).value == db.(runs := db.runs[run := false])
    ensures ReactivateRun(db, run).runs == if run in db.runs then db.runs[run := true] else db.runs
    ensures ReactivateRun(db, run) == db.(runs := ReactivateRun(db, run).runs)
  {
  }

  /** An agent enters a known run once; a session enters once per agent and generation; both are Starting. */
  lemma AgentsAndSessionsEnterOnce(db: Db, id: AgentId, run: RunId, generation: int, input: SessionInput)
    ensures InsertAgent(db, id, run, generation).Ok? <==> id !in db.agents && run in db.runs && generation >= 0
    ensures InsertAgent(db, id, run, generation).Ok? ==>
              InsertAgent(db, id, run, generation).value == db.(agents := db.agents[id := Agent(run, generation, Starting)])
    ensures InsertSession(db, input).Ok? <==>
              && input.session !in db.sessions && input.generation >= 0
              && input.agent in db.agents && db.agents[input.agent].run == input.run
              && forall s | s in db.sessions && db.sessions[s].agent == input.agent ::
                   db.sessions[s].generation != input.generation
    ensures InsertSession(db, input).Ok? ==>
              InsertSession(db, input).value == db.(sessions := db.sessions[input.session := Session(
                input.run, input.agent, input.generation, input.owner, None, input.reconciliation, Starting, None)])
  {
  }

  /** A launch stores the provider's name and that it was observed, and says whether that changed anything. */
  lemma LaunchesAreStored(db: Db, scope: SessionScope, provider: string)
    requires scope.session in db.sessions && SessionScopeCurrent(db, scope)
    ensures var (after, outcome) := RecordLaunch(db, scope, provider); var s := scope.session;
            && after.sessions == db.sessions[s := db.sessions[s].(provider := Some(provider), reconciliation := Observed)]
            && after == db.(sessions := after.sessions)
            && (outcome == if db.sessions[s].provider == Some(provider) && db.sessions[s].reconciliation == Observed
                           then SessionUnchanged else SessionApplied)
  {
    hide SessionScopeCurrent;
    assert db.sessions[scope.session := db.sessions[scope.session]] == db.sessions;
  }

  /** So does a reconciliation with the state it found. */
  lemma ReconciliationsAreStored(db: Db, scope: SessionScope, state: ResourceState)
    requires scope.session in db.sessions && SessionScopeCurrent(db, scope)
    ensures var (after, outcome) := RecordSessionReconciliation(db, scope, state); var s := scope.session;
            && after.sessions == db.sessions[s := db.sessions[s].(reconciliation := state)]
            && after == db.(sessions := after.sessions)
            && (outcome == if db.sessions[s].reconciliation == state then SessionUnchanged else SessionApplied)
  {
    hide SessionScopeCurrent;
    assert db.sessions[scope.session := db.sessions[scope.session]] == db.sessions;
  }

  /** Without a current scope neither record changes anything. */
  lemma StaleScopesRecordNothing(db: Db, scope: SessionScope, provider: string, state: ResourceState)
    requires !SessionScopeCurrent(db, scope)
    ensures RecordLaunch(db, scope, provider) == (db, SessionStale)
    ensures RecordSessionReconciliation(db, scope, state) == (db, SessionStale)
  {
  }

  /**
   * A credential is activated exactly for a current session that never had one, not dated before what it revokes;
   * it stores the verifier given, and the other unrevoked credentials of the agent are revoked as it is created.
   */
  lemma CredentialsAreActivatedExactly(db: Db, input: CredentialInput)
    ensures var scope := input.scope;
            ActivateCredential(db, input).Ok? <==>
              && input.revoked.None? && SessionScopeCurrent(db, scope) && scope.session !in db.credentials
              && forall s | s in db.credentials && db.credentials[s].agent == scope.agent && db.credentials[s].run == scope.run
                            && db.credentials[s].revoked.None? :: db.credentials[s].createdAt <= input.createdAt
    ensures ActivateCredential(db, input).Ok? ==>
              var after, scope := ActivateCredential(db, input).value, input.scope;
              && after == db.(credentials := after.credentials)
              && after.credentials.Keys == db.credentials.Keys + {scope.session}
              && after.credentials[scope.session] ==
                   Credential(scope.run, scope.agent, scope.generation, input.verifier, input.createdAt, None)
              && forall s | s in db.credentials ::
                   after.credentials[s] ==
                     if db.credentials[s].agent == scope.agent && db.credentials[s].run == scope.run
                        && db.credentials[s].revoked.None?
                     then db.credentials[s].(revoked := Some(input.createdAt)) else db.credentials[s]
  {
    var previous := CredentialsOf(db, input.scope.run, input.scope.agent);
    forall s | s in db.credentials
      ensures s in previous <==> db.credentials[s].agent == input.scope.agent && db.credentials[s].run == input.scope.run
    {
    }
  }

  /** A verifier is rotated exactly on the unrevoked credential of its own scope while the launch is only desired. */
  lemma CredentialsAreRotatedExactly(db: Db, input: CredentialInput)
    ensures var scope := input.scope;
            ReplaceDesiredCredential(db, input).Ok? <==>
              && input.revoked.None? && scope.session in db.credentials && scope.session in db.sessions
              && db.sessions[scope.session].reconciliation == Desired
              && var c := db.credentials[scope.session];
                 c.run == scope.run && c.agent == scope.agent && c.generation == scope.generation && c.revoked.None?
    ensures ReplaceDesiredCredential(db, input).Ok? ==>
              var s := input.scope.session;
              && s in db.credentials
              && ReplaceDesiredCredential(db, input).value == db.(credentials := db.credentials[s := Credential(
                   db.credentials[s].run, db.credentials[s].agent, db.credentials[s].generation,
                   input.verifier, input.createdAt, None)])
  {
  }
}
