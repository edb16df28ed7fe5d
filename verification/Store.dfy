/** The durable store of a run: every method commits one whole transaction or changes nothing (src/state.rs). */
module DurableStore {
  import opened Bytes
  import opened Lifecycle
  import opened Tasks
  import opened Database
  import opened Sessions
  import opened Fencing
  import opened Workspaces
  import opened Ledger
  import opened Runs
  import opened Guarantees
  import opened Repositories

  lemma ObservationsAreConsistent(
      db: Db, scope: SessionScope, observed: LifecycleState, at: Time, late: set<TaskId>)
    requires Safe(db, late)
    ensures RecordLifecycle(db, scope, observed, at) != Err(InconsistentSessionLifecycle)
    ensures Next(db, Observe(scope, observed, at)) == Committed(db, RecordLifecycle(db, scope, observed, at))
  {
    LifecycleIsNeverInconsistent(db, scope, observed, at);
  }

  class Store {
    var tables: Db
    ghost var history: seq<Step>

    /** The tables are what the history so far has led to. */
    ghost predicate Valid()
      reads this
    {
      tables == Reached(history)
    }

    constructor ()
      ensures Valid() && tables == EMPTY_DB && history == []
    {
      tables := EMPTY_DB;
      history := [];
    }

    /** Every invariant of reachable states holds here; tasks whose workspace came late are named. */
    ghost method Reachable() returns (late: set<TaskId>)
      requires Valid()
      ensures Safe(tables, late) && late == LateIn(EMPTY_DB, history)
    {
      late := LateIn(EMPTY_DB, history);
      ReachableStatesAreSafe(history);
    }

    /** Makes the tables of a finished transaction durable. */
    method Commit(transaction: Transaction, ghost step: Step)
      requires Valid() && transaction.tables == Next(tables, step)
      modifies this
      ensures Valid() && tables == old(transaction.tables) && history == old(history) + [step]
    {
      tables := transaction.tables;
      history := history + [step];
      assert history[..|history| - 1] == old(history);
    }

    /** Records that a transaction which changes nothing ended. */
    ghost method Abandon(step: Step)
      requires Valid() && Next(tables, step) == tables
      modifies this`history
      ensures Valid() && history == old(history) + [step]
    {
      history := history + [step];
      assert history[..|history| - 1] == old(history);
    }

    /** What other callers, observers and crashes do to the store meanwhile. */
    method Interleave(steps: seq<Step>)
      requires Valid()
      modifies this
      ensures Valid() && history == old(history) + steps && tables == After(old(tables), steps)
    {
      hide Next;
      for i := 0 to |steps|
        invariant Valid() && history == old(history) + steps[..i] && tables == After(old(tables), steps[..i])
      {
        tables := Next(tables, steps[i]);
        history := history + [steps[i]];
        assert history[..|history| - 1] == old(history) + steps[..i];
        assert steps[..i + 1][..i] == steps[..i];
      }
      assert steps[..|steps|] == steps;
    }

    /**
     * Applies a mutation at most once per operation ID. The fate says whether the caller dies before the
     * commit, or after it with the response undelivered.
     */
    method Mutate(m: Mutation, fate: Fate) returns (answer: Option<Result<Outcome>>)
      requires Valid()
      modifies this
      ensures Valid() && history == old(history) + [Call(m, fate)]
      ensures tables == Attempt(old(tables), m, fate) && answer == Answer(old(tables), m, fate)
    {
      var transaction := new Transaction(tables);
      var id := m.command.Id();
      var result: Result<Outcome>;
      if id in tables.operations {
        var stored := tables.operations[id];
        if !SameIdentity(stored, m) {
          result := Err(OperationConflict);
        } else if stored.status != Succeeded {
          result := Err(OperationIncomplete);
        } else if stored.result.None? {
          result := Err(MissingOperationResult);
        } else {
          result := Ok(Replayed(stored.result.value));
        }
      } else if !MayInsertOperation(tables, m) {
        result := Err(ConstraintViolation);
      } else {
        transaction.tables := transaction.tables.(operations := transaction.tables.operations[id := Intent(m)]);
        var response := transaction.Perform(m.command);
        if response.Err? {
          result := Err(response.error);
        } else {
          transaction.tables := transaction.tables.(operations := transaction.tables.operations[id :=
            Intent(m).(status := Succeeded, result := Some(response.value))]);
          result := Ok(Applied(response.value));
        }
      }
      assert if result.Ok? then Ledger.Mutate(tables, m) == Ok((transaction.tables, result.value))
             else Ledger.Mutate(tables, m) == Err(result.error);
      if fate == FailsBeforeCommit || result.Err? {
        Abandon(Call(m, fate));
      } else {
        Commit(transaction, Call(m, fate));
      }
      answer := if fate == Completes then Some(result) else None;
    }

    method RecordSessionLifecycle(scope: SessionScope, observed: LifecycleState, at: Time)
      returns (r: Result<SessionOutcome>)
      requires Valid()
      modifies this
      ensures Valid() && history == old(history) + [Observe(scope, observed, at)]
      ensures tables == Committed(old(tables), RecordLifecycle(old(tables), scope, observed, at))
      ensures r == OutcomeOf(RecordLifecycle(old(tables), scope, observed, at)) && r != Err(InconsistentSessionLifecycle)
    {
      hide RecordLifecycle, Safe, Next, After;
      var transaction := new Transaction(tables);
      ghost var late := Reachable();
      ObservationsAreConsistent(tables, scope, observed, at, late);
      r := transaction.UpdateSessionLifecycle(scope, observed, at);
      if r.Ok? {
        Commit(transaction, Observe(scope, observed, at));
      } else {
        Abandon(Observe(scope, observed, at));
      }
    }

    /** A new generation retires every session the agent has had so far. */
    method StartAgentGeneration(run: RunId, agent: AgentId, current: int, next: int) returns (started: bool)
      requires Valid()
      modifies this
      ensures Valid() && history == old(history) + [Restart(run, agent, current, next)]
      ensures (tables, started) == StartGeneration(old(tables), run, agent, current, next)
      ensures started ==> forall s | s in old(tables.sessions) && old(tables.sessions)[s].agent == agent
                                     && old(tables.sessions)[s].generation <= current :: Retired(tables, s)
    {
      var transaction := new Transaction(tables);
      started := transaction.StartAgentGeneration(run, agent, current, next);
      Commit(transaction, Restart(run, agent, current, next));
    }

    /** A fresh credential is the only one of its agent that can resolve. */
    method ActivateSessionCredential(input: CredentialInput) returns (r: Result<()>)
      requires Valid()
      modifies this
      ensures Valid() && history == old(history) + [Activate(input)]
      ensures tables == Kept(old(tables), ActivateCredential(old(tables), input))
      ensures r.Ok? ==> forall s | s != input.scope.session :: !Resolves(tables, input.scope.run, input.scope.agent, s)
      ensures r.Ok? <==> ActivateCredential(old(tables), input).Ok?
    {
      var transaction := new Transaction(tables);
      ghost var late := Reachable();
      hide Safe, ActivateCredential, Resolves;
      r := transaction.ActivateSessionCredential(input);
      if r.Ok? {
        forall s | s != input.scope.session
          ensures !Resolves(transaction.tables, input.scope.run, input.scope.agent, s)
        {
          ActivationResolves(tables, input, s);
        }
        Commit(transaction, Activate(input));
      } else {
        Abandon(Activate(input));
      }
    }

    method RecordWorkspaceResultCommit(scope: AssignmentScope, commit: Commit) returns (r: Result<ResourceOutcome>)
      requires Valid()
      modifies this
      ensures Valid() && history == old(history) + [RecordResult(scope, commit)]
      ensures tables == Committed(old(tables), RecordResultCommit(old(tables), scope, commit))
      ensures r == OutcomeOf(RecordResultCommit(old(tables), scope, commit))
    {
      var transaction := new Transaction(tables);
      r := transaction.RecordWorkspaceResultCommit(scope, commit);
      if r.Ok? {
        Commit(transaction, RecordResult(scope, commit));
      } else {
        Abandon(RecordResult(scope, commit));
      }
    }

    method RecordWorkspaceTargetCommit(scope: AssignmentScope, commit: Commit) returns (r: Result<ResourceOutcome>)
      requires Valid()
      modifies this
      ensures Valid() && history == old(history) + [RecordTarget(scope, commit)]
      ensures tables == Committed(old(tables), RecordTargetCommit(old(tables), scope, commit))
      ensures r == OutcomeOf(RecordTargetCommit(old(tables), scope, commit))
    {
      var transaction := new Transaction(tables);
      r := transaction.RecordWorkspaceTargetCommit(scope, commit);
      if r.Ok? {
        Commit(transaction, RecordTarget(scope, commit));
      } else {
        Abandon(RecordTarget(scope, commit));
      }
    }

    method AssociateAssignmentSession(id: AssignmentId, session: SessionId) returns (r: Result<()>)
      requires Valid()
      modifies this
      ensures Valid() && history == old(history) + [TakeOver(id, session)]
      ensures tables == Kept(old(tables), AssociateSession(old(tables), id, session))
      ensures r.Ok? <==> AssociateSession(old(tables), id, session).Ok?
    {
      var transaction := new Transaction(tables);
      r := transaction.AssociateAssignmentSession(id, session);
      if r.Ok? {
        Commit(transaction, TakeOver(id, session));
      } else {
        Abandon(TakeOver(id, session));
      }
    }
  }
}
