/** The event log and the tables tell the same story after every task operation. */
module LogAgreement {
  import opened Bytes
  import opened Tasks
  import opened Database
  import opened EventLog
  import opened Work
  import opened WorkInvariants

  ghost predicate NoAssignment(db: Db, id: AssignmentId) {
    forall i | 0 <= i < |db.assignments| :: db.assignments[i].id != id
  }

  /** Folding a run's log gives the current state of everything the run owns, and of nothing else. */
  ghost predicate Tells(log: seq<Event>, db: Db, run: RunId)
    requires |db.claims| == |db.assignments|
  {
    && Sound(log)
    && (forall t :: StatusIn(log, t) == if TaskInRun(db, t, run) then db.tasks[t].status else Open)
    && (forall i | 0 <= i < |db.assignments| && db.assignments[i].run == run ::
          && AssignmentIn(log, db.assignments[i].id) == Some(db.assignments[i].state)
          && ClaimIn(log, i + 1) == Some(db.claims[i].released.Some?))
    && (forall a | NoAssignment(db, a) :: AssignmentIn(log, a).None?)
    && (forall c: nat | c > |db.claims| :: ClaimIn(log, c).None?)
  }

  ghost predicate LogsAgree(db: Db) {
    |db.claims| == |db.assignments| && forall run :: Tells(LogOf(db, run), db, run)
  }

  /** The log of a run depends on no other run's events. */
  lemma AppendIsLocal(db: Db, run: RunId, actor: Option<AgentId>, operation: OperationId, body: EventBody)
    ensures forall r :: LogOf(Append(db, run, actor, operation, body), r) ==
              if r == run then Appended(LogOf(db, run), actor, operation, body) else LogOf(db, r)
  {
  }

  /** An event that no fold reads changes nothing. */
  lemma SilentAppendKeepsAgreement(db: Db, run: RunId, actor: Option<AgentId>, operation: OperationId, body: EventBody)
    requires LogsAgree(db)
    requires body.MessageSent? || body.MessageAcknowledged? || body.TaskCreated?
    ensures LogsAgree(Append(db, run, actor, operation, body))
  {
    var after := Append(db, run, actor, operation, body);
    AppendIsLocal(db, run, actor, operation, body);
    forall r
      ensures Tells(LogOf(after, r), after, r)
    {
      assert Tells(LogOf(db, r), db, r);
      if r == run {
        AppendedKeepsSound(LogOf(db, r), actor, operation, body);
        FoldsAfter(LogOf(db, r), actor, operation, body);
      }
      assert forall a :: NoAssignment(after, a) <==> NoAssignment(db, a);
    }
  }

  /** Agreement reads only tasks, claims, assignments and events. */
  lemma AgreementDependsOnWork(db: Db, after: Db)
    requires LogsAgree(db)
    requires after.tasks == db.tasks && after.claims == db.claims && after.assignments == db.assignments
    requires after.events == db.events
    ensures LogsAgree(after)
  {
    forall r
      ensures Tells(LogOf(after, r), after, r)
    {
      assert Tells(LogOf(db, r), db, r);
      assert LogOf(after, r) == LogOf(db, r);
      assert forall a :: NoAssignment(after, a) <==> NoAssignment(db, a);
    }
  }

  lemma CreateKeepsAgreement(db: Db, input: CreateInput)
    requires Owned(db) && LogsAgree(db) && ApplyCreate(db, input).Ok?
    ensures LogsAgree(ApplyCreate(db, input).value.0)
  {
    var created := db.(
      tasks := db.tasks[input.task := Task(input.run, input.project, Open, None)],
      edges := db.edges + set d | d in input.dependencies :: Edge(input.run, input.task, d));
    forall r
      ensures Tells(LogOf(created, r), created, r)
    {
      assert Tells(LogOf(db, r), db, r);
      assert forall a :: NoAssignment(created, a) <==> NoAssignment(db, a);
    }
    SilentAppendKeepsAgreement(created, input.run, input.actor, input.operation, TaskCreated(input.task));
  }

  // ----- Claims -----

  /** The log of a run after the three events of a claim. */
  function ClaimLog(log: seq<Event>, input: ClaimInput, claim: nat, generation: int): seq<Event> {
    var log1 := Appended(log, input.actor, input.operation, TaskChanged(input.task, Open, InProgress, None));
    var log2 := Appended(log1, input.actor, input.operation, TaskClaimed(input.task, input.assignment, claim));
    Appended(log2, input.actor, input.operation, AssignmentCreated(input.assignment, claim, generation))
  }

  lemma ClaimLogIsSound(log: seq<Event>, input: ClaimInput, claim: nat, generation: int)
    requires Sound(log) && StatusIn(log, input.task) == Open
    requires ClaimIn(log, claim).None? && AssignmentIn(log, input.assignment).None?
    ensures Sound(ClaimLog(log, input, claim, generation))
    ensures var longer := ClaimLog(log, input, claim, generation);
            && (forall t :: StatusIn(longer, t) == if t == input.task then InProgress else StatusIn(log, t))
            && (forall a :: AssignmentIn(longer, a) == if a == input.assignment then Some(Active) else AssignmentIn(log, a))
            && (forall c :: ClaimIn(longer, c) == if c == claim then Some(false) else ClaimIn(log, c))
  {
    var changed := TaskChanged(input.task, Open, InProgress, None);
    var claimed := TaskClaimed(input.task, input.assignment, claim);
    var created := AssignmentCreated(input.assignment, claim, generation);
    var log1 := Appended(log, input.actor, input.operation, changed);
    var log2 := Appended(log1, input.actor, input.operation, claimed);
    FoldsAfter(log, input.actor, input.operation, changed);
    AppendedKeepsSound(log, input.actor, input.operation, changed);
    FoldsAfter(log1, input.actor, input.operation, claimed);
    AppendedKeepsSound(log1, input.actor, input.operation, claimed);
    FoldsAfter(log2, input.actor, input.operation, created);
    AppendedKeepsSound(log2, input.actor, input.operation, created);
  }

  lemma ClaimEvents(db: Db, input: ClaimInput)
    requires ApplyClaim(db, input).Ok? && ApplyClaim(db, input).value.1.Claimed?
    ensures var after := ApplyClaim(db, input).value.0;
            && AgentInRun(db, input.agent, input.run)
            && (forall r | r != input.run :: LogOf(after, r) == LogOf(db, r))
            && LogOf(after, input.run) ==
                 ClaimLog(LogOf(db, input.run), input, |db.claims| + 1, db.agents[input.agent].generation)
  {
  }

  /** The tables of `after` are those of `db` with task `a.task` in progress and one more row on each side. */
  ghost predicate Grows(db: Db, after: Db, a: Assignment, c: Claim) {
    && a.task in db.tasks
    && after.tasks == db.tasks[a.task := db.tasks[a.task].(status := InProgress)]
    && after.assignments == db.assignments + [a] && after.claims == db.claims + [c]
  }

  lemma GrowthKeepsOtherLogs(db: Db, after: Db, a: Assignment, c: Claim, log: seq<Event>, run: RunId)
    requires |db.claims| == |db.assignments| && Grows(db, after, a, c) && Tells(log, db, run)
    requires a.run != run && db.tasks[a.task].run != run
    ensures Tells(log, after, run)
  {
    forall i | 0 <= i < |after.assignments| && after.assignments[i].run == run
      ensures AssignmentIn(log, after.assignments[i].id) == Some(after.assignments[i].state)
      ensures ClaimIn(log, i + 1) == Some(after.claims[i].released.Some?)
    {
      assert i < |db.assignments|;
      assert after.assignments[i] == db.assignments[i] && after.claims[i] == db.claims[i];
    }
    NewRowsAreNew(db, after, a);
  }

  lemma NewRowsAreNew(db: Db, after: Db, a: Assignment)
    requires after.assignments == db.assignments + [a]
    ensures forall id | NoAssignment(after, id) :: NoAssignment(db, id) && id != a.id
  {
    forall id | NoAssignment(after, id)
      ensures NoAssignment(db, id) && id != a.id
    {
      assert after.assignments[|db.assignments|] == a;
      assert forall i | 0 <= i < |db.assignments| :: after.assignments[i] == db.assignments[i];
    }
  }

  lemma GrowthKeepsItsLog(
      db: Db, after: Db, a: Assignment, c: Claim, log: seq<Event>, longer: seq<Event>)
    requires |db.claims| == |db.assignments| && Grows(db, after, a, c) && Tells(log, db, a.run)
    requires db.tasks[a.task].run == a.run && a.state == Active && c.released.None? && NoAssignment(db, a.id)
    requires Sound(longer)
    requires forall t :: StatusIn(longer, t) == if t == a.task then InProgress else StatusIn(log, t)
    requires forall id :: AssignmentIn(longer, id) == if id == a.id then Some(Active) else AssignmentIn(log, id)
    requires forall k :: ClaimIn(longer, k) == if k == |db.claims| + 1 then Some(false) else ClaimIn(log, k)
    ensures Tells(longer, after, a.run)
  {
    forall i | 0 <= i < |after.assignments| && after.assignments[i].run == a.run
      ensures AssignmentIn(longer, after.assignments[i].id) == Some(after.assignments[i].state)
      ensures ClaimIn(longer, i + 1) == Some(after.claims[i].released.Some?)
    {
      if i < |db.assignments| {
        assert after.assignments[i] == db.assignments[i] && after.claims[i] == db.claims[i];
      }
    }
    NewRowsAreNew(db, after, a);
  }

  lemma ClaimKeepsAgreement(db: Db, input: ClaimInput)
    requires Owned(db) && LogsAgree(db) && ApplyClaim(db, input).Ok?
    ensures LogsAgree(ApplyClaim(db, input).value.0)
  {
    ClaimOutcome(db, input);
    if ApplyClaim(db, input).value.1.Claimed? {
      ClaimEvents(db, input);
      assert NoAssignment(db, input.assignment);
      assert Tells(LogOf(db, input.run), db, input.run);
      ClaimLogIsSound(LogOf(db, input.run), input, |db.claims| + 1, db.agents[input.agent].generation);
      var claimed := WithClaim(db, input);
      GrowthKeepsAgreement(
        db, ApplyClaim(db, input).value.0, claimed.assignments[|db.assignments|], claimed.claims[|db.claims|]);
    }
  }

  lemma GrowthKeepsAgreement(db: Db, after: Db, a: Assignment, c: Claim)
    requires LogsAgree(db) && Grows(db, after, a, c)
    requires db.tasks[a.task].run == a.run && a.state == Active && c.released.None? && NoAssignment(db, a.id)
    requires forall r | r != a.run :: LogOf(after, r) == LogOf(db, r)
    requires Sound(LogOf(after, a.run))
    requires forall t :: StatusIn(LogOf(after, a.run), t) ==
               if t == a.task then InProgress else StatusIn(LogOf(db, a.run), t)
    requires forall id :: AssignmentIn(LogOf(after, a.run), id) ==
               if id == a.id then Some(Active) else AssignmentIn(LogOf(db, a.run), id)
    requires forall k :: ClaimIn(LogOf(after, a.run), k) ==
               if k == |db.claims| + 1 then Some(false) else ClaimIn(LogOf(db, a.run), k)
    ensures LogsAgree(after)
  {
    forall r
      ensures Tells(LogOf(after, r), after, r)
    {
      assert Tells(LogOf(db, r), db, r);
      if r == a.run {
        GrowthKeepsItsLog(db, after, a, c, LogOf(db, r), LogOf(after, r));
      } else {
        GrowthKeepsOtherLogs(db, after, a, c, LogOf(db, r), r);
      }
    }
  }

  // ----- Transitions -----

  /** The log of a run after a transition; `owner` is the row that ended with it, if any. */
  function TransitionLog(
      log: seq<Event>, input: TransitionInput, previous: TaskStatus, next: TaskStatus,
      owner: Option<(AssignmentId, AssignmentState, AssignmentState, nat)>): seq<Event>
  {
    var log1 := Appended(log, input.actor, input.operation, TaskChanged(input.task, previous, next, input.override));
    match owner
    case None => log1
    case Some((id, before, after, claim)) =>
      var log2 := Appended(log1, input.actor, input.operation, AssignmentChanged(id, before, after));
      Appended(log2, input.actor, input.operation, ClaimReleased(input.task, claim))
  }

  lemma TransitionLogIsSound(
      log: seq<Event>, input: TransitionInput, previous: TaskStatus, next: TaskStatus,
      owner: Option<(AssignmentId, AssignmentState, AssignmentState, nat)>)
    requires Sound(log) && StatusIn(log, input.task) == previous && previous.CanTransitionTo(next)
    requires owner.Some? ==>
               AssignmentIn(log, owner.value.0) == Some(owner.value.1) && ClaimIn(log, owner.value.3) == Some(false)
    ensures var longer := TransitionLog(log, input, previous, next, owner);
            && Sound(longer)
            && (forall t :: StatusIn(longer, t) == if t == input.task then next else StatusIn(log, t))
            && (forall a :: AssignmentIn(longer, a) ==
                  if owner.Some? && a == owner.value.0 then Some(owner.value.2) else AssignmentIn(log, a))
            && (forall c :: ClaimIn(longer, c) ==
                  if owner.Some? && c == owner.value.3 then Some(true) else ClaimIn(log, c))
  {
    var changed := TaskChanged(input.task, previous, next, input.override);
    var log1 := Appended(log, input.actor, input.operation, changed);
    FoldsAfter(log, input.actor, input.operation, changed);
    AppendedKeepsSound(log, input.actor, input.operation, changed);
    if owner.Some? {
      var ended := AssignmentChanged(owner.value.0, owner.value.1, owner.value.2);
      var released := ClaimReleased(input.task, owner.value.3);
      var log2 := Appended(log1, input.actor, input.operation, ended);
      FoldsAfter(log1, input.actor, input.operation, ended);
      AppendedKeepsSound(log1, input.actor, input.operation, ended);
      FoldsAfter(log2, input.actor, input.operation, released);
      AppendedKeepsSound(log2, input.actor, input.operation, released);
    }
  }

  /** The events of an applied transition. */
  lemma TransitionEvents(db: Db, input: TransitionInput, n: nat)
    requires Owned(db) && TransitionVerdict(db, input).Transitioned? && ApplyTransition(db, input).Ok?
    requires if db.tasks[input.task].status == InProgress then
               && n < |db.assignments| && ReleasedState(input.transition).Some?
               && ActiveAssignment(db, input.run, input.task) == Some(n)
               && ActiveClaim(db, input.run, input.task) == Some(n)
             else n == |db.assignments|
    ensures var after, next := ApplyTransition(db, input).value.0, TransitionVerdict(db, input).next;
            && (forall r | r != input.run :: LogOf(after, r) == LogOf(db, r))
            && LogOf(after, input.run) == TransitionLog(
                 LogOf(db, input.run), input, db.tasks[input.task].status, next,
                 if db.tasks[input.task].status != InProgress then None
                 else Some((db.assignments[n].id, db.assignments[n].state, ReleasedState(input.transition).value, n + 1)))
  {
    hide Owned, OverrideAccepted, AwaitsIntegration, Appended;
    var status := db.tasks[input.task].status;
    var next := status.Transition(input.transition).value;
    var released := if status == InProgress then ReleaseOwnership(db, input) else Ok(db);
    var db1 := WithStatus(released.value, input, next);
    var changed := TaskChanged(input.task, status, next, input.override);
    var db2 := Append(db1, input.run, input.actor, input.operation, changed);
    AppendIsLocal(db1, input.run, input.actor, input.operation, changed);
    if status == InProgress {
      var ended := AssignmentChanged(db.assignments[n].id, db.assignments[n].state, ReleasedState(input.transition).value);
      AppendIsLocal(db2, input.run, input.actor, input.operation, ended);
      var db3 := Append(db2, input.run, input.actor, input.operation, ended);
      AppendIsLocal(db3, input.run, input.actor, input.operation, ClaimReleased(input.task, n + 1));
    }
  }

  lemma TransitionKeepsAgreement(db: Db, input: TransitionInput)
    requires Owned(db) && LogsAgree(db)
    ensures ApplyTransition(db, input).Ok? && LogsAgree(ApplyTransition(db, input).value.0)
  {
    var n := TransitionOutcome(db, input);
    if TransitionVerdict(db, input).Transitioned? {
      TransitionEvents(db, input, n);
      TransitionLogKeepsAgreement(
        db, ApplyTransition(db, input).value.0, input, TransitionVerdict(db, input).next, n);
    }
  }

  lemma TransitionLogKeepsAgreement(db: Db, after: Db, input: TransitionInput, next: TaskStatus, n: nat)
    requires Owned(db) && LogsAgree(db) && TaskInRun(db, input.task, input.run)
    requires db.tasks[input.task].status.Transition(input.transition) == Some(next)
    requires Moves(db, after, input.task, next, n)
    requires if IsInProgress(db, input.task) then
               && n < |db.assignments| && db.assignments[n].task == input.task
               && ReleasedState(input.transition) == Some(after.assignments[n].state)
             else n == |db.assignments|
    requires forall r | r != input.run :: LogOf(after, r) == LogOf(db, r)
    requires LogOf(after, input.run) == TransitionLog(
               LogOf(db, input.run), input, db.tasks[input.task].status, next,
               if !IsInProgress(db, input.task) then None
               else Some((db.assignments[n].id, db.assignments[n].state, after.assignments[n].state, n + 1)))
    ensures LogsAgree(after)
  {
    var status := db.tasks[input.task].status;
    assert Tells(LogOf(db, input.run), db, input.run);
    ActionsRealizeTheLifecycle(status, next);
    var owner := None;
    if status == InProgress {
      assert Paired(db, n);
      owner := Some((db.assignments[n].id, db.assignments[n].state, after.assignments[n].state, n + 1));
    }
    TransitionLogIsSound(LogOf(db, input.run), input, status, next, owner);
    MovesKeepAgreement(db, after, input.run, input.task, next, n);
  }

  /** After a move, a log tells the new tables if it was extended by what the move did. */
  lemma MovesKeepAgreement(db: Db, after: Db, run: RunId, task: TaskId, next: TaskStatus, n: nat)
    requires Owned(db) && LogsAgree(db) && TaskInRun(db, task, run) && Moves(db, after, task, next, n)
    requires n < |db.assignments| ==> db.assignments[n].task == task
    requires forall r | r != run :: LogOf(after, r) == LogOf(db, r)
    requires Sound(LogOf(after, run))
    requires forall t :: StatusIn(LogOf(after, run), t) == if t == task then next else StatusIn(LogOf(db, run), t)
    requires forall id :: AssignmentIn(LogOf(after, run), id) ==
               if n < |db.assignments| && id == db.assignments[n].id then Some(after.assignments[n].state)
               else AssignmentIn(LogOf(db, run), id)
    requires forall k :: ClaimIn(LogOf(after, run), k) ==
               if n < |db.assignments| && k == n + 1 then Some(true) else ClaimIn(LogOf(db, run), k)
    ensures LogsAgree(after)
  {
    assert n < |db.assignments| ==> Paired(db, n);
    forall r
      ensures Tells(LogOf(after, r), after, r)
    {
      assert Tells(LogOf(db, r), db, r);
      MoveKeepsLog(db, after, r, task, next, n, LogOf(db, r), LogOf(after, r));
    }
  }

  lemma MoveKeepsLog(
      db: Db, after: Db, run: RunId, task: TaskId, next: TaskStatus, n: nat, log: seq<Event>, longer: seq<Event>)
    requires Owned(db) && Moves(db, after, task, next, n) && Tells(log, db, run) && Sound(longer)
    requires n < |db.assignments| ==> db.assignments[n].task == task
    requires if db.tasks[task].run == run then
               && (forall t :: StatusIn(longer, t) == if t == task then next else StatusIn(log, t))
               && (forall id :: AssignmentIn(longer, id) ==
                     if n < |db.assignments| && id == db.assignments[n].id then Some(after.assignments[n].state)
                     else AssignmentIn(log, id))
               && (forall k :: ClaimIn(longer, k) ==
                     if n < |db.assignments| && k == n + 1 then Some(true) else ClaimIn(log, k))
             else longer == log
    ensures Tells(longer, after, run)
  {
    assert n < |db.assignments| ==> Paired(db, n);
    forall i | 0 <= i < |after.assignments|
      ensures after.assignments[i].id == db.assignments[i].id
      ensures after.assignments[i].run == run ==>
                && AssignmentIn(longer, after.assignments[i].id) == Some(after.assignments[i].state)
                && ClaimIn(longer, i + 1) == Some(after.claims[i].released.Some?)
    {
      assert Paired(db, i);
    }
    forall id | NoAssignment(after, id)
      ensures AssignmentIn(longer, id).None?
    {
      forall i | 0 <= i < |db.assignments|
        ensures db.assignments[i].id != id
      {
        assert after.assignments[i].id == db.assignments[i].id;
      }
    }
  }
}
