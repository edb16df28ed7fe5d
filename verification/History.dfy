/** What no history of the store can undo (src/state.rs). */
module History {
  import opened Bytes
  import opened Tasks
  import opened Database
  import opened Work
  import opened WorkInvariants
  import opened LogAgreement
  import opened Workspaces

  ghost predicate LogsExtend(db: Db, after: Db) {
    forall r :: LogOf(db, r) <= LogOf(after, r)
  }

  ghost predicate IsFinal(tasks: map<TaskId, Task>, task: TaskId) {
    task in tasks && (tasks[task].status == Closed || tasks[task].status == Canceled)
  }

  /** Tasks are never removed, and a closed or canceled task never changes again. */
  ghost predicate TasksEvolve(before: map<TaskId, Task>, after: map<TaskId, Task>) {
    forall t | t in before ::
      && t in after && after[t].run == before[t].run && after[t].project == before[t].project
      && (IsFinal(before, t) ==> after[t] == before[t])
  }

  ghost predicate AssignmentEvolves(before: Assignment, after: Assignment) {
    && after.id == before.id && after.run == before.run && after.task == before.task && after.agent == before.agent
    && after.claim == before.claim && after.generation == before.generation && after.createdAt == before.createdAt
    && (before.session.Some? ==> after.session == before.session)
    && (before.completed.Some? ==> after.completed == before.completed && after.state == before.state)
  }

  /** Ownership of an assignment is immutable, ended assignments stay ended, and final tasks gain none. */
  ghost predicate AssignmentsEvolve(tasks: map<TaskId, Task>, before: seq<Assignment>, after: seq<Assignment>) {
    && |before| <= |after|
    && (forall i | 0 <= i < |before| :: AssignmentEvolves(before[i], after[i]))
    && (forall i | |before| <= i < |after| :: !IsFinal(tasks, after[i].task))
  }

  /** The dependencies of a task are fixed when it is created. */
  ghost predicate EdgesEvolve(db: Db, after: Db) {
    db.edges <= after.edges && forall e | e in after.edges && e !in db.edges :: e.task !in db.tasks
  }

  ghost predicate Extends(db: Db, after: Db) {
    && LogsExtend(db, after) && TasksEvolve(db.tasks, after.tasks) && EdgesEvolve(db, after)
    && AssignmentsEvolve(db.tasks, db.assignments, after.assignments)
    && WorkspacesEvolve(db.workspaces, after.workspaces)
  }

  lemma ExtendsIsTransitive(a: Db, b: Db, c: Db)
    requires Extends(a, b) && Extends(b, c)
    ensures Extends(a, c)
  {
    WorkspacesEvolveTransitively(a.workspaces, b.workspaces, c.workspaces);
    forall r
      ensures LogOf(a, r) <= LogOf(c, r)
    {
      assert LogOf(a, r) <= LogOf(b, r) && LogOf(b, r) <= LogOf(c, r);
    }
    AssignmentsEvolveTransitively(a.tasks, b.tasks, a.assignments, b.assignments, c.assignments);
  }

  lemma AssignmentsEvolveTransitively(
      first: map<TaskId, Task>, second: map<TaskId, Task>, a: seq<Assignment>, b: seq<Assignment>, c: seq<Assignment>)
    requires TasksEvolve(first, second) && AssignmentsEvolve(first, a, b) && AssignmentsEvolve(second, b, c)
    ensures AssignmentsEvolve(first, a, c)
  {
    forall i | 0 <= i < |a|
      ensures AssignmentEvolves(a[i], c[i])
    {
      assert AssignmentEvolves(a[i], b[i]) && AssignmentEvolves(b[i], c[i]);
    }
    forall i | |a| <= i < |c|
      ensures !IsFinal(first, c[i].task)
    {
      if i < |b| {
        assert AssignmentEvolves(b[i], c[i]);
      }
    }
  }

  // ----- Each operation extends -----

  lemma CreateExtends(db: Db, input: CreateInput)
    requires ApplyCreate(db, input).Ok?
    ensures Extends(db, ApplyCreate(db, input).value.0)
  {
  }

  lemma ClaimExtends(db: Db, input: ClaimInput)
    requires ApplyClaim(db, input).Ok?
    ensures Extends(db, ApplyClaim(db, input).value.0)
  {
    hide ApplyClaim;
    ClaimOutcome(db, input);
    if ApplyClaim(db, input).value.1.Claimed? {
      ClaimLogsExtend(db, input);
    }
  }

  lemma ClaimLogsExtend(db: Db, input: ClaimInput)
    requires ApplyClaim(db, input).Ok? && ApplyClaim(db, input).value.1.Claimed?
    ensures LogsExtend(db, ApplyClaim(db, input).value.0)
  {
  }

  lemma TransitionExtends(db: Db, input: TransitionInput)
    requires Owned(db)
    ensures ApplyTransition(db, input).Ok? && Extends(db, ApplyTransition(db, input).value.0)
  {
    hide ApplyTransition, TransitionVerdict, TransitionLog;
    var n := TransitionOutcome(db, input);
    if TransitionVerdict(db, input).Transitioned? {
      TransitionEvents(db, input, n);
      var next := TransitionVerdict(db, input).next;
      LongerLogExtends(
        db, ApplyTransition(db, input).value.0, input, db.tasks[input.task].status, next,
        if db.tasks[input.task].status != InProgress then None
        else Some((db.assignments[n].id, db.assignments[n].state, ReleasedState(input.transition).value, n + 1)));
      MovesExtend(db, ApplyTransition(db, input).value.0, input.task, next, n);
    } else {
      NothingExtends(db);
    }
  }

  lemma NothingExtends(db: Db)
    ensures Extends(db, db)
  {
  }

  lemma LongerLogExtends(
      db: Db, after: Db, input: TransitionInput, previous: TaskStatus, next: TaskStatus,
      owner: Option<(AssignmentId, AssignmentState, AssignmentState, nat)>)
    requires forall r | r != input.run :: LogOf(after, r) == LogOf(db, r)
    requires LogOf(after, input.run) == TransitionLog(LogOf(db, input.run), input, previous, next, owner)
    ensures LogsExtend(db, after)
  {
    hide LogOf;
    assert LogOf(db, input.run) <= TransitionLog(LogOf(db, input.run), input, previous, next, owner);
  }

  lemma MovesExtend(db: Db, after: Db, task: TaskId, next: TaskStatus, n: nat)
    requires Moves(db, after, task, next, n) && LogsExtend(db, after)
    requires !IsFinal(db.tasks, task) && |db.claims| == |db.assignments|
    ensures Extends(db, after)
  {
    forall i | 0 <= i < |db.assignments|
      ensures AssignmentEvolves(db.assignments[i], after.assignments[i])
    {
    }
  }

  lemma AssociateExtends(db: Db, id: AssignmentId, session: SessionId)
    requires AssociateSession(db, id, session).Ok?
    ensures Extends(db, AssociateSession(db, id, session).value)
  {
  }

  /** A step that touches no task, assignment, edge or event extends if its workspaces evolve. */
  lemma WorkspaceStepsExtend(db: Db, after: Db)
    requires after.tasks == db.tasks && after.edges == db.edges && after.assignments == db.assignments
    requires after.events == db.events && WorkspacesEvolve(db.workspaces, after.workspaces)
    ensures Extends(db, after)
  {
    assert forall r :: LogOf(after, r) == LogOf(db, r);
  }
}
