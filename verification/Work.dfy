/** Claiming tasks and moving them through their lifecycle (src/state.rs). */
module Work {
  import opened Bytes
  import opened Tables
  import opened Tasks
  import opened Database
  import opened EventLog

  // ----- Queries -----

  predicate ClaimsTask(claim: Claim, run: RunId, task: TaskId) {
    claim.task == task && claim.run == run && claim.released.None?
  }

  predicate WorksOnTask(assignment: Assignment, run: RunId, task: TaskId) {
    assignment.task == task && assignment.run == run && assignment.completed.None?
  }

  predicate KeepsBusy(assignment: Assignment, run: RunId, agent: AgentId) {
    assignment.agent == agent && assignment.run == run && assignment.completed.None?
  }

  function ActiveClaim(db: Db, run: RunId, task: TaskId): Option<nat> {
    First(db.claims, (c: Claim) => ClaimsTask(c, run, task))
  }

  function ActiveAssignment(db: Db, run: RunId, task: TaskId): Option<nat> {
    First(db.assignments, (a: Assignment) => WorksOnTask(a, run, task))
  }

  predicate AgentBusyIn(db: Db, run: RunId, agent: AgentId) {
    First(db.assignments, (a: Assignment) => KeepsBusy(a, run, agent)).Some?
  }

  predicate AssignmentExists(db: Db, id: AssignmentId) {
    First(db.assignments, (a: Assignment) => a.id == id).Some?
  }

  /** The row an `ORDER BY created_at DESC, rowid DESC LIMIT 1` query returns. */
  function Latest(rows: seq<Assignment>, run: RunId, task: TaskId): (i: Option<nat>)
    ensures i.Some? ==> i.value < |rows| && rows[i.value].run == run && rows[i.value].task == task
    ensures i.Some? ==> forall k | 0 <= k < |rows| && rows[k].run == run && rows[k].task == task ::
              rows[k].createdAt < rows[i.value].createdAt || (rows[k].createdAt == rows[i.value].createdAt && k <= i.value)
    ensures i.None? ==> forall k | 0 <= k < |rows| :: !(rows[k].run == run && rows[k].task == task)
    decreases |rows|
  {
    if rows == [] then None
    else
      var n := |rows| - 1;
      var earlier := Latest(rows[..n], run, task);
      if rows[n].run == run && rows[n].task == task
         && (earlier.None? || rows[n].createdAt >= rows[earlier.value].createdAt)
      then Some(n) else earlier
  }

  /** The prerequisites of a task that are not closed. */
  function Unresolved(db: Db, run: RunId, task: TaskId): set<TaskId> {
    set e | e in db.edges && e.task == task && e.run == run
            && TaskInRun(db, e.dependency, run) && db.tasks[e.dependency].status != Closed :: e.dependency
  }

  /** The current facts from which readiness is derived: claims and edges are looked up by task alone. */
  function ReadinessOf(db: Db, task: TaskId): Option<TaskReadiness> {
    if task !in db.tasks then None
    else Some(TaskReadiness(
      db.tasks[task].status,
      set e | e in db.edges && e.task == task
              && TaskInRun(db, e.dependency, e.run) && db.tasks[e.dependency].status != Closed :: e.dependency,
      First(db.claims, (c: Claim) => c.task == task && c.released.None?).Some?))
  }

  predicate Unclaimed(db: Db, run: RunId, task: TaskId) {
    && TaskInRun(db, task, run)
    && db.tasks[task].status == Open
    && ActiveClaim(db, run, task).None?
    && Unresolved(db, run, task) == {}
  }

  /** The tasks that the ready query of a run lists. */
  function ReadyTasks(db: Db, run: RunId): set<TaskId> {
    set task | task in db.tasks && Unclaimed(db, run, task)
  }

  // ----- Creating tasks -----

  datatype CreateInput = CreateInput(
    operation: OperationId, run: RunId, actor: Option<AgentId>, task: TaskId, project: ProjectId,
    title: string, dependencies: set<TaskId>)

  function ApplyCreate(db: Db, input: CreateInput): Result<(Db, Response)> {
    if exists d | d in input.dependencies :: !TaskInRun(db, d, input.run) then Err(CorruptTaskState)
    else if input.task in db.tasks || input.run !in db.runs then Err(ConstraintViolation)
    else
      var created := db.(
        tasks := db.tasks[input.task := Task(input.run, input.project, Open, None)],
        edges := db.edges + set d | d in input.dependencies :: Edge(input.run, input.task, d));
      Ok((Append(created, input.run, input.actor, input.operation, TaskCreated(input.task)),
          CreatedTask(input.task)))
  }

  // ----- Claiming -----

  datatype ClaimInput = ClaimInput(
    operation: OperationId, run: RunId, actor: Option<AgentId>, task: TaskId, agent: AgentId,
    assignment: AssignmentId, at: Time)

  /** The condition of the compare-and-set update. */
  predicate Claimable(db: Db, input: ClaimInput) {
    Unclaimed(db, input.run, input.task) && !AgentBusyIn(db, input.run, input.agent)
  }

  function RejectionOf(db: Db, input: ClaimInput): ClaimRejection {
    if ActiveClaim(db, input.run, input.task).Some? then AlreadyClaimed
    else if !TaskInRun(db, input.task, input.run) then TaskNotFound
    else if db.tasks[input.task].status != Open then TaskNotOpen
    else if Unresolved(db, input.run, input.task) != {} then Blocked
    else if AgentBusyIn(db, input.run, input.agent) then AgentBusy
    else TaskNotOpen
  }

  /** The tables after a won claim, before its events. */
  function WithClaim(db: Db, input: ClaimInput): Db
    requires TaskInRun(db, input.task, input.run) && AgentInRun(db, input.agent, input.run)
  {
    var claim := |db.claims| + 1;
    db.(
      tasks := db.tasks[input.task := db.tasks[input.task].(status := InProgress)],
      claims := db.claims + [Claim(input.run, input.task, input.agent, input.operation, None)],
      assignments := db.assignments + [Assignment(
        input.assignment, input.run, input.task, input.agent, None, claim,
        db.agents[input.agent].generation, Active, None, input.at, None)])
  }

  function ApplyClaim(db: Db, input: ClaimInput): Result<(Db, Response)> {
    if !AgentInRun(db, input.agent, input.run) then Ok((db, ClaimRefused(AgentNotFound)))
    else if !Claimable(db, input) then Ok((db, ClaimRefused(RejectionOf(db, input))))
    else if AssignmentExists(db, input.assignment) then Err(ConstraintViolation)
    else
      var claim := |db.claims| + 1;
      var generation := db.agents[input.agent].generation;
      var db1 := WithClaim(db, input);
      var db2 := Append(db1, input.run, input.actor, input.operation, TaskChanged(input.task, Open, InProgress, None));
      var db3 := Append(db2, input.run, input.actor, input.operation, TaskClaimed(input.task, input.assignment, claim));
      var db4 := Append(db3, input.run, input.actor, input.operation, AssignmentCreated(input.assignment, claim, generation));
      Ok((db4, Claimed(claim, input.assignment)))
  }

  // ----- Lifecycle transitions -----

  datatype TransitionInput = TransitionInput(
    operation: OperationId, run: RunId, actor: Option<AgentId>, task: TaskId, transition: TaskTransition,
    result: Option<Document>, override: Option<Evidence>, summary: Option<string>, at: Time)
  {
    /** Override evidence becomes part of the result document before anything else happens. */
    function Document(): Option<Document> {
      if override.None? then result
      else Some(Database.Document(if result.Some? then result.value.body else "{}", override))
    }
  }

  predicate IsWhitespace(c: char) {
    || 9 as char <= c <= 13 as char || c == 32 as char || c == 0x85 as char || c == 0xA0 as char
    || c == 0x1680 as char || 0x2000 as char <= c <= 0x200A as char || c == 0x2028 as char || c == 0x2029 as char
    || c == 0x202F as char || c == 0x205F as char || c == 0x3000 as char
  }

  predicate Blank(text: string) {
    forall c | c in text :: IsWhitespace(c)
  }

  /** The operator's evidence matches the task's latest assignment and its recorded commits. */
  predicate OverrideAccepted(db: Db, input: TransitionInput, evidence: Evidence)
    requires TaskInRun(db, input.task, input.run)
  {
    var task := db.tasks[input.task];
    var latest := Latest(db.assignments, input.run, input.task);
    && input.actor.None? && input.transition == Close && task.status == Submitted
    && evidence.project == task.project && !Blank(evidence.reason) && !Blank(evidence.validation)
    && latest.Some?
    && db.assignments[latest.value].id == evidence.assignment
    && db.assignments[latest.value].state == Completed
    && evidence.assignment in db.workspaces
    && var workspace := db.workspaces[evidence.assignment];
       && workspace.run == input.run && workspace.project == task.project && workspace.kind == Worktree
       && workspace.target.None?
       && workspace.base == Some(evidence.base) && workspace.result == Some(evidence.result)
  }

  /** A submitted worktree contribution has not been integrated. */
  predicate AwaitsIntegration(db: Db, run: RunId, task: TaskId) {
    var latest := Latest(db.assignments, run, task);
    && latest.Some?
    && db.assignments[latest.value].id in db.workspaces
    && var workspace := db.workspaces[db.assignments[latest.value].id];
       workspace.kind == Worktree && workspace.target.None?
  }

  function TransitionVerdict(db: Db, input: TransitionInput): Response {
    if !TaskInRun(db, input.task, input.run) then TransitionRefused(NoSuchTask)
    else
      var status := db.tasks[input.task].status;
      var next := status.Transition(input.transition);
      if next.None? then TransitionRefused(InvalidStatus(status))
      else if input.override.Some? && !OverrideAccepted(db, input, input.override.value)
      then TransitionRefused(AcceptanceNotMet)
      else if input.override.None? && input.transition == Close && status == Submitted
              && AwaitsIntegration(db, input.run, input.task)
      then TransitionRefused(AcceptanceNotMet)
      else Transitioned(status, next.value)
  }

  function ReleasedState(transition: TaskTransition): Option<AssignmentState> {
    match transition
    case Reopen => Some(Released)
    case Submit => Some(Completed)
    case Cancel => Some(Aborted)
    case Close => None
  }

  /** Ends the assignment and claim of an in-progress task; anything but one of each is corruption. */
  function ReleaseOwnership(db: Db, input: TransitionInput): Result<Db> {
    var state := ReleasedState(input.transition);
    if state.None? then Err(CorruptTaskState)
    else
      var works := (a: Assignment) => WorksOnTask(a, input.run, input.task);
      var holds := (c: Claim) => ClaimsTask(c, input.run, input.task);
      if Count(db.assignments, works) != 1 || Count(db.claims, holds) != 1 then Err(CorruptTaskState)
      else Ok(db.(
        assignments := Update(db.assignments, works, (a: Assignment) => a.(
          state := state.value,
          summary := if input.summary.Some? then input.summary else a.summary,
          completed := Some(input.at))),
        claims := Update(db.claims, holds, (c: Claim) => c.(released := Some(input.at)))))
  }

  function ResultAfter(task: Task, input: TransitionInput): Option<Document> {
    match input.transition
    case Reopen => None
    case Submit => input.Document()
    case Close => if input.Document().Some? then input.Document() else task.result
    case Cancel => task.result
  }

  function WithStatus(db: Db, input: TransitionInput, next: TaskStatus): Db
    requires input.task in db.tasks
  {
    db.(tasks := db.tasks[input.task :=
      db.tasks[input.task].(status := next, result := ResultAfter(db.tasks[input.task], input))])
  }

  function ApplyTransition(db: Db, input: TransitionInput): Result<(Db, Response)> {
    var verdict := TransitionVerdict(db, input);
    if verdict.TransitionRefused? then Ok((db, verdict))
    else
      var previous, next := db.tasks[input.task].status, db.tasks[input.task].status.Transition(input.transition).value;
      var released := if previous == InProgress then ReleaseOwnership(db, input) else Ok(db);
      if released.Err? then Err(released.error)
      else
        var db1 := WithStatus(released.value, input, next);
        var db2 := Append(db1, input.run, input.actor, input.operation,
                          TaskChanged(input.task, previous, next, input.override));
        if previous != InProgress then Ok((db2, verdict))
        else
          var assignment, claim := ActiveAssignment(db, input.run, input.task), ActiveClaim(db, input.run, input.task);
          if assignment.None? || claim.None? || ReleasedState(input.transition).None? then Err(CorruptTaskState)
          else
            var ended := db.assignments[assignment.value];
            var db3 := Append(db2, input.run, input.actor, input.operation,
                              AssignmentChanged(ended.id, ended.state, ReleasedState(input.transition).value));
            Ok((Append(db3, input.run, input.actor, input.operation, ClaimReleased(input.task, claim.value + 1)),
                verdict))
  }
}
