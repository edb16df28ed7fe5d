/** Worktrees recorded after their task is closed: what that costs, and that it can happen (src/state.rs). */
module LateRecording {
  import opened Bytes
  import opened Tasks
  import opened Database
  import opened Work
  import opened WorkInvariants
  import opened LogAgreement
  import opened Sessions
  import opened Fencing
  import opened Workspaces
  import opened Closure
  import opened Inboxes
  import opened Ledger
  import opened Runs
  import opened Guarantees

  /** In every reachable state, a worktree recorded late for an accepted task leaves it closed but not accepted. */
  lemma LateRecordingLosesAcceptance(steps: seq<Step>, input: WorkspaceInput, task: TaskId)
    requires task !in LateIn(EMPTY_DB, steps)
    requires RecordWorkspace(Reached(steps), input).Ok? && IsLateFor(Reached(steps), input, task)
    ensures var after := Reached(steps + [AddWorkspace(input)]);
            && task in after.tasks && after.tasks[task].status == Closed
            && task in Reached(steps).tasks && WasAccepted(Reached(steps), task) && !WasAccepted(after, task)
            && task in LateIn(EMPTY_DB, steps + [AddWorkspace(input)])
  {
    hide RecordWorkspace, IsLateFor, WasAccepted, Accepted, Owned, Prerequisites, LogsAgree, InboxesTold, Fenced;
    ReachableStatesAreSafe(steps);
    assert (steps + [AddWorkspace(input)])[..|steps|] == steps;
    LateRecordingIsNotAccepted(Reached(steps), input, LateIn(EMPTY_DB, steps), task);
    LateTasksAreLate(Reached(steps), input, task);
  }

  lemma LateTasksAreLate(db: Db, input: WorkspaceInput, task: TaskId)
    requires IsLateFor(db, input, task)
    ensures task in db.tasks && db.tasks[task].status == Closed && task in LateTasks(db, AddWorkspace(input))
  {
  }

  // ----- A history in which that happens -----

  /** The names used by the history. */
  datatype Cast = Cast(run: RunId, agent: AgentId, task: TaskId, project: ProjectId, assignment: AssignmentId)
  {
    function Create(): Mutation {
      Mutation(CreateCommand(CreateInput(0, run, None, task, project, "", {})), None)
    }

    function Claim(): Mutation {
      Mutation(ClaimCommand(ClaimInput(1, run, None, task, agent, assignment, 0)), None)
    }

    function Move(operation: OperationId, transition: TaskTransition): Mutation {
      Mutation(TransitionCommand(TransitionInput(operation, run, None, task, transition, None, None, None, 0)), None)
    }

    function Workspace(): WorkspaceInput {
      WorkspaceInput(AssignmentScope(run, assignment, 0), project, Worktree, None, Desired)
    }

    function UpToClose(): seq<Step> {
      [BeginRun(run), AddAgent(agent, run, 0), Call(Create(), Completes), Call(Claim(), Completes),
       Call(Move(2, Submit), Completes), Call(Move(3, Close), Completes)]
    }
  }

  /** The task has come this far, under operation identifiers below `used`. */
  ghost predicate Staged(db: Db, cast: Cast, status: Option<TaskStatus>, used: nat) {
    && cast.run in db.runs && AgentInRun(db, cast.agent, cast.run) && db.agents[cast.agent].generation == 0
    && db.edges == {} && db.workspaces == map[] && (forall id | id in db.operations :: id < used)
    && (if status.None? then cast.task !in db.tasks
        else TaskInRun(db, cast.task, cast.run) && db.tasks[cast.task].status == status.value
             && db.tasks[cast.task].project == cast.project)
    && (if status.None? || status == Some(Open) then db.claims == [] && db.assignments == []
        else |db.assignments| == 1
             && var a := db.assignments[0];
                a.id == cast.assignment && a.run == cast.run && a.task == cast.task && a.generation == 0)
  }

  lemma CallTakesEffect(db: Db, m: Mutation)
    requires m.command.Id() !in db.operations && MayInsertOperation(db, m) && Apply(Begun(db, m), m.command).Ok?
    ensures var applied, after := Apply(Begun(db, m), m.command).value.0, Next(db, Call(m, Completes));
            && after == applied.(operations := after.operations)
            && after.operations.Keys == applied.operations.Keys + {m.command.Id()}
  {
    hide Apply;
  }

  lemma RunBegins(cast: Cast)
    ensures Staged(Next(Next(EMPTY_DB, BeginRun(cast.run)), AddAgent(cast.agent, cast.run, 0)), cast, None, 0)
  {
  }

  lemma TaskIsCreated(db: Db, cast: Cast)
    requires Staged(db, cast, None, 0)
    ensures Staged(Next(db, Call(cast.Create(), Completes)), cast, Some(Open), 1)
  {
    CallTakesEffect(db, cast.Create());
    hide Next;
  }

  lemma TaskIsClaimed(db: Db, cast: Cast)
    requires Staged(db, cast, Some(Open), 1)
    ensures Staged(Next(db, Call(cast.Claim(), Completes)), cast, Some(InProgress), 2)
  {
    var begun := Begun(db, cast.Claim());
    assert Claimable(begun, cast.Claim().command.claim) && !AssignmentExists(begun, cast.assignment);
    CallTakesEffect(db, cast.Claim());
    ClaimOutcome(begun, cast.Claim().command.claim);
    hide Next;
  }

  lemma TaskMoves(db: Db, cast: Cast, operation: OperationId, transition: TaskTransition, status: TaskStatus, next: TaskStatus)
    requires Owned(db) && Staged(db, cast, Some(status), operation)
    requires status != Open && status.Transition(transition) == Some(next) && next != Open
    ensures Staged(Next(db, Call(cast.Move(operation, transition), Completes)), cast, Some(next), operation + 1)
  {
    hide ApplyTransition, Owned, Next, Moves, Staged, TransitionVerdict;
    var m := cast.Move(operation, transition);
    var begun := Begun(db, m);
    MoveIsAllowed(db, cast, operation, transition, status, next);
    OwnedDependsOnWork(db, begun);
    var n := TransitionOutcome(begun, m.command.move);
    CallTakesEffect(db, m);
    MovedAsStaged(db, begun, ApplyTransition(begun, m.command.move).value.0, Next(db, Call(m, Completes)),
                  cast, operation, status, next, n);
  }

  lemma MoveIsAllowed(db: Db, cast: Cast, operation: OperationId, transition: TaskTransition, status: TaskStatus, next: TaskStatus)
    requires Staged(db, cast, Some(status), operation) && status.Transition(transition) == Some(next)
    ensures var m := cast.Move(operation, transition);
            && operation !in db.operations && MayInsertOperation(db, m)
            && TransitionVerdict(Begun(db, m), m.command.move) == Transitioned(status, next)
  {
    hide OverrideAccepted, Latest;
  }

  lemma MovedAsStaged(
      db: Db, begun: Db, applied: Db, after: Db, cast: Cast, operation: OperationId, status: TaskStatus, next: TaskStatus, n: nat)
    requires Staged(db, cast, Some(status), operation) && status != Open && next != Open
    requires begun == db.(operations := begun.operations) && begun.operations.Keys == db.operations.Keys + {operation}
    requires Moves(begun, applied, cast.task, next, n)
    requires after == applied.(operations := after.operations) && after.operations.Keys == applied.operations.Keys + {operation}
    ensures Staged(after, cast, Some(next), operation + 1)
  {
  }

  lemma {:induction false} OnlyRecordingIsLate(db: Db, steps: seq<Step>)
    requires forall i | 0 <= i < |steps| :: !steps[i].AddWorkspace?
    ensures LateIn(db, steps) == {}
    decreases |steps|
  {
    if steps != [] {
      OnlyRecordingIsLate(db, steps[..|steps| - 1]);
    }
  }

  lemma NothingYet()
    ensures Reached([]) == EMPTY_DB
  {
  }

  lemma OneStepOn(steps: seq<Step>, n: nat, after: Db)
    requires n < |steps| && Next(Reached(steps[..n]), steps[n]) == after
    ensures Reached(steps[..n + 1]) == after
  {
    assert steps[..n + 1][..n] == steps[..n];
  }

  lemma ReachableTasksAreOwned(steps: seq<Step>)
    ensures Owned(Reached(steps))
  {
    ReachableStatesAreSafe(steps);
  }

  lemma TheTaskGetsClosed(cast: Cast)
    ensures Staged(Reached(cast.UpToClose()), cast, Some(Closed), 4)
  {
    hide Staged, Next, Owned, After;
    var steps := cast.UpToClose();
    assert steps[..0] == [] && steps[..6] == steps;
    NothingYet();
    var begun := Next(EMPTY_DB, BeginRun(cast.run));
    OneStepOn(steps, 0, begun);
    RunBegins(cast);
    var joined := Next(begun, AddAgent(cast.agent, cast.run, 0));
    OneStepOn(steps, 1, joined);
    TaskIsCreated(joined, cast);
    var created := Next(joined, steps[2]);
    OneStepOn(steps, 2, created);
    TaskIsClaimed(created, cast);
    var claimed := Next(created, steps[3]);
    OneStepOn(steps, 3, claimed);
    ReachableTasksAreOwned(steps[..4]);
    TaskMoves(claimed, cast, 2, Submit, InProgress, Submitted);
    var submitted := Next(claimed, steps[4]);
    OneStepOn(steps, 4, submitted);
    ReachableTasksAreOwned(steps[..5]);
    TaskMoves(submitted, cast, 3, Close, Submitted, Closed);
    OneStepOn(steps, 5, Next(submitted, steps[5]));
  }

  lemma ItsWorktreeWouldBeLate(db: Db, cast: Cast)
    requires Staged(db, cast, Some(Closed), 4)
    ensures RecordWorkspace(db, cast.Workspace()).Ok? && IsLateFor(db, cast.Workspace(), cast.task)
  {
  }

  /** A worktree can be recorded late: a task is closed without one, and accepted, and then its worktree appears. */
  lemma WorktreesCanComeLate(cast: Cast)
    ensures var steps, input := cast.UpToClose(), cast.Workspace();
            var after := Reached(steps + [AddWorkspace(input)]);
            && cast.task !in LateIn(EMPTY_DB, steps)
            && RecordWorkspace(Reached(steps), input).Ok? && IsLateFor(Reached(steps), input, cast.task)
            && cast.task in Reached(steps).tasks && WasAccepted(Reached(steps), cast.task)
            && cast.task in after.tasks && after.tasks[cast.task].status == Closed && !WasAccepted(after, cast.task)
  {
    hide Staged, RecordWorkspace, IsLateFor, WasAccepted;
    TheTaskGetsClosed(cast);
    ItsWorktreeWouldBeLate(Reached(cast.UpToClose()), cast);
    OnlyRecordingIsLate(EMPTY_DB, cast.UpToClose());
    LateRecordingLosesAcceptance(cast.UpToClose(), cast.Workspace(), cast.task);
  }
}
