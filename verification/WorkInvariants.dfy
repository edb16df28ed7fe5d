/** Ownership, prerequisites, closure evidence and the event log: what every task operation keeps. */
module WorkInvariants {
  import opened Bytes
  import opened Tables
  import opened Tasks
  import opened Database
  import opened EventLog
  import opened Work

  // ----- Ownership of in-progress tasks -----

  ghost predicate IsInProgress(db: Db, task: TaskId) {
    task in db.tasks && db.tasks[task].status == InProgress
  }

  ghost predicate Live(db: Db, i: int) {
    0 <= i < |db.assignments| && db.assignments[i].completed.None?
  }

  /** Every assignment row stands beside the claim row it was created with. */
  ghost predicate Paired(db: Db, i: int)
    requires 0 <= i < |db.assignments| == |db.claims|
  {
    var a, c := db.assignments[i], db.claims[i];
    && a.claim == i + 1 && c.run == a.run && c.task == a.task && c.agent == a.agent
    && (c.released.None? <==> a.completed.None?)
    && (a.completed.None? <==> a.state == Active)
    && TaskInRun(db, a.task, a.run) && AgentInRun(db, a.agent, a.run)
  }

  ghost predicate Owned(db: Db) {
    && |db.claims| == |db.assignments|
    && (forall i | 0 <= i < |db.assignments| :: Paired(db, i))
    && (forall i, j | 0 <= i < j < |db.assignments| :: db.assignments[i].id != db.assignments[j].id)
    && (forall i | Live(db, i) :: IsInProgress(db, db.assignments[i].task))
    && (forall i, j | Live(db, i) && Live(db, j) && i != j ::
          db.assignments[i].task != db.assignments[j].task && db.assignments[i].agent != db.assignments[j].agent)
    && (forall t | IsInProgress(db, t) ::
          exists i :: Live(db, i) && db.assignments[i].task == t)
  }

  /** The one live row of an in-progress task is what both lookups find. */
  lemma OwnerOf(db: Db, run: RunId, task: TaskId) returns (i: nat)
    requires Owned(db) && TaskInRun(db, task, run) && db.tasks[task].status == InProgress
    ensures Live(db, i) && db.assignments[i].task == task
    ensures ActiveAssignment(db, run, task) == Some(i) && ActiveClaim(db, run, task) == Some(i)
    ensures forall k | 0 <= k < |db.assignments| && k != i ::
              !WorksOnTask(db.assignments[k], run, task) && !ClaimsTask(db.claims[k], run, task)
    ensures WorksOnTask(db.assignments[i], run, task) && ClaimsTask(db.claims[i], run, task)
  {
    assert IsInProgress(db, task);
    i :| Live(db, i) && db.assignments[i].task == task;
    assert Paired(db, i);
    forall k | 0 <= k < |db.assignments| && k != i
      ensures !WorksOnTask(db.assignments[k], run, task) && !ClaimsTask(db.claims[k], run, task)
    {
      assert Paired(db, k);
      assert Live(db, k) ==> db.assignments[k].task != task;
    }
  }

  lemma NoOwnerOf(db: Db, run: RunId, task: TaskId)
    requires Owned(db) && (task in db.tasks ==> db.tasks[task].status != InProgress)
    ensures forall k | 0 <= k < |db.assignments| ::
              !WorksOnTask(db.assignments[k], run, task) && !ClaimsTask(db.claims[k], run, task)
    ensures ActiveClaim(db, run, task).None? && ActiveAssignment(db, run, task).None?
  {
    forall k | 0 <= k < |db.assignments|
      ensures !WorksOnTask(db.assignments[k], run, task) && !ClaimsTask(db.claims[k], run, task)
    {
      assert Paired(db, k);
      assert Live(db, k) ==> IsInProgress(db, db.assignments[k].task);
    }
  }

  /**
   * A task is in progress exactly when it has one unreleased claim and one uncompleted assignment;
   * these are linked and name the same agent, and any other task has neither.
   */
  lemma OwnershipIsExact(db: Db, run: RunId, task: TaskId)
    requires Owned(db) && TaskInRun(db, task, run)
    ensures var claims := Count(db.claims, (c: Claim) => ClaimsTask(c, run, task));
            var works := Count(db.assignments, (a: Assignment) => WorksOnTask(a, run, task));
            && claims == works == (if db.tasks[task].status == InProgress then 1 else 0)
    ensures db.tasks[task].status == InProgress ==>
              var claim, assignment := ActiveClaim(db, run, task), ActiveAssignment(db, run, task);
              && claim.Some? && assignment.Some?
              && db.assignments[assignment.value].claim == claim.value + 1
              && db.assignments[assignment.value].agent == db.claims[claim.value].agent
  {
    if db.tasks[task].status == InProgress {
      var i := OwnerOf(db, run, task);
      CountUnique(db.claims, (c: Claim) => ClaimsTask(c, run, task), i);
      CountUnique(db.assignments, (a: Assignment) => WorksOnTask(a, run, task), i);
      assert Paired(db, i);
    } else {
      NoOwnerOf(db, run, task);
      CountNone(db.claims, (c: Claim) => ClaimsTask(c, run, task));
      CountNone(db.assignments, (a: Assignment) => WorksOnTask(a, run, task));
    }
  }

  /** No agent has two uncompleted assignments. */
  lemma AgentsWorkOnOneTask(db: Db, run: RunId, agent: AgentId)
    requires Owned(db)
    ensures Count(db.assignments, (a: Assignment) => KeepsBusy(a, run, agent)) <= 1
  {
    var busy := (a: Assignment) => KeepsBusy(a, run, agent);
    if i: nat :| i < |db.assignments| && busy(db.assignments[i]) {
      forall k | 0 <= k < |db.assignments| && k != i
        ensures !busy(db.assignments[k])
      {
        assert Live(db, i) && (Live(db, k) ==> db.assignments[k].agent != db.assignments[i].agent);
      }
      CountUnique(db.assignments, busy, i);
    } else {
      CountNone(db.assignments, busy);
    }
  }

  /** The release of a task's owner touches its two rows and nothing else. */
  lemma ReleaseEndsTheOwner(db: Db, input: TransitionInput) returns (i: nat)
    requires Owned(db) && TaskInRun(db, input.task, input.run) && db.tasks[input.task].status == InProgress
    requires ReleasedState(input.transition).Some?
    ensures Live(db, i) && db.assignments[i].task == input.task
    ensures ActiveAssignment(db, input.run, input.task) == Some(i)
    ensures ActiveClaim(db, input.run, input.task) == Some(i)
    ensures ReleaseOwnership(db, input) == Ok(db.(
              assignments := db.assignments[i := db.assignments[i].(
                state := ReleasedState(input.transition).value,
                summary := if input.summary.Some? then input.summary else db.assignments[i].summary,
                completed := Some(input.at))],
              claims := db.claims[i := db.claims[i].(released := Some(input.at))]))
  {
    i := OwnerOf(db, input.run, input.task);
    var works := (a: Assignment) => WorksOnTask(a, input.run, input.task);
    var holds := (c: Claim) => ClaimsTask(c, input.run, input.task);
    CountUnique(db.assignments, works, i);
    CountUnique(db.claims, holds, i);
    UpdateUnique(db.assignments, works, (a: Assignment) => a.(
      state := ReleasedState(input.transition).value,
      summary := if input.summary.Some? then input.summary else a.summary,
      completed := Some(input.at)), i);
    UpdateUnique(db.claims, holds, (c: Claim) => c.(released := Some(input.at)), i);
  }

  /** The corruption errors of a transition never fire: its outcome is always its verdict. */
  lemma TransitionsNeverFindCorruption(db: Db, input: TransitionInput)
    requires Owned(db)
    ensures ApplyTransition(db, input).Ok?
    ensures ApplyTransition(db, input).value.1 == TransitionVerdict(db, input)
  {
    if TransitionVerdict(db, input).Transitioned? && db.tasks[input.task].status == InProgress {
      var i := ReleaseEndsTheOwner(db, input);
    }
  }

  /** Agents may change state and generation, and new ones may appear. */
  ghost predicate AgentsPersist(db: Db, after: Db) {
    forall a | a in db.agents :: AgentInRun(after, a, db.agents[a].run)
  }

  /** Ownership reads nothing but these tables. */
  lemma OwnedDependsOnWork(db: Db, after: Db)
    requires Owned(db) && AgentsPersist(db, after)
    requires after.tasks == db.tasks && after.claims == db.claims && after.assignments == db.assignments
    ensures Owned(after)
  {
    forall i | 0 <= i < |after.assignments|
      ensures Paired(after, i)
    {
      assert Paired(db, i);
    }
    forall t | IsInProgress(after, t)
      ensures exists i :: Live(after, i) && after.assignments[i].task == t
    {
      assert IsInProgress(db, t);
      var i :| Live(db, i) && db.assignments[i].task == t;
      assert Live(after, i);
    }
    assert forall i :: Live(after, i) <==> Live(db, i);
    assert forall t :: IsInProgress(after, t) <==> IsInProgress(db, t);
  }

  lemma IdlenessMeansNoRow(db: Db, run: RunId, agent: AgentId)
    requires Owned(db) && AgentInRun(db, agent, run) && !AgentBusyIn(db, run, agent)
    ensures forall i | Live(db, i) :: db.assignments[i].agent != agent
  {
    forall i | Live(db, i)
      ensures db.assignments[i].agent != agent
    {
      assert Paired(db, i);
      assert !KeepsBusy(db.assignments[i], run, agent);
    }
  }

  lemma WithClaimKeepsOwned(db: Db, input: ClaimInput)
    requires Owned(db) && AgentInRun(db, input.agent, input.run)
    requires Claimable(db, input) && !AssignmentExists(db, input.assignment)
    ensures Owned(WithClaim(db, input))
  {
    var after, n := WithClaim(db, input), |db.assignments|;
    IdlenessMeansNoRow(db, input.run, input.agent);
    forall i | 0 <= i < n
      ensures Paired(after, i) && after.assignments[i] == db.assignments[i] && (Live(after, i) <==> Live(db, i))
      ensures db.assignments[i].id != input.assignment
      ensures Live(db, i) ==> IsInProgress(db, db.assignments[i].task) && db.assignments[i].task != input.task
    {
      assert Paired(db, i);
    }
    forall t | IsInProgress(after, t)
      ensures exists i :: Live(after, i) && after.assignments[i].task == t
    {
      if t == input.task {
        assert Live(after, n);
      } else {
        assert IsInProgress(db, t);
        var i :| Live(db, i) && db.assignments[i].task == t;
        assert Live(after, i);
      }
    }
    assert Paired(after, n);
  }

  /** A won claim changes the tables as `WithClaim` says and appends events. */
  lemma ClaimOutcome(db: Db, input: ClaimInput)
    requires ApplyClaim(db, input).Ok?
    ensures var (after, response) := ApplyClaim(db, input).value;
            if response.Claimed? then
              && AgentInRun(db, input.agent, input.run) && Claimable(db, input) && !AssignmentExists(db, input.assignment)
              && after == WithClaim(db, input).(events := after.events)
            else after == db
  {
  }

  lemma ClaimKeepsOwned(db: Db, input: ClaimInput)
    requires Owned(db) && ApplyClaim(db, input).Ok?
    ensures Owned(ApplyClaim(db, input).value.0)
  {
    ClaimOutcome(db, input);
    if ApplyClaim(db, input).value.1.Claimed? {
      WithClaimKeepsOwned(db, input);
      OwnedDependsOnWork(WithClaim(db, input), ApplyClaim(db, input).value.0);
    }
  }

  /** A task takes a new status; row `n`, when there is one, ends as its owner. */
  ghost predicate Moves(db: Db, after: Db, task: TaskId, next: TaskStatus, n: nat) {
    && task in db.tasks && task in after.tasks && after.tasks == db.tasks[task := after.tasks[task]]
    && after.tasks[task].run == db.tasks[task].run && after.tasks[task].project == db.tasks[task].project
    && after.tasks[task].status == next
    && after == db.(tasks := after.tasks, claims := after.claims, assignments := after.assignments, events := after.events)
    && |after.assignments| == |db.assignments| && |after.claims| == |db.claims|
    && (if n < |db.assignments| && n < |db.claims| then
          var a, c := after.assignments[n], after.claims[n];
          && after.assignments == db.assignments[n := a] && after.claims == db.claims[n := c]
          && db.assignments[n].completed.None? && a.completed.Some? && a.state != Active
          && a == db.assignments[n].(state := a.state, summary := a.summary, completed := a.completed)
          && c.released.Some? && c == db.claims[n].(released := c.released)
        else
          after.assignments == db.assignments && after.claims == db.claims)
  }

  /** What an applied transition does to the tables: it ends the owner exactly when the task had one. */
  lemma TransitionOutcome(db: Db, input: TransitionInput) returns (n: nat)
    requires Owned(db)
    ensures ApplyTransition(db, input).Ok? && ApplyTransition(db, input).value.1 == TransitionVerdict(db, input)
    ensures var after := ApplyTransition(db, input).value.0;
            if TransitionVerdict(db, input).Transitioned? then
              && TaskInRun(db, input.task, input.run)
              && db.tasks[input.task].status.Transition(input.transition) == Some(TransitionVerdict(db, input).next)
              && Moves(db, after, input.task, TransitionVerdict(db, input).next, n)
              && after.tasks[input.task].result == ResultAfter(db.tasks[input.task], input)
              && (if db.tasks[input.task].status == InProgress
                  then
                    && n < |db.assignments| && db.assignments[n].task == input.task
                    && ActiveAssignment(db, input.run, input.task) == Some(n)
                    && ActiveClaim(db, input.run, input.task) == Some(n)
                    && ReleasedState(input.transition) == Some(after.assignments[n].state)
                  else n == |db.assignments|)
            else after == db
  {
    hide ApplyTransition, OverrideAccepted, AwaitsIntegration, Moves, Owned, WithStatus, ReleaseOwnership;
    n := |db.assignments|;
    TransitionsNeverFindCorruption(db, input);
    if TransitionVerdict(db, input).Transitioned? {
      TransitionShape(db, input);
      var after, next := ApplyTransition(db, input).value.0, TransitionVerdict(db, input).next;
      if db.tasks[input.task].status == InProgress {
        n := ReleaseEndsTheOwner(db, input);
        OwnedMove(db, after, input, next, n, ReleasedState(input.transition).value);
      } else {
        UnownedMove(db, after, input, next);
      }
    } else {
      RefusalShape(db, input);
    }
  }

  /** The rows a won claim writes: they carry the claimant, its generation and the time of the claim. */
  lemma ClaimWritesItsRows(db: Db, input: ClaimInput)
    requires ApplyClaim(db, input).Ok? && ApplyClaim(db, input).value.1.Claimed?
    ensures var (after, response) := ApplyClaim(db, input).value; var n := |db.claims|;
            && response == Claimed(n + 1, input.assignment) && input.agent in db.agents && input.task in db.tasks
            && after.claims == db.claims + [Claim(input.run, input.task, input.agent, input.operation, None)]
            && after.assignments == db.assignments + [Assignment(
                 input.assignment, input.run, input.task, input.agent, None, n + 1,
                 db.agents[input.agent].generation, Active, None, input.at, None)]
            && after.tasks == db.tasks[input.task := Task(
                 db.tasks[input.task].run, db.tasks[input.task].project, InProgress, db.tasks[input.task].result)]
  {
    ClaimOutcome(db, input);
  }

  /** A text is blank when it has none but the white-space characters of Unicode. */
  lemma BlankTextsAreWhiteSpace(text: string)
    ensures Blank(text) <==> forall i | 0 <= i < |text| :: text[i] as int in {
              9, 10, 11, 12, 13, 32, 133, 160, 5760, 8192, 8193, 8194, 8195, 8196, 8197, 8198, 8199, 8200, 8201, 8202,
              8232, 8233, 8239, 8287, 12288}
  {
    if !Blank(text) {
      var c :| c in text && !IsWhitespace(c);
      var i :| 0 <= i < |text| && text[i] == c;
    } else {
      forall i | 0 <= i < |text|
        ensures IsWhitespace(text[i])
      {
        assert text[i] in text;
      }
    }
  }

  /**
   * Exactly which closes of a submitted task are accepted. Without evidence, the latest assignment must not have an
   * unintegrated worktree. With evidence it must have one, and an operator must name that assignment, its project and
   * its recorded commits, and say why and on what validation.
   */
  lemma ClosesAreAcceptedExactly(db: Db, input: TransitionInput, i: nat)
    requires TaskInRun(db, input.task, input.run) && db.tasks[input.task].status == Submitted
    requires input.transition == Close && Latest(db.assignments, input.run, input.task) == Some(i)
    ensures var a := db.assignments[i];
            TransitionVerdict(db, input) == Transitioned(Submitted, Closed) <==>
              match input.override
              case None =>
                a.id in db.workspaces ==> db.workspaces[a.id].kind != Worktree || db.workspaces[a.id].target.Some?
              case Some(e) =>
                && input.actor.None? && !Blank(e.reason) && !Blank(e.validation)
                && e.assignment == a.id && a.state == Completed && e.project == db.tasks[input.task].project
                && a.id in db.workspaces
                && var w := db.workspaces[a.id];
                   && w.run == input.run && w.project == e.project && w.kind == Worktree
                   && w.base == Some(e.base) && w.result == Some(e.result) && w.target == None
    ensures TransitionVerdict(db, input) in {Transitioned(Submitted, Closed), TransitionRefused(AcceptanceNotMet)}
  {
    hide Blank, Latest;
  }

  /** Exactly when any other action is accepted: the task is in the run, the lifecycle permits it, and no evidence is given. */
  lemma MovesAreAcceptedExactly(db: Db, input: TransitionInput)
    requires input.transition != Close
    ensures TransitionVerdict(db, input) ==
              if !(input.task in db.tasks && db.tasks[input.task].run == input.run) then TransitionRefused(NoSuchTask)
              else if !db.tasks[input.task].status.CanTransitionTo(TargetOf(input.transition))
              then TransitionRefused(InvalidStatus(db.tasks[input.task].status))
              else if input.override.Some? then TransitionRefused(AcceptanceNotMet)
              else Transitioned(db.tasks[input.task].status, TargetOf(input.transition))
  {
    hide Latest, Blank;
  }

  /** What a submission records: the result given, with evidence put into it if there is any. */
  function Supplied(input: TransitionInput): Option<Document> {
    match (input.result, input.override)
    case (given, None) => given
    case (Some(document), Some(evidence)) => Some(Document(document.body, Some(evidence)))
    case (None, Some(evidence)) => Some(Document("{}", Some(evidence)))
  }

  /**
   * What each action leaves behind: reopening an open task without a result, submitting a submitted one with the
   * result given, closing a closed one that keeps its result unless another is given, canceling a canceled one
   * that keeps its result.
   */
  lemma TransitionsLeaveTheirStatus(db: Db, input: TransitionInput)
    requires Owned(db) && ApplyTransition(db, input).Ok? && ApplyTransition(db, input).value.1.Transitioned?
    ensures var after, task := ApplyTransition(db, input).value.0, input.task;
            && task in db.tasks && task in after.tasks && db.tasks[task].run == input.run
            && after.tasks == db.tasks[task := after.tasks[task]]
            && after.tasks[task].run == db.tasks[task].run && after.tasks[task].project == db.tasks[task].project
            && ApplyTransition(db, input).value.1 == Transitioned(db.tasks[task].status, after.tasks[task].status)
            && (match input.transition
                case Reopen =>
                  && db.tasks[task].status in {InProgress, Submitted}
                  && after.tasks[task].status == Open && after.tasks[task].result == None
                case Submit =>
                  && db.tasks[task].status == InProgress
                  && after.tasks[task].status == Submitted && after.tasks[task].result == Supplied(input)
                case Close =>
                  && db.tasks[task].status == Submitted && after.tasks[task].status == Closed
                  && after.tasks[task].result == (if Supplied(input).Some? then Supplied(input) else db.tasks[task].result)
                case Cancel =>
                  && db.tasks[task].status in {Open, InProgress, Submitted}
                  && after.tasks[task].status == Canceled && after.tasks[task].result == db.tasks[task].result)
  {
    hide ApplyTransition, Owned, OverrideAccepted, AwaitsIntegration, ActiveAssignment, ActiveClaim;
    var n := TransitionOutcome(db, input);
  }

  /**
   * How an action ends the owner of an in-progress task: reopening releases its assignment, submitting completes
   * it, canceling aborts it; the summary is the one given, if any; the claim is released at the same time.
   */
  lemma TransitionsEndTheirOwner(db: Db, input: TransitionInput) returns (i: nat)
    requires Owned(db) && ApplyTransition(db, input).Ok? && ApplyTransition(db, input).value.1.Transitioned?
    requires input.task in db.tasks && db.tasks[input.task].status == InProgress
    ensures var after := ApplyTransition(db, input).value.0;
            && i < |db.assignments| == |db.claims| && Live(db, i) && db.assignments[i].task == input.task
            && after.claims == db.claims[i := db.claims[i].(released := Some(input.at))]
            && after.assignments == db.assignments[i := db.assignments[i].(
                 state := (match input.transition case Reopen => Released case Submit => Completed case _ => Aborted),
                 summary := (match input.summary case Some(text) => Some(text) case None => db.assignments[i].summary),
                 completed := Some(input.at))]
  {
    hide Owned, OverrideAccepted, AwaitsIntegration, ActiveAssignment, ActiveClaim, ReleaseOwnership;
    TransitionShape(db, input);
    i := ReleaseEndsTheOwner(db, input);
    LiveMeansPaired(db, i);
  }

  lemma LiveMeansPaired(db: Db, i: nat)
    requires Owned(db) && Live(db, i)
    ensures i < |db.assignments| == |db.claims|
  {
  }


  lemma UnownedMove(db: Db, after: Db, input: TransitionInput, next: TaskStatus)
    requires input.task in db.tasks && after == WithStatus(db, input, next).(events := after.events)
    ensures Moves(db, after, input.task, next, |db.assignments|)
    ensures after.tasks[input.task].result == ResultAfter(db.tasks[input.task], input)
  {
    hide ResultAfter;
  }

  lemma OwnedMove(db: Db, after: Db, input: TransitionInput, next: TaskStatus, n: nat, state: AssignmentState)
    requires input.task in db.tasks && Live(db, n) && n < |db.claims| && state != Active
    requires after == WithStatus(db.(
               assignments := db.assignments[n := db.assignments[n].(
                 state := state,
                 summary := if input.summary.Some? then input.summary else db.assignments[n].summary,
                 completed := Some(input.at))],
               claims := db.claims[n := db.claims[n].(released := Some(input.at))]), input, next).(events := after.events)
    ensures Moves(db, after, input.task, next, n) && after.assignments[n].state == state
    ensures after.tasks[input.task].result == ResultAfter(db.tasks[input.task], input)
  {
    hide ResultAfter;
  }

  /** Apart from its events, an applied transition releases the owner, if any, and rewrites the task. */
  lemma TransitionShape(db: Db, input: TransitionInput)
    requires ApplyTransition(db, input).Ok? && TransitionVerdict(db, input).Transitioned?
    ensures var status, after := db.tasks[input.task].status, ApplyTransition(db, input).value.0;
            var released := if status == InProgress then ReleaseOwnership(db, input) else Ok(db);
            && released.Ok?
            && after == WithStatus(released.value, input, TransitionVerdict(db, input).next).(events := after.events)
  {
    hide OverrideAccepted, AwaitsIntegration, ReleaseOwnership;
  }

  lemma RefusalShape(db: Db, input: TransitionInput)
    requires ApplyTransition(db, input).Ok? && TransitionVerdict(db, input).TransitionRefused?
    ensures ApplyTransition(db, input).value.0 == db
  {
    hide OverrideAccepted, AwaitsIntegration, ReleaseOwnership, WithStatus, Append;
  }

  lemma MovesKeepOwned(db: Db, after: Db, task: TaskId, next: TaskStatus, n: nat)
    requires Owned(db) && Moves(db, after, task, next, n) && next != InProgress
    requires if IsInProgress(db, task) then n < |db.assignments| && db.assignments[n].task == task
             else n == |db.assignments|
    ensures Owned(after)
  {
    forall i | 0 <= i < |db.assignments|
      ensures Paired(after, i) && after.assignments[i].id == db.assignments[i].id
      ensures Live(after, i) ==> Live(db, i) && after.assignments[i] == db.assignments[i]
                                 && IsInProgress(after, db.assignments[i].task)
    {
      assert Paired(db, i);
      assert Live(db, i) ==> IsInProgress(db, db.assignments[i].task);
    }
    forall t | IsInProgress(after, t)
      ensures exists i :: Live(after, i) && after.assignments[i].task == t
    {
      assert IsInProgress(db, t) && t != task;
      var i :| Live(db, i) && db.assignments[i].task == t;
      assert Live(after, i);
    }
  }

  lemma TransitionKeepsOwned(db: Db, input: TransitionInput)
    requires Owned(db)
    ensures ApplyTransition(db, input).Ok? && Owned(ApplyTransition(db, input).value.0)
  {
    var n := TransitionOutcome(db, input);
    if TransitionVerdict(db, input).Transitioned? {
      MovesKeepOwned(db, ApplyTransition(db, input).value.0, input.task, TransitionVerdict(db, input).next, n);
    }
  }

  lemma CreateKeepsOwned(db: Db, input: CreateInput)
    requires Owned(db) && ApplyCreate(db, input).Ok?
    ensures Owned(ApplyCreate(db, input).value.0)
  {
    var after := ApplyCreate(db, input).value.0;
    forall i | 0 <= i < |db.assignments|
      ensures Paired(after, i)
    {
      assert Paired(db, i);
    }
    forall i | Live(after, i)
      ensures IsInProgress(after, after.assignments[i].task)
    {
      assert Live(db, i) && IsInProgress(db, db.assignments[i].task);
    }
    forall t | IsInProgress(after, t)
      ensures exists i :: Live(after, i) && after.assignments[i].task == t
    {
      assert IsInProgress(db, t);
      var i :| Live(db, i) && db.assignments[i].task == t;
      assert Live(after, i);
    }
    assert forall i :: Live(after, i) <==> Live(db, i);
  }

  // ----- Prerequisites -----

  /** Past being open, a task relies on its prerequisites. */
  predicate ReliesOnPrerequisites(status: TaskStatus) {
    status == InProgress || status == Submitted || status == Closed
  }

  ghost predicate Prerequisites(db: Db) {
    forall e | e in db.edges ::
      && TaskInRun(db, e.task, e.run) && TaskInRun(db, e.dependency, e.run)
      && (ReliesOnPrerequisites(db.tasks[e.task].status) ==> db.tasks[e.dependency].status == Closed)
  }

  ghost predicate DependsOn(db: Db, task: TaskId, dependency: TaskId) {
    exists e :: e in db.edges && e.task == task && e.dependency == dependency
  }

  /** A chain of tasks, each depending on the next. */
  ghost predicate DependencyPath(db: Db, path: seq<TaskId>) {
    && path != []
    && forall i | 0 <= i < |path| - 1 :: DependsOn(db, path[i], path[i + 1])
  }

  /** Everything an in-progress, submitted or closed task depends on, however indirectly, is closed. */
  lemma {:induction false} PrerequisitesAreTransitive(db: Db, path: seq<TaskId>)
    requires Prerequisites(db) && DependencyPath(db, path) && |path| > 1
    requires path[0] in db.tasks && ReliesOnPrerequisites(db.tasks[path[0]].status)
    ensures path[|path| - 1] in db.tasks && db.tasks[path[|path| - 1]].status == Closed
    decreases |path|
  {
    assert DependsOn(db, path[0], path[0 + 1]);
    if |path| > 2 {
      var rest := path[1..];
      forall i | 0 <= i < |rest| - 1
        ensures DependsOn(db, rest[i], rest[i + 1])
      {
        assert DependsOn(db, path[i + 1], path[i + 1 + 1]);
      }
      PrerequisitesAreTransitive(db, rest);
    }
  }

  lemma CreateKeepsPrerequisites(db: Db, input: CreateInput)
    requires Prerequisites(db) && ApplyCreate(db, input).Ok?
    ensures Prerequisites(ApplyCreate(db, input).value.0)
  {
  }

  lemma ClaimKeepsPrerequisites(db: Db, input: ClaimInput)
    requires Prerequisites(db) && ApplyClaim(db, input).Ok?
    ensures Prerequisites(ApplyClaim(db, input).value.0)
  {
    ClaimOutcome(db, input);
    if ApplyClaim(db, input).value.1.Claimed? {
      assert forall e | e in db.edges && e.task == input.task ::
          e.dependency in Unresolved(db, input.run, input.task) || db.tasks[e.dependency].status == Closed;
    }
  }

  lemma TransitionKeepsPrerequisites(db: Db, input: TransitionInput)
    requires Owned(db) && Prerequisites(db)
    ensures ApplyTransition(db, input).Ok? && Prerequisites(ApplyTransition(db, input).value.0)
  {
    var n := TransitionOutcome(db, input);
    if TransitionVerdict(db, input).Transitioned? {
      MovesKeepPrerequisites(
        db, ApplyTransition(db, input).value.0, input.task, input.transition, TransitionVerdict(db, input).next, n);
    }
  }

  lemma MovesKeepPrerequisites(
      db: Db, after: Db, task: TaskId, transition: TaskTransition, next: TaskStatus, n: nat)
    requires Prerequisites(db) && Moves(db, after, task, next, n)
    requires db.tasks[task].status.Transition(transition) == Some(next)
    ensures Prerequisites(after)
  {
  }
}
