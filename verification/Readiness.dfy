/** The ready query, the readiness facts and the claim agree (src/state.rs, src/tasks.rs). */
module Readiness {
  import opened Bytes
  import opened Tasks
  import opened Database
  import opened Work
  import opened WorkInvariants

  /** Looked up with or without its run, a task has the same unresolved prerequisites and active claim. */
  lemma RunsDoNotMatter(db: Db, run: RunId, task: TaskId)
    requires Owned(db) && Prerequisites(db) && TaskInRun(db, task, run)
    ensures ReadinessOf(db, task).value.unresolvedDependencies == Unresolved(db, run, task)
    ensures ReadinessOf(db, task).value.hasActiveClaim <==> ActiveClaim(db, run, task).Some?
  {
    forall i | 0 <= i < |db.claims|
      ensures db.claims[i].task == task ==> db.claims[i].run == run
    {
      assert Paired(db, i);
    }
  }

  /** A task is listed as ready in its run exactly when its readiness facts say so. */
  lemma ReadyMeansListed(db: Db, run: RunId, task: TaskId)
    requires Owned(db) && Prerequisites(db)
    ensures task in ReadyTasks(db, run) <==> TaskInRun(db, task, run) && ReadinessOf(db, task).value.IsReady()
  {
    if TaskInRun(db, task, run) {
      RunsDoNotMatter(db, run, task);
    }
  }

  /** An idle agent of the run wins a claim exactly when the task is ready. */
  lemma ReadyMeansClaimable(db: Db, input: ClaimInput)
    requires Owned(db) && Prerequisites(db)
    requires AgentInRun(db, input.agent, input.run) && !AgentBusyIn(db, input.run, input.agent)
    requires !AssignmentExists(db, input.assignment)
    ensures ApplyClaim(db, input).Ok?
    ensures ApplyClaim(db, input).value.1.Claimed? <==>
              TaskInRun(db, input.task, input.run) && ReadinessOf(db, input.task).value.IsReady()
  {
    ReadyMeansListed(db, input.run, input.task);
  }

  /** What each rejection says about the state it was given in. */
  ghost predicate Explains(db: Db, input: ClaimInput, reason: ClaimRejection) {
    match reason
    case AgentNotFound => !AgentInRun(db, input.agent, input.run)
    case TaskNotFound => !TaskInRun(db, input.task, input.run)
    case AlreadyClaimed =>
      TaskInRun(db, input.task, input.run) && db.tasks[input.task].status == InProgress
      && exists i :: Live(db, i) && db.assignments[i].task == input.task
    case TaskNotOpen =>
      TaskInRun(db, input.task, input.run)
      && db.tasks[input.task].status != Open && db.tasks[input.task].status != InProgress
    case Blocked =>
      TaskInRun(db, input.task, input.run) && db.tasks[input.task].status == Open
      && exists e :: e in db.edges && e.task == input.task && e.dependency in db.tasks && db.tasks[e.dependency].status != Closed
    case AgentBusy =>
      TaskInRun(db, input.task, input.run) && ReadinessOf(db, input.task).value.IsReady()
      && exists i :: Live(db, i) && db.assignments[i].agent == input.agent && db.assignments[i].task != input.task
  }

  /** A refused claim is told a true reason; in particular the last, unconditional answer is never reached. */
  lemma RejectionsAreTrue(db: Db, input: ClaimInput)
    requires Owned(db) && Prerequisites(db)
    requires ApplyClaim(db, input).Ok? && ApplyClaim(db, input).value.1.ClaimRefused?
    ensures Explains(db, input, ApplyClaim(db, input).value.1.claimReason)
  {
    if AgentInRun(db, input.agent, input.run) {
      ClaimantsReason(db, input);
    }
  }

  lemma ClaimantsReason(db: Db, input: ClaimInput)
    requires Owned(db) && Prerequisites(db) && !Claimable(db, input)
    ensures Explains(db, input, RejectionOf(db, input))
  {
    var claim := ActiveClaim(db, input.run, input.task);
    if claim.Some? {
      assert Paired(db, claim.value) && Live(db, claim.value);
      assert IsInProgress(db, input.task);
    } else if TaskInRun(db, input.task, input.run) {
      RunsDoNotMatter(db, input.run, input.task);
      if db.tasks[input.task].status == InProgress {
        var i := OwnerOf(db, input.run, input.task);
        assert false;
      } else if db.tasks[input.task].status == Open {
        if Unresolved(db, input.run, input.task) != {} {
          var d :| d in Unresolved(db, input.run, input.task);
        } else {
          BusyAgentsWorkElsewhere(db, input);
        }
      }
    }
  }

  lemma BusyAgentsWorkElsewhere(db: Db, input: ClaimInput)
    requires Owned(db) && AgentBusyIn(db, input.run, input.agent)
    requires input.task in db.tasks && db.tasks[input.task].status == Open
    ensures exists i :: Live(db, i) && db.assignments[i].agent == input.agent && db.assignments[i].task != input.task
  {
    var i :| 0 <= i < |db.assignments| && KeepsBusy(db.assignments[i], input.run, input.agent);
    assert Live(db, i) && IsInProgress(db, db.assignments[i].task);
  }
}
