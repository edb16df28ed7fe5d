/** A closed task's work was integrated or accepted by an operator (src/state.rs). */
module Closure {
  import opened Bytes
  import opened Tasks
  import opened Database
  import opened EventLog
  import opened Work
  import opened WorkInvariants
  import opened LogAgreement
  import opened Workspaces
  import opened History

  // ----- The task's latest assignment -----

  /** The latest assignment depends on immutable columns only. */
  lemma {:induction false} LatestFollowsIdentity(before: seq<Assignment>, after: seq<Assignment>, run: RunId, task: TaskId)
    requires |before| == |after|
    requires forall i | 0 <= i < |before| :: AssignmentEvolves(before[i], after[i])
    ensures Latest(before, run, task) == Latest(after, run, task)
    decreases |before|
  {
    if before != [] {
      assert AssignmentEvolves(before[|before| - 1], after[|before| - 1]);
      LatestFollowsIdentity(before[..|before| - 1], after[..|before| - 1], run, task);
    }
  }

  /** Rows of other tasks do not change a task's latest assignment. */
  lemma {:induction false} LatestSkipsOthers(rows: seq<Assignment>, n: nat, run: RunId, task: TaskId)
    requires n <= |rows| && forall i | n <= i < |rows| :: rows[i].task != task
    ensures Latest(rows, run, task) == Latest(rows[..n], run, task)
    decreases |rows|
  {
    if n == |rows| {
      assert rows[..n] == rows;
    } else {
      LatestSkipsOthers(rows[..|rows| - 1], n, run, task);
      assert rows[..|rows| - 1][..n] == rows[..n];
    }
  }

  function LatestId(db: Db, run: RunId, task: TaskId): Option<AssignmentId> {
    var i := Latest(db.assignments, run, task);
    if i.None? then None else Some(db.assignments[i.value].id)
  }

  /** A final task keeps its latest assignment for ever. */
  lemma FinalTasksKeepTheirLatest(db: Db, after: Db, run: RunId, task: TaskId)
    requires Extends(db, after) && IsFinal(db.tasks, task)
    ensures LatestId(after, run, task) == LatestId(db, run, task)
  {
    var n := |db.assignments|;
    LatestSkipsOthers(after.assignments, n, run, task);
    LatestFollowsIdentity(db.assignments, after.assignments[..n], run, task);
    var i := Latest(db.assignments, run, task);
    if i.Some? {
      assert AssignmentEvolves(db.assignments[i.value], after.assignments[i.value]);
    }
  }

  // ----- The invariant -----

  /** An operator closed the task, naming the assignment and the commits its workspace records. */
  ghost predicate Overrides(workspaces: map<AssignmentId, Workspace>, run: RunId, event: Event)
    requires event.body.TaskChanged? && event.body.evidence.Some?
  {
    var evidence := event.body.evidence.value;
    && event.actor.None? && event.body.previous == Submitted && event.body.next == Closed
    && evidence.assignment in workspaces
    && var workspace := workspaces[evidence.assignment];
       && workspace.run == run && workspace.kind == Worktree
       && workspace.base == Some(evidence.base) && workspace.result == Some(evidence.result)
  }

  ghost predicate HasEvidence(event: Event) {
    event.body.TaskChanged? && event.body.evidence.Some?
  }

  /** Every override in a log is an operator's and still agrees with the recorded commits. */
  ghost predicate EvidenceStands(db: Db) {
    forall r, k | 0 <= k < |LogOf(db, r)| && HasEvidence(LogOf(db, r)[k]) ::
      Overrides(db.workspaces, r, LogOf(db, r)[k])
  }

  ghost predicate IsOverrideOf(event: Event, task: TaskId, id: AssignmentId) {
    HasEvidence(event) && event.body.task == task && event.body.evidence.value.assignment == id
  }

  ghost predicate Overridden(log: seq<Event>, task: TaskId, id: AssignmentId) {
    exists k :: 0 <= k < |log| && IsOverrideOf(log[k], task, id)
  }

  ghost predicate Integrated(workspaces: map<AssignmentId, Workspace>, id: AssignmentId) {
    id in workspaces && workspaces[id].kind == Worktree ==> workspaces[id].target.Some?
  }

  ghost predicate WasAccepted(db: Db, task: TaskId)
    requires task in db.tasks
  {
    var run := db.tasks[task].run;
    var id := LatestId(db, run, task);
    id.Some? ==> Integrated(db.workspaces, id.value) || Overridden(LogOf(db, run), task, id.value)
  }

  /** Every closed task was accepted, apart from those whose workspace was recorded too late. */
  ghost predicate Accepted(db: Db, late: set<TaskId>) {
    && EvidenceStands(db)
    && forall t | t in db.tasks && db.tasks[t].status == Closed && t !in late :: WasAccepted(db, t)
  }

  /** What acceptance means for one closed task. */
  lemma ClosedWorkIsIntegratedOrOverridden(db: Db, late: set<TaskId>, task: TaskId, id: AssignmentId)
    requires Accepted(db, late) && task !in late && task in db.tasks && db.tasks[task].status == Closed
    requires LatestId(db, db.tasks[task].run, task) == Some(id)
    requires id in db.workspaces && db.workspaces[id].kind == Worktree && db.workspaces[id].target.None?
    ensures exists k, e ::
              var log, workspace := LogOf(db, db.tasks[task].run), db.workspaces[id];
              && 0 <= k < |log| && log[k].actor.None?
              && log[k].body == TaskChanged(task, Submitted, Closed, Some(e))
              && e.assignment == id && workspace.base == Some(e.base) && workspace.result == Some(e.result)
  {
    var log := LogOf(db, db.tasks[task].run);
    assert WasAccepted(db, task);
    var k :| 0 <= k < |log| && IsOverrideOf(log[k], task, id);
    assert Overrides(db.workspaces, db.tasks[task].run, log[k]);
  }

  // ----- Preservation -----

  /** The step closes no task, logs no override and records no workspace. */
  ghost predicate Uneventful(db: Db, after: Db) {
    && (forall t | t in after.tasks && after.tasks[t].status == Closed :: t in db.tasks && db.tasks[t].status == Closed)
    && (forall r, k | |LogOf(db, r)| <= k < |LogOf(after, r)| :: !HasEvidence(LogOf(after, r)[k]))
    && after.workspaces.Keys == db.workspaces.Keys
  }

  lemma OldEvidenceStands(db: Db, after: Db)
    requires EvidenceStands(db) && Extends(db, after)
    ensures forall r, k | 0 <= k < |LogOf(db, r)| && HasEvidence(LogOf(after, r)[k]) ::
              Overrides(after.workspaces, r, LogOf(after, r)[k])
  {
    forall r, k | 0 <= k < |LogOf(db, r)| && HasEvidence(LogOf(after, r)[k])
      ensures Overrides(after.workspaces, r, LogOf(after, r)[k])
    {
      assert LogOf(db, r) <= LogOf(after, r);
      assert Overrides(db.workspaces, r, LogOf(db, r)[k]);
      var id := LogOf(db, r)[k].body.evidence.value.assignment;
      assert WorkspaceEvolves(db.workspaces[id], after.workspaces[id]);
    }
  }

  /** Acceptance of a closed task survives any extension that does not record its workspace late. */
  lemma AcceptancePersists(db: Db, after: Db, task: TaskId)
    requires Extends(db, after) && task in db.tasks && db.tasks[task].status == Closed && WasAccepted(db, task)
    requires var id := LatestId(db, db.tasks[task].run, task);
             id.Some? && id.value in after.workspaces && after.workspaces[id.value].kind == Worktree ==>
               id.value in db.workspaces
    ensures WasAccepted(after, task)
  {
    var run := db.tasks[task].run;
    assert IsFinal(db.tasks, task);
    FinalTasksKeepTheirLatest(db, after, run, task);
    var id := LatestId(db, run, task);
    if id.Some? {
      if id.value in db.workspaces {
        assert WorkspaceEvolves(db.workspaces[id.value], after.workspaces[id.value]);
      }
      if Overridden(LogOf(db, run), task, id.value) {
        var k :| 0 <= k < |LogOf(db, run)| && IsOverrideOf(LogOf(db, run)[k], task, id.value);
        assert LogOf(db, run) <= LogOf(after, run);
        assert IsOverrideOf(LogOf(after, run)[k], task, id.value);
      }
    }
  }

  lemma UneventfulKeepsAccepted(db: Db, after: Db, late: set<TaskId>)
    requires Accepted(db, late) && Extends(db, after) && Uneventful(db, after)
    ensures Accepted(after, late)
  {
    OldEvidenceStands(db, after);
    forall t | t in after.tasks && after.tasks[t].status == Closed && t !in late
      ensures WasAccepted(after, t)
    {
      AcceptancePersists(db, after, t);
    }
  }

  lemma ClaimIsUneventful(db: Db, input: ClaimInput)
    requires ApplyClaim(db, input).Ok?
    ensures Uneventful(db, ApplyClaim(db, input).value.0)
  {
    ClaimOutcome(db, input);
    if ApplyClaim(db, input).value.1.Claimed? {
      ClaimEvents(db, input);
      ClaimLogsNoEvidence(
        db, ApplyClaim(db, input).value.0, input, |db.claims| + 1, db.agents[input.agent].generation);
    }
  }

  lemma ClaimLogsNoEvidence(db: Db, after: Db, input: ClaimInput, claim: nat, generation: int)
    requires forall r | r != input.run :: LogOf(after, r) == LogOf(db, r)
    requires LogOf(after, input.run) == ClaimLog(LogOf(db, input.run), input, claim, generation)
    requires input.task in db.tasks && after.workspaces == db.workspaces
    requires after.tasks == db.tasks[input.task := db.tasks[input.task].(status := InProgress)]
    ensures Uneventful(db, after)
  {
    forall r, k | |LogOf(db, r)| <= k < |LogOf(after, r)|
      ensures !HasEvidence(LogOf(after, r)[k])
    {
      assert r == input.run;
    }
  }

  lemma CreateIsUneventful(db: Db, input: CreateInput)
    requires ApplyCreate(db, input).Ok?
    ensures Uneventful(db, ApplyCreate(db, input).value.0)
  {
  }

  /** A closing transition accepts the work it closes: by its recorded target, or by the override it logs. */
  lemma ClosingAccepts(db: Db, after: Db, input: TransitionInput, n: nat)
    requires Owned(db) && EvidenceStands(db) && Extends(db, after)
    requires TransitionVerdict(db, input).Transitioned? && Moves(db, after, input.task, TransitionVerdict(db, input).next, n)
    requires db.tasks[input.task].status == Submitted && n == |db.assignments|
    requires LogOf(after, input.run) == Appended(LogOf(db, input.run), input.actor, input.operation,
               TaskChanged(input.task, Submitted, TransitionVerdict(db, input).next, input.override))
    requires input.transition == Close
    ensures WasAccepted(after, input.task)
  {
    assert after.assignments == db.assignments;
    var k := |LogOf(db, input.run)|;
    if input.override.Some? {
      assert IsOverrideOf(LogOf(after, input.run)[k], input.task, input.override.value.assignment);
    }
  }

  /** The first event of a transition's log carries its evidence, and no other event does. */
  lemma TransitionKeepsEvidence(db: Db, after: Db, input: TransitionInput, n: nat)
    requires Owned(db) && EvidenceStands(db) && Extends(db, after) && after.workspaces == db.workspaces
    requires TransitionVerdict(db, input).Transitioned?
    requires forall r | r != input.run :: LogOf(after, r) == LogOf(db, r)
    requires |LogOf(after, input.run)| > |LogOf(db, input.run)|
    requires LogOf(after, input.run)[|LogOf(db, input.run)|].body ==
               TaskChanged(input.task, db.tasks[input.task].status, TransitionVerdict(db, input).next, input.override)
    requires LogOf(after, input.run)[|LogOf(db, input.run)|].actor == input.actor
    requires forall k | |LogOf(db, input.run)| < k < |LogOf(after, input.run)| :: !HasEvidence(LogOf(after, input.run)[k])
    ensures EvidenceStands(after)
  {
    OldEvidenceStands(db, after);
  }

  lemma TransitionKeepsAccepted(db: Db, input: TransitionInput, late: set<TaskId>)
    requires Owned(db) && Accepted(db, late)
    ensures ApplyTransition(db, input).Ok? && Accepted(ApplyTransition(db, input).value.0, late)
  {
    var n := TransitionOutcome(db, input);
    TransitionExtends(db, input);
    if TransitionVerdict(db, input).Transitioned? {
      TransitionEvents(db, input, n);
      var after := ApplyTransition(db, input).value.0;
      AppliedTransitionKeepsAccepted(db, after, input, n, late);
    }
  }

  lemma AppliedTransitionKeepsAccepted(db: Db, after: Db, input: TransitionInput, n: nat, late: set<TaskId>)
    requires Owned(db) && Accepted(db, late) && Extends(db, after) && TransitionVerdict(db, input).Transitioned?
    requires Moves(db, after, input.task, TransitionVerdict(db, input).next, n)
    requires !IsInProgress(db, input.task) ==> n == |db.assignments|
    requires forall r | r != input.run :: LogOf(after, r) == LogOf(db, r)
    requires exists owner :: LogOf(after, input.run) == TransitionLog(
               LogOf(db, input.run), input, db.tasks[input.task].status, TransitionVerdict(db, input).next, owner)
               && (owner.None? <==> !IsInProgress(db, input.task))
    ensures Accepted(after, late)
  {
    TransitionKeepsEvidence(db, after, input, n);
    forall t | t in after.tasks && after.tasks[t].status == Closed && t !in late
      ensures WasAccepted(after, t)
    {
      if t == input.task {
        assert db.tasks[t].status == Submitted && input.transition == Close;
        ClosingAccepts(db, after, input, n);
      } else {
        AcceptancePersists(db, after, t);
      }
    }
  }

  // ----- Recording workspaces -----

  /** The workspace belongs to the latest assignment of a task that is already closed. */
  predicate IsLateFor(db: Db, input: WorkspaceInput, task: TaskId) {
    && task in db.tasks && db.tasks[task].status == Closed && input.kind == Worktree
    && LatestId(db, db.tasks[task].run, task) == Some(input.scope.assignment)
  }

  /** An override never names an assignment without a workspace. */
  lemma NoOverrideWithoutWorkspace(db: Db, run: RunId, task: TaskId, id: AssignmentId)
    requires EvidenceStands(db) && id !in db.workspaces
    ensures !Overridden(LogOf(db, run), task, id)
  {
    var log := LogOf(db, run);
    forall k | 0 <= k < |log|
      ensures !IsOverrideOf(log[k], task, id)
    {
      assert HasEvidence(log[k]) ==> Overrides(db.workspaces, run, log[k]);
    }
  }

  /** Acceptance survives the recording of a workspace exactly if tasks for which it comes late are exempt. */
  lemma RecordingKeepsAcceptedUnlessLate(db: Db, input: WorkspaceInput, late: set<TaskId>)
    requires Accepted(db, late) && RecordWorkspace(db, input).Ok?
    ensures Accepted(RecordWorkspace(db, input).value, late) <==> forall t | IsLateFor(db, input, t) :: t in late
  {
    var after := RecordWorkspace(db, input).value;
    WorkspaceStepsExtend(db, after);
    OldEvidenceStands(db, after);
    assert forall r :: LogOf(after, r) == LogOf(db, r);
    assert EvidenceStands(after);
    forall t | t in after.tasks && after.tasks[t].status == Closed && t !in late
      ensures WasAccepted(after, t) <==> !IsLateFor(db, input, t)
    {
      if IsLateFor(db, input, t) {
        NoOverrideWithoutWorkspace(db, db.tasks[t].run, t, input.scope.assignment);
      } else {
        AcceptancePersists(db, after, t);
      }
    }
  }

  /** Recording a workspace late always loses the acceptance of the closed task it comes late for. */
  lemma LateRecordingIsNotAccepted(db: Db, input: WorkspaceInput, late: set<TaskId>, task: TaskId)
    requires Accepted(db, late) && task !in late && RecordWorkspace(db, input).Ok? && IsLateFor(db, input, task)
    ensures WasAccepted(db, task)
    ensures var after := RecordWorkspace(db, input).value;
            task in after.tasks && after.tasks[task] == db.tasks[task] && !WasAccepted(after, task)
  {
    NoOverrideWithoutWorkspace(db, db.tasks[task].run, task, input.scope.assignment);
  }
}
