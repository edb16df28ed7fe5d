/** What each mutation keeps of the work tables, their logs and their acceptance (src/state.rs). */
module Safety {
  import opened Bytes
  import opened Tasks
  import opened Database
  import opened EventLog
  import opened Work
  import opened WorkInvariants
  import opened LogAgreement
  import opened Workspaces
  import opened History
  import opened Closure
  import opened Inboxes
  import opened Ledger

  /** Tasks in `late` had a workspace recorded after they were closed. */
  ghost predicate WorkSafe(db: Db, late: set<TaskId>) {
    Owned(db) && Prerequisites(db) && LogsAgree(db) && InboxesTold(db) && Accepted(db, late)
  }

  ghost predicate WorkExtends(db: Db, after: Db) {
    Extends(db, after) && InboxesExtend(db, after)
  }

  lemma WorkExtendsTransitively(a: Db, b: Db, c: Db)
    requires WorkExtends(a, b) && WorkExtends(b, c)
    ensures WorkExtends(a, c)
  {
    ExtendsIsTransitive(a, b, c);
    InboxesExtendTransitively(a, b, c);
  }

  // ----- Inboxes under task events -----

  ghost predicate IsMessageEvent(body: EventBody) {
    body.MessageSent? || body.MessageAcknowledged?
  }

  /** Events that are not about messages leave both message folds alone. */
  lemma {:induction false} MessageFoldsIgnore(log: seq<Event>, longer: seq<Event>, agent: AgentId)
    requires log <= longer && forall k | |log| <= k < |longer| :: !IsMessageEvent(longer[k].body)
    ensures SentIn(longer, agent) == SentIn(log, agent) && AcknowledgedIn(longer, agent) == AcknowledgedIn(log, agent)
    decreases |longer|
  {
    if log != longer {
      MessageFoldsIgnore(log, longer[..|longer| - 1], agent);
    }
  }

  lemma InboxesIgnoreTaskEvents(db: Db, after: Db)
    requires InboxesTold(db) && after.inboxes == db.inboxes && LogsExtend(db, after)
    requires forall r, k | |LogOf(db, r)| <= k < |LogOf(after, r)| :: !IsMessageEvent(LogOf(after, r)[k].body)
    ensures InboxesTold(after) && InboxesExtend(db, after)
  {
    forall r: RunId, agent: AgentId
      ensures InboxTold(LogOf(after, r), Inbox(after, r, agent), agent)
    {
      assert InboxTold(LogOf(db, r), Inbox(db, r, agent), agent);
      assert LogOf(db, r) <= LogOf(after, r);
      MessageFoldsIgnore(LogOf(db, r), LogOf(after, r), agent);
    }
    assert forall r: RunId, agent: AgentId :: Inbox(after, r, agent) == Inbox(db, r, agent);
  }

  // ----- Each command -----

  lemma CreateKeepsWorkSafe(db: Db, input: CreateInput, late: set<TaskId>)
    requires WorkSafe(db, late) && ApplyCreate(db, input).Ok?
    ensures WorkSafe(ApplyCreate(db, input).value.0, late) && WorkExtends(db, ApplyCreate(db, input).value.0)
  {
    hide Owned, Prerequisites, LogsAgree, InboxesTold, Accepted, Uneventful, Extends, InboxesExtend;
    var after := ApplyCreate(db, input).value.0;
    CreateKeepsOwned(db, input);
    CreateKeepsPrerequisites(db, input);
    CreateKeepsAgreement(db, input);
    CreateExtends(db, input);
    CreateIsUneventful(db, input);
    UneventfulKeepsAccepted(db, after, late);
    CreateKeepsInboxes(db, input);
  }

  lemma CreateKeepsInboxes(db: Db, input: CreateInput)
    requires InboxesTold(db) && ApplyCreate(db, input).Ok?
    ensures InboxesTold(ApplyCreate(db, input).value.0) && InboxesExtend(db, ApplyCreate(db, input).value.0)
  {
    hide InboxesTold;
    InboxesIgnoreTaskEvents(db, ApplyCreate(db, input).value.0);
  }

  lemma ClaimKeepsWorkSafe(db: Db, input: ClaimInput, late: set<TaskId>)
    requires WorkSafe(db, late) && ApplyClaim(db, input).Ok?
    ensures WorkSafe(ApplyClaim(db, input).value.0, late) && WorkExtends(db, ApplyClaim(db, input).value.0)
  {
    ClaimKeepsOwned(db, input);
    ClaimKeepsPrerequisites(db, input);
    ClaimKeepsAgreement(db, input);
    ClaimExtends(db, input);
    ClaimIsUneventful(db, input);
    UneventfulKeepsAccepted(db, ApplyClaim(db, input).value.0, late);
    ClaimKeepsInboxes(db, input);
  }

  lemma ClaimKeepsInboxes(db: Db, input: ClaimInput)
    requires InboxesTold(db) && ApplyClaim(db, input).Ok?
    ensures InboxesTold(ApplyClaim(db, input).value.0) && InboxesExtend(db, ApplyClaim(db, input).value.0)
  {
    ClaimOutcome(db, input);
    if ApplyClaim(db, input).value.1.Claimed? {
      ClaimEvents(db, input);
      ClaimExtends(db, input);
      ClaimLogIsQuiet(
        db, ApplyClaim(db, input).value.0, input, |db.claims| + 1, db.agents[input.agent].generation);
    }
  }

  lemma ClaimLogIsQuiet(db: Db, after: Db, input: ClaimInput, claim: nat, generation: int)
    requires InboxesTold(db) && LogsExtend(db, after) && after.inboxes == db.inboxes
    requires forall r | r != input.run :: LogOf(after, r) == LogOf(db, r)
    requires LogOf(after, input.run) == ClaimLog(LogOf(db, input.run), input, claim, generation)
    ensures InboxesTold(after) && InboxesExtend(db, after)
  {
    forall r, k | |LogOf(db, r)| <= k < |LogOf(after, r)|
      ensures !IsMessageEvent(LogOf(after, r)[k].body)
    {
      assert r == input.run;
    }
    InboxesIgnoreTaskEvents(db, after);
  }

  lemma TransitionKeepsWorkSafe(db: Db, input: TransitionInput, late: set<TaskId>)
    requires WorkSafe(db, late)
    ensures ApplyTransition(db, input).Ok?
    ensures WorkSafe(ApplyTransition(db, input).value.0, late) && WorkExtends(db, ApplyTransition(db, input).value.0)
  {
    TransitionKeepsOwned(db, input);
    TransitionKeepsPrerequisites(db, input);
    TransitionKeepsAgreement(db, input);
    TransitionExtends(db, input);
    TransitionKeepsAccepted(db, input, late);
    TransitionKeepsInboxes(db, input);
  }

  lemma TransitionKeepsInboxes(db: Db, input: TransitionInput)
    requires Owned(db) && InboxesTold(db)
    ensures ApplyTransition(db, input).Ok?
    ensures InboxesTold(ApplyTransition(db, input).value.0) && InboxesExtend(db, ApplyTransition(db, input).value.0)
  {
    var n := TransitionOutcome(db, input);
    if TransitionVerdict(db, input).Transitioned? {
      TransitionEvents(db, input, n);
      TransitionExtends(db, input);
      var status := db.tasks[input.task].status;
      TransitionLogIsQuiet(
        db, ApplyTransition(db, input).value.0, input, status, TransitionVerdict(db, input).next,
        if status != InProgress then None
        else Some((db.assignments[n].id, db.assignments[n].state, ReleasedState(input.transition).value, n + 1)));
    }
  }

  lemma TransitionLogIsQuiet(
      db: Db, after: Db, input: TransitionInput, previous: TaskStatus, next: TaskStatus,
      owner: Option<(AssignmentId, AssignmentState, AssignmentState, nat)>)
    requires InboxesTold(db) && LogsExtend(db, after) && after.inboxes == db.inboxes
    requires forall r | r != input.run :: LogOf(after, r) == LogOf(db, r)
    requires LogOf(after, input.run) == TransitionLog(LogOf(db, input.run), input, previous, next, owner)
    ensures InboxesTold(after) && InboxesExtend(db, after)
  {
    forall r, k | |LogOf(db, r)| <= k < |LogOf(after, r)|
      ensures !IsMessageEvent(LogOf(after, r)[k].body)
    {
      assert r == input.run;
    }
    InboxesIgnoreTaskEvents(db, after);
  }

  // ----- Messages -----

  /** The logs are those of `db`, with at most one more event in one of them. */
  ghost predicate AppendsAtMost(
      db: Db, after: Db, run: RunId, actor: Option<AgentId>, operation: OperationId, body: EventBody)
  {
    && (forall r | r != run :: LogOf(after, r) == LogOf(db, r))
    && (|| LogOf(after, run) == LogOf(db, run)
        || LogOf(after, run) == Appended(LogOf(db, run), actor, operation, body))
  }

  /** Delivering or acknowledging messages keeps everything about tasks. */
  lemma MessagesKeepWork(
      db: Db, after: Db, run: RunId, actor: Option<AgentId>, operation: OperationId, body: EventBody, late: set<TaskId>)
    requires WorkSafe(db, late) && IsMessageEvent(body)
    requires after == db.(inboxes := after.inboxes, events := after.events)
    requires AppendsAtMost(db, after, run, actor, operation, body)
    ensures Owned(after) && Prerequisites(after) && LogsAgree(after) && Extends(db, after) && Accepted(after, late)
  {
    OwnedDependsOnWork(db, after);
    MessagesKeepAgreement(db, after, run, actor, operation, body);
    MessagesExtend(db, after, run, actor, operation, body);
    UneventfulKeepsAccepted(db, after, late);
  }

  lemma MessagesExtend(
      db: Db, after: Db, run: RunId, actor: Option<AgentId>, operation: OperationId, body: EventBody)
    requires IsMessageEvent(body) && after == db.(inboxes := after.inboxes, events := after.events)
    requires AppendsAtMost(db, after, run, actor, operation, body)
    ensures Extends(db, after) && Uneventful(db, after)
  {
    forall r
      ensures LogOf(db, r) <= LogOf(after, r)
      ensures forall k | |LogOf(db, r)| <= k < |LogOf(after, r)| :: !HasEvidence(LogOf(after, r)[k])
    {
      assert r != run ==> LogOf(after, r) == LogOf(db, r);
    }
  }

  lemma MessagesKeepAgreement(
      db: Db, after: Db, run: RunId, actor: Option<AgentId>, operation: OperationId, body: EventBody)
    requires LogsAgree(db) && IsMessageEvent(body)
    requires after.tasks == db.tasks && after.claims == db.claims && after.assignments == db.assignments
    requires AppendsAtMost(db, after, run, actor, operation, body)
    ensures LogsAgree(after)
  {
    forall r
      ensures Tells(LogOf(after, r), after, r)
    {
      assert Tells(LogOf(db, r), db, r);
      if LogOf(after, r) == LogOf(db, r) {
        SameTablesTell(LogOf(db, r), db, after, r);
      } else {
        SilentEventTells(LogOf(db, r), db, after, r, actor, operation, body);
      }
    }
  }

  lemma SameTablesTell(log: seq<Event>, db: Db, after: Db, run: RunId)
    requires |db.claims| == |db.assignments| && Tells(log, db, run)
    requires after.tasks == db.tasks && after.claims == db.claims && after.assignments == db.assignments
    ensures Tells(log, after, run)
  {
    assert forall a :: NoAssignment(after, a) <==> NoAssignment(db, a);
  }

  lemma SilentEventTells(
      log: seq<Event>, db: Db, after: Db, run: RunId, actor: Option<AgentId>, operation: OperationId, body: EventBody)
    requires |db.claims| == |db.assignments| && Tells(log, db, run) && IsMessageEvent(body)
    requires after.tasks == db.tasks && after.claims == db.claims && after.assignments == db.assignments
    ensures Tells(Appended(log, actor, operation, body), after, run)
  {
    FoldsAfter(log, actor, operation, body);
    AppendedKeepsSound(log, actor, operation, body);
    hide Appended, Sound, StatusIn, AssignmentIn, ClaimIn;
    assert forall a :: NoAssignment(after, a) <==> NoAssignment(db, a);
  }

  lemma SendKeepsWorkSafe(db: Db, input: SendInput, late: set<TaskId>)
    requires WorkSafe(db, late) && ApplySend(db, input).Ok?
    ensures WorkSafe(ApplySend(db, input).value.0, late) && WorkExtends(db, ApplySend(db, input).value.0)
  {
    var (after, response) := ApplySend(db, input).value;
    SendKeepsInboxes(db, input);
    SendExtendsInboxes(db, input);
    MessagesKeepWork(db, after, input.run, input.actor, input.operation,
                     MessageSent(input.recipient, response.cursor), late);
  }

  lemma AcknowledgeKeepsWorkSafe(db: Db, input: AcknowledgeInput, late: set<TaskId>)
    requires WorkSafe(db, late) && ApplyAcknowledge(db, input).Ok?
    ensures WorkSafe(ApplyAcknowledge(db, input).value.0, late)
    ensures WorkExtends(db, ApplyAcknowledge(db, input).value.0)
  {
    AcknowledgeKeepsInboxes(db, input);
    AcknowledgeExtendsInboxes(db, input);
    var (after, response) := ApplyAcknowledge(db, input).value;
    if response.Acknowledged? {
      AcknowledgementIsLocal(db, input);
      MessagesKeepWork(db, after, input.run, Some(input.agent), input.operation,
                       MessageAcknowledged(input.agent, response.count, response.through), late);
    }
  }

  // ----- Any command -----

  lemma ApplyKeepsWorkSafe(db: Db, command: Command, late: set<TaskId>)
    requires WorkSafe(db, late) && Apply(db, command).Ok?
    ensures WorkSafe(Apply(db, command).value.0, late) && WorkExtends(db, Apply(db, command).value.0)
  {
    match command
    case CreateCommand(c) => CreateKeepsWorkSafe(db, c, late);
    case ClaimCommand(c) => ClaimKeepsWorkSafe(db, c, late);
    case TransitionCommand(c) => TransitionKeepsWorkSafe(db, c, late);
    case SendCommand(c) => SendKeepsWorkSafe(db, c, late);
    case AcknowledgeCommand(c) => AcknowledgeKeepsWorkSafe(db, c, late);
  }

  /** Steps that leave the work tables alone, and lose no agent, keep everything said about work. */
  lemma SameWorkIsSafe(db: Db, after: Db, late: set<TaskId>)
    requires WorkSafe(db, late) && AgentsPersist(db, after)
    requires after.tasks == db.tasks && after.edges == db.edges && after.claims == db.claims
    requires after.assignments == db.assignments && after.workspaces == db.workspaces
    requires after.inboxes == db.inboxes && after.events == db.events
    ensures WorkSafe(after, late) && WorkExtends(db, after)
  {
    OwnedDependsOnWork(db, after);
    AgreementDependsOnWork(db, after);
    WorkspaceStepsExtend(db, after);
    assert forall r :: LogOf(after, r) == LogOf(db, r);
    UneventfulKeepsAccepted(db, after, late);
    InboxesIgnoreTaskEvents(db, after);
  }

  /** A committed mutation keeps the work tables safe and only extends them. */
  lemma MutationKeepsWorkSafe(db: Db, m: Mutation, late: set<TaskId>)
    requires WorkSafe(db, late) && Mutate(db, m).Ok?
    ensures WorkSafe(Mutate(db, m).value.0, late) && WorkExtends(db, Mutate(db, m).value.0)
  {
    var id := m.command.Id();
    if id in db.operations {
      SameWorkIsSafe(db, db, late);
    } else {
      var begun := db.(operations := db.operations[id := Intent(m)]);
      SameWorkIsSafe(db, begun, late);
      var applied := Apply(begun, m.command).value.0;
      ApplyKeepsWorkSafe(begun, m.command, late);
      var after := Mutate(db, m).value.0;
      SameWorkIsSafe(applied, after, late);
      WorkExtendsTransitively(db, begun, applied);
      WorkExtendsTransitively(db, applied, after);
    }
  }
}
