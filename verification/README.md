# Coterie: a verified model

Coterie coordinates coding agents through one durable store per run. This project models that store and the
smaller algorithms around it in Dafny, in the form the source has (classes and loops where it updates in
place, functions where it computes), and proves what they promise.
`dafny verify dfyconfig.toml` checks the whole project.

**The durable store** (`Database` to `Bridge`, and `LateRecording`). The tables are maps and rows; a
`Transaction` works on its own copy of them and a `Store` makes a finished one durable or drops it, so every
call commits everything or nothing. Each method refines a function on the tables; invariants and what is permanent are proved about the
functions. `Runs` puts all of them into one step relation in which every call may also fail, be lost before
its commit, or be lost after it with its response undelivered, and proves the whole invariant over every
history from the empty database. `Guarantees` reads the system-level promises off that: exactly-once
mutations, exact ownership of tasks, logs that fold to the tables, generation fencing, closed prerequisites,
accepted closures, prefix-acknowledged inboxes. `Store` carries its history as a ghost field, and `Bridge`
adds the client that resends over a lost connection while others use the store.

**The redactor** (`Redaction`, `AgentToken`). The buffered scanner is proved against a decomposition of the
input into literal bytes and concealed stretches. The key lemma is stability: a position that is not partial
is decided for good.

**The project lease and the active-run index** (`Lease`, `ActiveRunIndex`, `ProjectIndex`). Processes
interleave in the small steps that the fault points of the source delimit, may crash between any two, and
readers and power failures come in between; `World.Publish` and `World.Retire` are the loops of one process
with arbitrary steps of others between its own.

**Transcript pages** (`Utf8`, `Transcript`). Pages over a file that grows, proved lossless for any bytes and
aligned for text that follows the grammar in section 4 of RFC 3629.

**Configuration** (`Configuration` to `CompiledDefaults`, and `Loader`). Policy and provenance change together
in the methods of `Resolver` and `Resolution`; `ResolutionRules` says independently when resolution succeeds
and with what, and `Requirements` says the same check by check; `Authority` reads a recorded source back from the inputs and proves every entry truthful, and
that no override exceeds trusted authority. `Loader` merges trees and finds the file behind a value.

**Migrations** (`Migrations`). One ledger, any number of crashes and reopenings.

Parameters of the model: identifiers, time stamps, verifiers, event sizes, the fate of a call and the steps of
other processes are inputs. Primary keys, unique and foreign keys and triggers of
`src/state/migrations/0001_initial.sql`, `0002_claim_invariants.sql`, `0003_session_credentials.sql`,
`0004_durable_messages.sql`, `0008_generation_fencing.sql` and `0014_workspace_bindings.sql` are checked by the
inserting functions, which fail as the statement would.

Three promises need a proviso, and the model states it exactly.

- Closed work is integrated or overridden unless its worktree is first recorded after the close. Recording a
  workspace keeps that iff it comes late for no task (`Closure.RecordingKeepsAcceptedUnlessLate`), a late one always
  breaks it (`LateRecording.LateRecordingLosesAcceptance`), and late ones happen
  (`LateRecording.WorktreesCanComeLate`).
- A key has one lease holder as long as outsiders leave its own lock path alone
  (`ActiveRunIndex.OneHolderUnlessRelinked`), and from every state in which it is held relinking that path lets a
  newcomer hold it too (`ActiveRunIndex.RelinkingLetsTwoHold`). That at most one lease verifies needs no proviso
  (`Lease.OneLeaseVerifies`), and neither does it that entries are whole (`ActiveRunIndex.EntriesAreWhole`).
- A page is whole characters iff whole characters reach as far as its limit (`Transcript.ForwardPageIsWholeExactly`,
  `Transcript.TailPageIsWholeExactly`, `Transcript.PagesStayAligned`); `Transcript.MalformedPageMayStopInside` is a
  file for which they do not.

## Model

| member | source | states |
|---|---|---|
| `Tasks.ActionsRealizeTheLifecycle` | src/tasks.rs:47-77 | The explicit actions together with claiming permit exactly the status moves that the lifecycle table allows, for every pair of statuses. |
| `Tasks.ActionsLeadToTheirTargets` | src/tasks.rs:61-77 | Reopen leads to Open, Submit to Submitted, Close to Closed and Cancel to Canceled, each exactly from the statuses that permit the move. |
| `Lifecycle.TerminalStatesAreFinal` | src/providers.rs:412-428 | Exactly Exited, Lost and Quarantined are terminal; nothing follows them, and anything but a new start may follow the other states. |
| `Work.Latest` | src/state.rs:3233-3263 | The row chosen is the newest by creation time, then by row, of those that belong to the task and run; none is chosen exactly when there is none. |
| `WorkInvariants.OwnershipIsExact` | src/state.rs:2830-2919 | Under the ownership invariant a task is in progress iff it has exactly one unreleased claim and exactly one uncompleted assignment; these are linked by claim row and name one agent; every other task has neither. |
| `WorkInvariants.AgentsWorkOnOneTask` | src/state.rs:2830-2885 | No agent ever has two uncompleted assignments in a run. |
| `WorkInvariants.ClaimOutcome` | src/state.rs:1125-1148 | A won claim changes the tables by one claim, one assignment and one status and nothing else; a refused one changes no table. |
| `WorkInvariants.ClaimWritesItsRows` | src/state.rs:2886-2919 | A won claim appends one unreleased claim and one active assignment, with the claimant, its current generation and the time of the claim, and moves the task to InProgress. |
| `WorkInvariants.ClaimKeepsOwned` | src/state.rs:2830-2919 | Claiming keeps the ownership invariant. |
| `WorkInvariants.TransitionOutcome` | src/state.rs:2337-2427 | An applied transition moves one task along its lifecycle, keeps or sets its result as the action says, and ends its owner exactly when the task was in progress; any other outcome changes nothing. |
| `WorkInvariants.TransitionsLeaveTheirStatus` | src/state.rs:2337-2427 | Which status and result each action leaves, and from which statuses, written out action by action. |
| `WorkInvariants.TransitionsEndTheirOwner` | src/state.rs:2429-2475 | How each action ends the owner of an in-progress task: Reopen releases, Submit completes and Cancel aborts its assignment, with the summary given, and the claim is released at that time. |
| `WorkInvariants.ClosesAreAcceptedExactly` | src/state.rs:2356-2397 | A submitted task is closed iff its latest assignment has no unintegrated worktree, or an operator names that assignment, its project and its recorded commits with a reason and a validation that are not blank. |
| `WorkInvariants.MovesAreAcceptedExactly` | src/state.rs:2337-2397 | Any other action is accepted iff the task is in the run, the lifecycle permits it and no evidence comes with it; otherwise which refusal is answered. |
| `WorkInvariants.ReleaseEndsTheOwner` | src/state.rs:2429-2475 | Release finds exactly the one live assignment and the one unreleased claim, completes both, and changes no other row. |
| `WorkInvariants.TransitionKeepsOwned` | src/state.rs:1159-1307 | Every transition, whatever its outcome, commits and keeps the ownership invariant. |
| `WorkInvariants.TransitionsNeverFindCorruption` | src/state.rs:1237-1302 | The corrupt-state errors and the unreachable branch of the transition path are unreachable: the outcome is always the one that status and evidence dictate. |
| `WorkInvariants.PrerequisitesAreTransitive` | src/state.rs:2848-2881 | Along any dependency path from an in-progress, submitted or closed task, everything it depends on is closed. |
| `WorkInvariants.ClaimKeepsPrerequisites` | src/state.rs:2848-2881 | A claim succeeds only with closed prerequisites, so claiming keeps that invariant. |
| `EventLog.AppendedKeepsSound` | src/state.rs:3748-3779 | Appending at the next sequence keeps a log numbered 1..n with every task event continuing from the status its task was left in. |
| `LogAgreement.ClaimLogIsSound` | src/state.rs:2922-3004 | The three events of a claim, in their order, are sound and fold to an in-progress task, an active assignment and an unreleased claim. |
| `LogAgreement.TransitionLogIsSound` | src/state.rs:1184-1306 | The events of a transition are sound and fold to the next status, the ended assignment and the released claim. |
| `LogAgreement.ClaimKeepsAgreement` | src/state.rs:2922-3004 | After a claim the fold of every log still gives every status, assignment state and claim state in the tables. |
| `LogAgreement.TransitionKeepsAgreement` | src/state.rs:1184-1306 | After a transition the fold of every log still gives every status, assignment state and claim state in the tables. |
| `LogAgreement.CreateKeepsAgreement` | src/supervisor.rs:4180-4260 | A created task starts Open in the tables and in the fold alike. |
| `EventPages.RowsAreBeyondTheCursor` | src/state.rs:3816-3863 | The rows a page is cut from are exactly the events with a sequence beyond the cursor, in order, for any cursor value. |
| `EventPages.EventsAfter` | src/state.rs:3816-3863 | A page is the longest run of those rows within the count limit and 900 KiB, except that one oversized event is returned alone. |
| `EventPages.PagesAreLossless` | src/state.rs:3816-3863 | Reading on from the last sequence of a page misses and repeats no event. |
| `Readiness.ReadyMeansListed` | src/state.rs:2221-2309 | A task is listed as ready in its run iff its readiness facts say it is ready. |
| `Readiness.ReadyMeansClaimable` | src/state.rs:2830-2885 | A claim by an idle agent of the run wins iff the task is in that run and ready. |
| `Readiness.RejectionsAreTrue` | src/state.rs:3034-3095 | The reason given with a refused claim is true of the tables, and the final fallthrough reason is never given without its cause. |
| `Readiness.RunsDoNotMatter` | src/state.rs:2221-2309 | Readiness computed without a run filter and the run-filtered tests of claiming agree. |
| `Fencing.AgentMirrorsItsSession` | src/state.rs:1880-1955 | An agent's state is the state of its current-generation session. |
| `Fencing.OneSessionResolves` | src/state.rs:2058-2091 | At most one session of an agent resolves to a credential. |
| `Fencing.ResolvedSessionsAreLive` | src/state.rs:2058-2091 | A session that resolves is neither ended nor replaced, is not terminal, and its agent has its state. |
| `Fencing.ActivationResolves` | src/state.rs:1958-2001 | An activated credential resolves iff its session has not ended, and every other session of the agent stops resolving. |
| `Fencing.EndingRetires` | src/state.rs:1880-1955 | A terminal observation that is not stale retires its session. |
| `Fencing.EndedSessionsLoseTheirCredential` | src/state.rs:1926-1955 | An applied observation of Exited, Lost or Quarantined ends the session at that time and revokes its credential, which resolves for nobody. |
| `Fencing.LiveSessionsKeepTheirCredential` | src/state.rs:1926-1955 | An applied observation of Running or Unknown leaves the session unended and every credential as it was. |
| `Fencing.ObservationsAreLocal` | src/state.rs:1880-1955 | An observation changes no session, agent or credential but its own, and the agent takes the state observed. |
| `Fencing.ObservationsAreAppliedExactly` | src/state.rs:1880-1925 | Exactly when an observation is stale, unchanged or refused: by its scope, the stored state, the owner and the state observed. |
| `Fencing.EndedSessionsResolveForNobody` | src/state.rs:2058-2091 | A session in state Exited, Lost or Quarantined has ended and resolves for nobody. |
| `Fencing.CredentialsResolveExactly` | src/state.rs:2058-2091 | A credential resolves iff it is the unrevoked one of a live session of the agent's current generation in an active run. |
| `Fencing.GenerationsStartExactly` | src/state.rs:1638-1661 | A generation is started iff the agent of that run is at the expected generation, has ended, and the next is higher; otherwise nothing changes. |
| `Fencing.RunsOpenAndClose` | src/state.rs:1372-1418 | A run is opened once and only an active run is stopped. |
| `Fencing.AgentsAndSessionsEnterOnce` | src/state.rs:1573-1690 | When an agent or session is accepted, once per identifier and per agent and generation, and that each enters Starting with the values given. |
| `Fencing.LaunchesAreStored` | src/state.rs:1813-1846 | A launch of a current session stores its provider and that it was observed, and answers unchanged iff both were stored already. |
| `Fencing.ReconciliationsAreStored` | src/state.rs:1849-1877 | A reconciliation of a current session stores the state found, and answers unchanged iff it was stored already. |
| `Fencing.CredentialsAreActivatedExactly` | src/state.rs:1958-2001 | When activation is accepted, what it stores, and that it revokes exactly the other unrevoked credentials of the agent, as it is created. |
| `Fencing.CredentialsAreRotatedExactly` | src/state.rs:2004-2039 | When rotation is accepted, and that it replaces the verifier and creation time only. |
| `Fencing.ReplacementRetires` | src/state.rs:1638-1661 | A new generation retires every earlier session of the agent. |
| `Fencing.RetiredNeverResolves` | src/state.rs:2058-2091 | Across any evolution of the tables a retired session stays retired and never resolves again. |
| `Fencing.RevokedNeverResolves` | src/state.rs:1958-2001 | Across any evolution of the tables a revoked credential never resolves again. |
| `Fencing.LifecycleIsNeverInconsistent` | src/state.rs:1880-1955 | The error for an agent and session in different states never fires. |
| `Fencing.StartGenerationKeepsFenced` | src/state.rs:1638-1661 | A restart keeps the fencing invariant; generations do not decrease and terminal sessions do not change. |
| `Fencing.InsertSessionKeepsFenced` | src/state.rs:1663-1690 | A new session keeps the fencing invariant and changes no earlier session or credential. |
| `Fencing.LifecycleKeepsFenced` | src/state.rs:1880-1955 | An observation keeps the fencing invariant; the one change to a terminal session is Lost to Exited in the foreground. |
| `Fencing.LaunchKeepsFenced` | src/state.rs:1813-1846 | Recording a launch keeps the fencing invariant. |
| `Fencing.ReconciliationKeepsFenced` | src/state.rs:1849-1877 | Recording reconciliation keeps the fencing invariant. |
| `Fencing.ActivateKeepsFenced` | src/state.rs:1958-2001 | Activation keeps the fencing invariant and leaves revoked credentials as they are. |
| `Fencing.ReplaceKeepsFenced` | src/state.rs:2004-2039 | Rotating a desired credential keeps the fencing invariant and revives nothing revoked. |
| `Workspaces.TargetsAreWrittenOnce` | src/state.rs:3678-3708 | After a current scope recorded a target commit, recording it again succeeds unchanged and recording another is refused. |
| `Workspaces.ResultsAreWrittenOnce` | src/state.rs:3646-3676 | After a current scope recorded a result commit, recording it again succeeds unchanged and recording another is refused. |
| `Workspaces.RecordsAreLocal` | src/state.rs:3621-3708 | A record that is applied writes the given state, result or target into its workspace and changes nothing else. |
| `Workspaces.ScopesWriteExactly` | src/state.rs:3584-3644 | A scope can write iff workspace, assignment, agent and any session that took over are still of its run and generation, the run is active and the assignment was not recovered. |
| `Workspaces.WorkspacesAreRecordedExactly` | src/state.rs:3480-3523 | When a workspace is recorded, once per assignment and as its run, generation and project, and with which values. |
| `Workspaces.SessionsTakeOverExactly` | src/state.rs:3298-3343 | A session takes an open assignment over iff nobody did before and it is a live, current, unrecovered session of the same run, agent and generation in an active run. |
| `Workspaces.ReplacedGenerationsCannotWrite` | src/state.rs:3584-3708 | A scope of a replaced generation can record no workspace state and no commit. |
| `Closure.FinalTasksKeepTheirLatest` | src/state.rs:3233-3263 | A closed or canceled task keeps the same latest assignment for ever. |
| `Closure.ClosingAccepts` | src/state.rs:2356-2397 | A close is accepted work: its worktree has a recorded target, or the close logs operator evidence that names the assignment and matches its base and result. |
| `Closure.TransitionKeepsAccepted` | src/state.rs:2356-2397 | Every transition keeps all closed work accepted. |
| `Closure.AcceptancePersists` | src/state.rs:3646-3708 | Acceptance survives every permitted growth of the tables in which the worktree was not first recorded after the close. |
| `Closure.RecordingKeepsAcceptedUnlessLate` | src/state.rs:3480-3523 | Recording a workspace keeps acceptance iff every task whose closed work it comes late for is exempt: the exact condition of the property. |
| `LateRecording.LateRecordingLosesAcceptance` | src/state.rs:3480-3523 | In every reachable state, recording a worktree for an accepted closed task after its close always leaves the task closed but no longer accepted: the exemption is needed each time. |
| `LateRecording.WorktreesCanComeLate` | src/state.rs:3480-3523 | For any names, a history from the empty database in which that happens: a task is created, claimed, submitted and closed without a worktree, is accepted, and is not accepted once its worktree is recorded. |
| `Closure.NoOverrideWithoutWorkspace` | src/state.rs:2356-2397 | No override evidence names an assignment that has no workspace. |
| `Closure.ClosedWorkIsIntegratedOrOverridden` | src/state.rs:2356-2397 | What acceptance says of one closed task: an unintegrated worktree implies an operator event, from no agent, whose evidence matches the stored base and result. |
| `Inboxes.AcknowledgementMovesThePrefix` | src/state.rs:3438-3478 | An acknowledgement at an existing sequence moves the acknowledged prefix forward to it and never back, and reports the prefix and its growth; at any other cursor it changes nothing. |
| `Inboxes.SendsAreAcceptedExactly` | src/supervisor.rs:5246-5300 | When a message is accepted, and that it is stored unread behind the highest sequence with its sender, text and time. |
| `Inboxes.AcknowledgementsAreAcceptedExactly` | src/state.rs:1310-1358 | When a cursor is refused, and that an acknowledgement fails only if dated before a message it covers. |
| `Inboxes.InboxesArePrefixAcknowledged` | src/state.rs:3395-3478 | Every inbox is numbered 1..n with exactly 1..k acknowledged, and n and k are what its log adds up to. |
| `Inboxes.SendKeepsInboxes` | src/supervisor.rs:5246-5300 | A sent message gets the next sequence of its inbox, and every inbox still matches its log. |
| `Inboxes.AcknowledgeKeepsInboxes` | src/state.rs:1310-1358 | After an acknowledgement every inbox still matches its log. |
| `Ledger.EffectOfMutation` | src/state.rs:1042-1122 | A call that takes effect is exactly its command's effect beside one new ledger row, and only under an ID not yet in the ledger. |
| `Ledger.StrangersAreRefused` | src/state/migrations/0001_initial.sql:131-145 | A first call for an unknown run, or naming an agent that is not in the run, is refused by the ledger row alone; any other succeeds iff its command does. |
| `Ledger.MutationCompletesItsOperation` | src/state.rs:1042-1122 | A committed call leaves its operation complete with the answered result; replays change nothing; at most its own row is added. |
| `Ledger.LaterCallsReplay` | src/state.rs:1042-1122 | However much later, a call with the stored identity gets the stored result, any other call under its ID is refused, and neither changes a table. |
| `Ledger.RequestsAreIntents` | src/state.rs:1042-1071 | Two calls are recorded as the same request iff they ask for the same: the same project, title and prerequisites, agent and task, action with result and summary, recipient and body, or reader and cursor. |
| `Ledger.RowsMatchRepetitions` | src/state.rs:1062-1071 | A stored row is matched exactly by calls of the same kind, run and actor that carry the stored fingerprint or, where none is stored, ask for the same. |
| `Ledger.EventsNameTheirCall` | src/state.rs:3748-3779 | A call appends events to the log of its own run only, and each names the operation and the actor of the call. |
| `Ledger.LedgerErrorsNeverFire` | src/state.rs:1042-1122 | The errors for incomplete rows and missing results never fire. |
| `Ledger.RefusalsChangeNothing` | src/state.rs:1042-1122 | Errors and replays change no table, and a refused command records its operation and nothing else. |
| `Safety.MutationKeepsWorkSafe` | src/state.rs:1042-1122 | A committed mutation keeps ownership, prerequisites, log agreement, inboxes, evidence and acceptance, and only extends what is permanent. |
| `Runs.StepIsSafe` | src/state.rs:1005-1122 | Each of the eighteen kinds of step, at any fate, keeps the whole invariant and undoes nothing permanent. |
| `Runs.HistoriesAreSafe` | src/state.rs:1005-1122 | Any history of steps does so. |
| `Runs.ReachableStatesAreSafe` | src/state.rs:1005-1122 | Every state reachable from the empty database satisfies the whole invariant. |
| `Guarantees.EachOperationTakesEffectAtMostOnce` | src/state.rs:1042-1122 | Over any interleaving of calls, retries, failures and crashes an operation takes effect once if its ID is in the ledger at the end, and otherwise never. |
| `Guarantees.RepeatedCallsReplay` | src/state.rs:1042-1122 | After any call that took effect and any further history, a call under its ID is answered with the identical stored response and changes nothing iff it is of the same kind, run and actor and carries the same fingerprint or, without one, asks for the same; any other is refused unchanged. |
| `Guarantees.CredentialsAreAlwaysFenced` | src/state.rs:1638-2091 | After any history an agent has the state of its current-generation session, at most one of its sessions resolves, and only a live one does; no later step decreases its generation. |
| `Guarantees.LogsAlwaysTellTheTables` | src/state.rs:2922-3004 | After any history folding the log of a run gives the status of every task, and the state of every assignment and claim, that the tables hold. |
| `Guarantees.OwnershipIsAlwaysExact` | src/state.rs:2337-2475 | After any history a task is in progress iff exactly one claim and one assignment of it are open, linked by claim row and naming one agent. |
| `Guarantees.AgentsAlwaysWorkOnOneTask` | src/state.rs:2830-2885 | After any history no agent has two uncompleted assignments. |
| `Guarantees.ReadinessAlwaysAgrees` | src/state.rs:2221-2309 | After any history the listing, the readiness facts and a claim by an idle agent agree, and a refused claim is told a true reason. |
| `Guarantees.ReportsAddUp` | src/state.rs:1310-1358 | Over any history the counts reported by the acknowledgements that took effect for an agent sum to its acknowledged prefix. |
| `Guarantees.FinalTasksNeverChange` | src/tasks.rs:47-77 | Over any history a closed or canceled task never changes again. |
| `Guarantees.PrerequisitesStayClosed` | src/state.rs:2848-2881 | Over any history whatever a started task depends on, however indirectly, stays closed for ever. |
| `Guarantees.RetiredSessionsStayRetired` | src/state.rs:1638-2091 | Over any history the credential of an ended or replaced session never resolves again. |
| `Guarantees.StoppedRunsResolveNothing` | src/state.rs:1403-1418 | In every reachable state, stopping a run leaves none of its credentials resolving. |
| `Guarantees.RecoveredWorkStaysStale` | src/state.rs:1795-1810 | Over any history, a recovered session can be observed no more and a recovered assignment can record no commit. |
| `Guarantees.LogsOnlyGrow` | src/state.rs:3710-3779 | Over any history each log keeps all earlier events as a prefix and stays numbered and continuous. |
| `Guarantees.CorruptionIsUnreachable` | src/state.rs:1237-1302 | In every reachable state the ledger errors, the corrupt-ownership errors and the inconsistent-lifecycle error cannot occur. |
| `Guarantees.ClosedWorkWasAccepted` | src/state.rs:2356-2397 | In every history, a closed task with an unintegrated worktree that was recorded before its closure was accepted by an operator event matching the recorded commits. |
| `Repositories.Transaction.AppendEvent` | src/state.rs:3748-3779 | Appends exactly one event at the next sequence of its run. |
| `Repositories.Transaction.CreateTask` | src/supervisor.rs:4180-4260 | Refines task creation: prerequisites must be in the run, then one open task, its edges and one event. |
| `Repositories.Transaction.ClaimRejectionReason` | src/state.rs:3034-3095 | Computes the specified reason and changes nothing. |
| `Repositories.Transaction.CompareAndSetClaim` | src/state.rs:2830-2919 | Wins exactly when the task is claimable, with the claim and assignment rows added and the status set; otherwise changes nothing and names the reason. |
| `Repositories.Transaction.ClaimTask` | src/state.rs:1125-1148 | Refines the claim with its three events. |
| `Repositories.Transaction.ReleaseTaskOwnership` | src/state.rs:2429-2475 | Refines the release of both rows, or fails as specified. |
| `Repositories.Transaction.ApplyTaskTransition` | src/state.rs:2337-2427 | Refines the move of one task: verdict, release first if in progress, then status and result. |
| `Repositories.Transaction.TransitionTask` | src/state.rs:1159-1307 | Refines the transition with its events. |
| `Repositories.Transaction.SendMessage` | src/supervisor.rs:5246-5300 | Refines the send at the next sequence, with its event. |
| `Repositories.Transaction.AcknowledgeMessages` | src/state.rs:1310-1358 | Refines the acknowledgement, with an event when it is accepted. |
| `Repositories.Transaction.UpdateSessionLifecycle` | src/state.rs:1880-1955 | Refines an observation: staleness, permitted moves, agent mirroring and revocation at the end. |
| `Repositories.Transaction.ActivateSessionCredential` | src/state.rs:1958-2001 | Refines activation: it revokes the credentials of the agent before inserting the new one. |
| `Repositories.Transaction.StartAgentGeneration` | src/state.rs:1638-1661 | Refines the compare-and-set of a generation. |
| `Repositories.Transaction.RecordWorkspaceResultCommit` | src/state.rs:3646-3676 | Refines the write-once result commit. |
| `Repositories.Transaction.RecordWorkspaceTargetCommit` | src/state.rs:3678-3708 | Refines the write-once target commit. |
| `Repositories.Transaction.AssociateAssignmentSession` | src/state.rs:3298-3343 | Refines the association of a current session with an open assignment. |
| `DurableStore.Store.Mutate` | src/state.rs:1042-1122 | Applies a mutation, or loses it before or after commit, extending the history by exactly that call; the store stays reachable, hence safe. |
| `DurableStore.Store.RecordSessionLifecycle` | src/state.rs:1880-1955 | Commits the observation or nothing; the inconsistency error is impossible. |
| `DurableStore.Store.StartAgentGeneration` | src/state.rs:1638-1661 | If it starts a generation, every earlier session of the agent is retired when it returns. |
| `DurableStore.Store.ActivateSessionCredential` | src/state.rs:1958-2001 | If it succeeds, no other session of the agent resolves when it returns. |
| `DurableStore.Store.RecordWorkspaceResultCommit` | src/state.rs:3646-3676 | Commits the result commit or nothing, extending the history by that step. |
| `DurableStore.Store.RecordWorkspaceTargetCommit` | src/state.rs:3678-3708 | Commits the target commit or nothing, extending the history by that step. |
| `DurableStore.Store.AssociateAssignmentSession` | src/state.rs:3298-3343 | Commits the association or nothing. |
| `Bridge.Client.Request` | src/mcp.rs:263-286 | One sending over a connection that may break before or after the commit. |
| `Bridge.Resend` | src/mcp.rs:263-286 | Reconnects and sends again only if the same run answers; otherwise refuses and leaves the store alone. |
| `Bridge.RequestReconnecting` | src/mcp.rs:263-286 | With others using the store in between, a mutation sent and resent takes effect at most once; an answered success is the stored result of its one effect; if the first sending took effect, the second changes nothing and only learns its result. |
| `Migrations.PendingMigrations` | src/state.rs:161-194 | A version-ordered ledger is accepted iff it is a prefix of the embedded list, and then exactly the rest is pending; any other is refused with an error that is true of it. |
| `Migrations.LedgerFits` | src/state.rs:161-194 | The slice of pending migrations is always in range. |
| `Migrations.Database.Migrate` | src/state.rs:958-990 | One opening commits the next migrations in order, up to wherever it crashes. |
| `Migrations.LedgerIsAlwaysAPrefix` | src/state.rs:958-990 | After any crashes and reopenings the ledger is the prefix whose length is the number of commits. |
| `Migrations.RefusalIsPermanent` | src/state.rs:161-194 | A ledger once refused is refused, unchanged, for ever. |
| `Migrations.EmbeddedMigrationsAreNumbered` | src/state.rs:44-151 | The embedded list is numbered 1 to 20 without gaps. |
| `Redaction.MatchLengthIsLongest` | src/redaction.rs:43-88 | The greedy choice at a position is the length of the longest credential that starts there. |
| `Redaction.PartialIsAmbiguous` | src/redaction.rs:43-88 | The byte tests decide exactly whether some credential could still be completed. |
| `Redaction.StableDecision` | src/redaction.rs:43-88 | Once a position is not partial, no further input makes it partial or changes what is decided there, be it a match and its length or a literal byte. |
| `Redaction.ScanResumes` | src/redaction.rs:33-88 | Scanning a longer text resumes exactly where scanning its beginning stopped. |
| `Redaction.ChunkingIsInvisible` | src/redaction.rs:33-88 | Any two ways of cutting the same input into chunks give the same output. |
| `Redaction.PendingIsBounded` | src/redaction.rs:33-88 | What waits after a push is a proper prefix of a credential, so shorter than the longest one. |
| `Redaction.OccurrencesAreConcealed` | src/redaction.rs:43-88 | The first byte of every occurrence of every secret and token is concealed. |
| `Redaction.LiteralRunsHoldNoCredential` | src/redaction.rs:43-88 | No run of consecutive literal bytes contains a whole secret or token. |
| `Redaction.OnlyCredentialsAreConcealed` | src/redaction.rs:43-88 | Nothing is concealed but a whole credential, or an unfinished one at the very end. |
| `Redaction.CleanValuesAreUnchanged` | src/redaction.rs:92-101 | A value without occurrences is returned byte for byte, provided no secret contains NUL. |
| `Redaction.CredentialsBecomeTheMarker` | src/redaction.rs:5-101 | A value that is itself a credential comes out as exactly "[REDACTED]", whatever its length. |
| `Redaction.Redactor.Add` | src/redaction.rs:27-31 | Stores a secret once, and never an empty one. |
| `Redaction.Redactor.Push` | src/redaction.rs:33-36 | Emits exactly what is decided and keeps exactly the undecided rest. |
| `Redaction.Redactor.Finish` | src/redaction.rs:39-41 | Emits the replacement for an unfinished tail and leaves nothing pending. |
| `Redaction.Redactor.RedactStream` | src/redaction.rs:33-41 | Pushing any sequence of chunks and then finishing emits exactly the filtered stream of the chunking theorem, so the output depends on the concatenated input only. |
| `Redaction.Redactor.Drain` | src/redaction.rs:43-88 | The scanning loop computes the specified decomposition of the pending bytes, and terminates. |
| `Redaction.Text` | src/redaction.rs:92-101 | Redacts one value with exactly the non-empty secrets of the environment. |
| `AgentToken.ExposeSecret` | src/auth.rs:37-46 | Prints the prefix and two lower-case digits per byte. |
| `AgentToken.FromStr` | src/auth.rs:82-97 | Accepts exactly the printed forms, and returns the token printed. |
| `AgentToken.SpellingIsInjective` | src/auth.rs:37-97 | A printed form belongs to one token only, so parsing inverts printing. |
| `AgentToken.NibbleRoundTrip` | src/auth.rs:120-126 | Decoding inverts encoding of a digit, and the digit is one the scanner accepts. |
| `AgentToken.NibbleIsCanonical` | src/auth.rs:120-126 | Only canonical digits decode. |
| `AgentToken.PrintedTokensAreConcealed` | src/auth.rs:37-46 | The redactor conceals every printed token wherever it stands. |
| `Lease.OneLeaseVerifies` | src/project.rs:316-403 | Under any interleaving with crashes, and even with lock paths relinked by outsiders, at most one lease per project key would pass verification. |
| `Lease.StepKeepsLocksHeld` | src/project.rs:316-411 | Every step keeps exclusive locks with the process that took them. |
| `ActiveRunIndex.StepKeepsSound` | src/project.rs:508-653 | Every step keeps the index sound: whole, synced, consistent entries, and every worker right about its temporary file, and about its lock and entry too unless the path of its own key was relinked; a relink costs its own key only. |
| `ActiveRunIndex.WorkDisturbsNobody` | src/project.rs:508-653 | A step under one lease is invisible to the holders of all others. |
| `ActiveRunIndex.EntriesBelongToTheirLease` | src/project.rs:508-653 | In any history that leaves the lock path of a key alone, whatever happens to others, its entry is never replaced by a different one, and appears or disappears only by the work of the holder of the key under its own run. |
| `ActiveRunIndex.EntriesAreWhole` | src/project.rs:508-608 | In every history, relinking included, every entry of the index is complete, synced, current-version and consistent with its key. |
| `ActiveRunIndex.ReadersSeeWholeEntries` | src/project.rs:463-506 | A reader that opened an entry sees a complete entry of the key it looked up, whatever happens before it reads. |
| `ActiveRunIndex.OneHolderUnlessRelinked` | src/project.rs:316-377 | In any history that leaves the lock path of a key alone, whatever happens to others, at most one worker holds a lease of the key. |
| `ActiveRunIndex.RelinkingLetsTwoHold` | src/project.rs:316-377 | From every reachable state in which a key is held, relinking its path to any file that nobody locks and four steps of any newcomer make a second holder, and only the newcomer verifies: the promise needs exactly its proviso. |
| `ActiveRunIndex.TwoCanHold` | src/project.rs:316-377 | A history in which any two workers come to hold one key. |
| `ProjectIndex.ForeignStepsLeaveTheHolder` | src/project.rs:508-653 | No step of anybody else changes a holder or the entry its lease protects. |
| `ProjectIndex.PublicationSucceedsUnlessOccupied` | src/project.rs:508-608 | Between admission and rename, a publication fails exactly when a different entry was there when it looked. |
| `ProjectIndex.OnlySyncedContentsSurvive` | src/project.rs:540-575 | What is written to the temporary file survives a power failure only once it is synced, which it is before the rename. |
| `ProjectIndex.RetirementSucceedsForItsOwn` | src/project.rs:610-653 | Once admitted, a retirement stops only for an entry that is not the run's own, and goes on only for one that is. |
| `ProjectIndex.World.Publish` | src/project.rs:508-608 | With arbitrary steps of others between its own, relinks of other keys included, publication succeeds iff the lease verifies, the entry is well formed and no different entry exists; then the entry is in the index, otherwise the index entry is untouched. |
| `ProjectIndex.World.Retire` | src/project.rs:610-653 | With arbitrary steps of others between its own, relinks of other keys included, retirement removes the entry iff the lease verifies and the entry is this project's and run's own; otherwise the index entry is untouched. |
| `Utf8.CharactersAreWellFormed` | src/transcript.rs:57-171 | Concatenations of characters of the grammar in section 4 of RFC 3629 are well formed. |
| `Utf8.WellFormedIsCharacters` | src/transcript.rs:57-171 | Every well-formed text is such a concatenation. |
| `Utf8.CheckDecidesWellFormed` | src/transcript.rs:138-155 | The check behind the page extension accepts exactly the well-formed texts. |
| `Transcript.TranscriptStore.AppendBytes` | src/transcript.rs:182-204 | Appends without rewriting what is there. |
| `Transcript.TranscriptStore.ReadPage` | src/transcript.rs:57-171 | Returns the bytes between its start and next cursor, the total length, and flags that say whether the page ends the file, starts inside a line and whether the file ends inside one; or the failure for a bad limit, a missing file or a cursor beyond the end. |
| `Transcript.TranscriptStore.Follow` | src/supervisor.rs:421-476 | A reader that goes on from the next cursor of each page, while output is appended in between, has received exactly the file up to its cursor. |
| `Transcript.TranscriptStore.ReadOn` | src/transcript.rs:138-155 | The extension loop reads at most three more bytes, and stops as soon as the last character is not cut short. |
| `Transcript.TranscriptStore.SeekTail` | src/transcript.rs:102-117 | The seek loop moves a tail back over at most three continuation bytes. |
| `Transcript.ForwardPageIsWholeExactly` | src/transcript.rs:119-156 | For any bytes and any cursor, a forward page is whole characters iff whole characters reach from the cursor to within three bytes behind the limit. |
| `Transcript.ForwardPageIsWhole` | src/transcript.rs:119-156 | From a character boundary a forward page whose limit stays within the whole characters of the file is whole characters, ends at a boundary and is at most limit + 3 bytes, even while a last character is still being appended. |
| `Transcript.TailPageIsWholeExactly` | src/transcript.rs:101-117 | For any bytes, a tail page is whole characters iff whole characters reach to the end of the file from within three bytes before the limit. |
| `Transcript.TailPageIsWhole` | src/transcript.rs:101-117 | A tail page of any file is at most limit + 3 bytes, and it starts between characters and is whole characters iff the whole file is well formed. |
| `Transcript.PagesAreLossless` | src/transcript.rs:57-171 | The bytes of successive pages, each asked for from the next cursor of the one before it, concatenate exactly to the file up to the last cursor, for arbitrary bytes and with appends in between. |
| `Transcript.PagesStayAligned` | src/transcript.rs:57-171 | Of a growing file, every page is whole characters iff whole characters reach from each cursor to within three bytes behind the limit; then every cursor stands between characters. |
| `Transcript.WholeTextStaysAligned` | src/transcript.rs:57-171 | While every limit stays within the whole characters that the file holds at that read, every page and the cursor stay on character boundaries, even if the last character is half appended. |
| `Transcript.ReadingReachesTheEnd` | src/transcript.rs:57-171 | Every page before the end makes progress, for arbitrary bytes. |
| `Transcript.ReadingIsComplete` | src/transcript.rs:57-171 | Enough reads of a file that no longer grows return exactly the file. |
| `Transcript.MalformedPageMayStopInside` | src/transcript.rs:138-155 | On the malformed bytes C3 F0 9F A6 80 with limit 1 a page ends inside the last character, and the exact condition fails. |
| `Loader.Merge` | src/config/loader.rs:225-249 | The recursive merge builds the specified tree and stamps exactly the visited paths with the file. |
| `Loader.MergedAt` | src/config/loader.rs:225-249 | At every path the incoming tree wins where it has an atomic value, tables are joined, and all else stays. |
| `Loader.LastFileWins` | src/config/loader.rs:178-249 | After merging any list of trees of agreeing shape every path holds what the last file defining it holds, and its recorded source is that file. |
| `Loader.MainFileHasTheLastWord` | src/config/loader.rs:178-223 | The main file decides every field it defines, and of the includes the last that defines a field decides the others. |
| `Loader.LookupFindsTheLastFile` | src/config/loader.rs:110-134 | Nearest-ancestor lookup returns the last file that defines the field or, failing that, its nearest defined ancestor. |
| `Loader.LeavesAreAttributedToTheirFile` | src/config/loader.rs:110-249 | Every leaf of the merged configuration is attributed to the file its value came from. |
| `Loader.SourceFile` | src/config/loader.rs:110-134 | The loop over shrinking keys computes that lookup. |
| `Loader.LoadGlobal` | src/config/loader.rs:178-223 | Refuses exactly repeated, cyclic and nested includes, and otherwise merges includes before the main file. |
| `Configuration.GrantsPrintBack` | src/config.rs:243-257 | A parsed grant prints back to its text. |
| `Configuration.NamesAreSpelled` | src/config.rs:265-270 | A name is valid iff it is a nonempty text of ASCII letters, digits, underscores and hyphens. |
| `Configuration.GrantsAreSpelled` | src/config.rs:243-257 | A grant is one of six namespaces with a name, or with a star for all its actions; anything else is refused. |
| `Configuration.VersionsArePrinted` | src/config/resolver.rs:352-364 | A version is accepted iff it is the printed form of a positive 32-bit number. |
| `Configuration.ReferencesAreSpelled` | src/config/resolver.rs:352-364 | A reference is accepted iff it is its namespace, a valid name and a version, in their one spelling. |
| `Policy.IntersectionIsTheMeet` | src/config/policy.rs:10-45 | On valid profiles intersection is the greatest lower bound of the permission order, and the ceiling test is that order. |
| `Policy.ContradictoryProfilesExceedThemselves` | src/config/policy.rs:10-45 | A profile is below itself exactly if it is valid, which is why contradictory ones must be refused earlier. |
| `ResolutionRules.ResolvedProfilesAreValid` | src/config/resolver.rs:378-416 | No accepted profile contradicts itself. |
| `ResolutionRules.DefinitionsAreComplete` | src/config/resolver.rs:418-489 | In every archetype that can be selected, every role's profile is among its profiles and valid. |
| `Resolver.ResolveProviders` | src/config/resolver.rs:150-181 | Binds every provider or refuses, exactly by rule, and records exactly the commands set globally. |
| `Resolver.ApplyLimits` | src/config/resolver.rs:491-526 | Accepts overrides exactly if each is positive and within the ceiling, keeps the result below it, and records exactly the supplied limits. |
| `Resolver.CeilingsLeaveLimitsAlone` | src/config/resolver.rs:491-526 | Comparing each supplied limit with its intersection is the same as comparing it with the ceiling. |
| `Resolver.ResolveSupervision` | src/config/resolver.rs:528-572 | Accepts bounds exactly by rule and records exactly the supplied ones. |
| `Resolver.ResolveArchetype` | src/config/resolver.rs:418-489 | Accepts a definition exactly if names, providers, profiles, grants and lead are as required, and builds it. |
| `Resolver.ResolveArchetypes` | src/config/resolver.rs:196-225 | Yields exactly the definitions that can be selected, or refuses. |
| `Resolver.BoundedExactlyWithinArchetype` | src/config/resolver.rs:574-677 | Asking for a restricted role passes the intersection tests exactly if capacity and profile are within the archetype role. |
| `Resolver.EffectiveConfig.RestrictRole` | src/config/resolver.rs:574-677 | Restricts one role exactly when within the archetype, which keeps it within. |
| `Resolver.EffectiveConfig.ApplyRoles` | src/config/resolver.rs:574-677 | Applies a layer's restrictions exactly if all are within the archetype, and records exactly the supplied fields with their layer, field and selecting profile. |
| `Provenance.Record.RecordTree` | src/config/provenance.rs:57-90 | Records exactly the leaves of a tree, each with its field, and nothing else changes. |
| `Provenance.Record.RecordArchetype` | src/config/provenance.rs:92-179 | Records exactly the archetype and its unrestricted roles; no index or expectation on the way can fail. |
| `Resolution.ResolveTrusted` | src/config/resolver.rs:105-195 | Resolves trusted policy exactly if it is acceptable, and records exactly its leaves. |
| `Resolution.ApplyOverrides` | src/config/resolver.rs:266-331 | Applies one layer's limits and roles exactly if they are within trusted authority, overlaying exactly their origins. |
| `Resolution.Resolve` | src/config/resolver.rs:99-332 | Succeeds exactly on acceptable input; the provenance map has exactly the leaves of the effective configuration, each with its specified origin. |
| `Authority.LeavesAreTheFieldsWithValues` | src/config/provenance.rs:57-90 | The leaves are exactly the fields at which the effective configuration has a value. |
| `Authority.ProvenanceIsTruthful` | src/config/resolver.rs:99-332 | Reading the recorded layer at the recorded field gives the effective value of every leaf. |
| `Authority.SelectionsAreTruthful` | src/config/resolver.rs:99-332 | Exactly the archetype reference and the role profiles record who selected them; reading that layer at that field gives the selected reference or profile name, and the effective profile is the one of that name. |
| `Authority.LimitsStayTrusted` | src/config/resolver.rs:266-331 | Run limits end at or below the trusted limits. |
| `Authority.RolesStayWithinTheirArchetype` | src/config/resolver.rs:574-677 | Every role's capacity and profile end at or below those of the selected archetype's role. |
| `Authority.ProjectsChangeNoDefinition` | src/config/resolver.rs:266-331 | Replacing the project input changes no archetype definition, provider, root or supervision bound. |
| `Authority.UnrestrictedAccessIsTrusted` | src/config/resolver.rs:266-331 | An enabled unrestricted role appears only if the operator, or else the global file, itself selected that archetype. |
| `Authority.AccessIsRefusedExactly` | src/config/resolver.rs:318-330 | An otherwise acceptable input is refused iff some role ends up enabled on an unrestricted file system and neither the operator nor, where the operator selects nothing, the global file selected its archetype. |
| `Requirements.CommandsAreAcceptedExactly` | src/config/resolver.rs:165-176 | A command is accepted iff its program is not empty and no argument holds a NUL. |
| `Requirements.RootsAreAcceptedExactly` | src/config/resolver.rs:133-140 | Allowed roots are accepted iff each is an absolute path. |
| `Requirements.ProfilesAreAcceptedExactly` | src/config/resolver.rs:378-416 | A profile is accepted iff its name is valid, its three policies are given, and neither unrestricted files without network nor automatic review without approvals is asked for; an omitted reviewer is the user. |
| `Requirements.WorkspacesAreHonoredExactly` | src/config/resolver.rs:303-317 | Roles are refused for their workspace iff an enabled one on a read-only workspace may write. |
| `Requirements.EffectiveCommandsCanBeRun` | src/config/resolver.rs:105-181 | Every command given in an accepted configuration is bound under a valid name and can be run, and its roots are absolute. |
| `Requirements.EffectiveLimitsArePositive` | src/config/resolver.rs:491-526 | No limit of an effective configuration is zero or above the trusted one. |
| `Requirements.EffectiveBoundsAreUsable` | src/config/resolver.rs:528-572 | Every bound that was set is in range and positive, except that idle shutdown may be off, and an interrupt always fits into a shutdown. |
| `Requirements.EffectiveProfilesAreConsistent` | src/config/resolver.rs:378-489 | No profile of a selected global archetype contradicts itself, and each is a trusted one. |
| `Requirements.EffectiveLeadsCanLead` | src/config/resolver.rs:418-489 | The lead of a selected global archetype is an interactive role outside worktrees and ends up enabled. |
| `Requirements.EffectiveReadersCannotWrite` | src/config/resolver.rs:303-317 | An enabled role on a read-only workspace has a read-only file system. |
| `Requirements.EffectiveRolesAreBound` | src/config/resolver.rs:418-489 | Every role of a selected global archetype has a valid name, a bound provider and a trusted profile. |
| `CompiledDefaults.CompiledDefaultsAreSound` | src/config.rs:303-403 | The compiled values meet what resolution assumes of them. |
| `CompiledDefaults.BuiltinIsReserved` | src/config/resolver.rs:352-364 | No global definition can take the place of the built-in archetype. |

## Left out

- Encodings: SQLite, serde and JSON text. Tables are values that survive a commit and vanish with a rollback, and a stored result or request is the value itself; the redaction of stored request text is not applied.
- Raw inserts with arbitrary contents: tasks are created Open, agents and sessions Starting, messages at the next sequence; groups, comments, projects, configuration snapshots and operation reconciliation have no tables here.
- Recovery, resubmission, retained children, continuations and notifications (`src/state/*.rs`): the recovered sessions and assignments are a growing set (`Runs`, step `Recover`), and reactivating a run is one step.
- Workspaces.WorkspaceEvolves: that a recorded result commit is never replaced is claimed without resubmission (`src/state/resubmit.rs`), which replaces the result of the latest assignment of a submitted task, before it is integrated; closed tasks are not resubmitted.
- Supervision: the draining state of assignments and the reservation of workspace paths. The assignment state `Aborted` stands for the row state `canceled`.
- Events: identifiers, correlation, payload text and the refusal of a single oversized payload; an event carries what the folds need.
- Ledger bookkeeping for external effects: attempt counts, status text and reconciliation columns of an operation.
- Bridge.RequestReconnecting: framing and tool catalogues of the bridge are not modelled, only its requests and connections.
- Project discovery: how a project identity is found and hashed; an identity carries its digest, and two identities may share one.
- ProjectIndex.World: two threads that use one lease object at the same time, directory entries lost by a power failure (unsynced contents are lost), and ownership, mode and link-count checks of files. Retirement by a process without a lease does not exist in the source.
- Transcript.TranscriptStore.ReadPage: the lossy decoding of a page into text, the permission checks on opening, and appends that race with the reading of one page.
- Utf8: only the part of the standard library's checker that tells valid, invalid and cut-short text apart.
- Loader.LoadGlobal: paths are sequences of keys here, while the source joins keys with dots and splits at the last dot, so a quoted key that holds a dot can collide with a nested path there. Reading and parsing of files, canonical paths and the choice among errors are left out too.
- Resolution.Resolve: which of several errors is reported, path expansion of operator and global roots, and the text of field names, which are structured paths here.
- Provenance.Record.RecordTree: walks the leaf set of the recorded type rather than a generic serialized tree.
- AgentToken: generation, message authentication and constant-time comparison of verifiers.
- Redaction.Redactor: gathering the secrets from the process environment is a parameter.
- Providers: only the lifecycle table; a provider's own observations can leave quarantine again, and finality is claimed for the store alone.
- Process spawning, signals, terminals, Git, transport, command line, schemas and reports.
