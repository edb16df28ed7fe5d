/** The tables of one run database (src/state.rs). */
module Database {
  import opened Bytes
  import opened Lifecycle
  import opened Tasks

  type RunId = nat
  type AgentId = nat
  type SessionId = nat
  type AssignmentId = nat
  type OperationId = nat
  type ProjectId = nat
  type Time = int
  type Commit = string

  // ----- Agents, sessions and credentials -----

  datatype ProcessOwner = Supervisor | Foreground

  datatype ResourceState = Desired | Observed | Missing | Uncertain

  datatype Agent = Agent(run: RunId, generation: int, state: LifecycleState)

  datatype Session = Session(
    run: RunId, agent: AgentId, generation: int, owner: ProcessOwner,
    provider: Option<string>, reconciliation: ResourceState, state: LifecycleState, ended: Option<Time>)

  datatype Credential = Credential(
    run: RunId, agent: AgentId, generation: int, verifier: string, createdAt: Time, revoked: Option<Time>)

  datatype SessionScope = SessionScope(run: RunId, agent: AgentId, session: SessionId, generation: int)

  // ----- Tasks, claims, assignments and workspaces -----

  /** Operator acceptance evidence, distinct from a workspace integration record. */
  datatype Evidence = Evidence(
    assignment: AssignmentId, project: ProjectId, base: Commit, result: Commit,
    targetReference: string, target: Commit, reason: string, validation: string)

  /** A task's result document; closing by override stores the evidence in it. */
  datatype Document = Document(body: string, override: Option<Evidence>)

  datatype Task = Task(run: RunId, project: ProjectId, status: TaskStatus, result: Option<Document>)

  datatype Edge = Edge(run: RunId, task: TaskId, dependency: TaskId)

  datatype Claim = Claim(
    run: RunId, task: TaskId, agent: AgentId, operation: OperationId, released: Option<Time>)

  datatype AssignmentState = Active | Released | Completed | Aborted

  datatype Assignment = Assignment(
    id: AssignmentId, run: RunId, task: TaskId, agent: AgentId, session: Option<SessionId>, claim: nat,
    generation: int, state: AssignmentState, summary: Option<string>, createdAt: Time, completed: Option<Time>)

  datatype AssignmentScope = AssignmentScope(run: RunId, assignment: AssignmentId, generation: int)

  datatype WorkspaceKind = ProjectDirectory | Worktree | ReadOnly

  datatype Workspace = Workspace(
    run: RunId, project: ProjectId, generation: int, kind: WorkspaceKind, state: ResourceState,
    base: Option<Commit>, result: Option<Commit>, target: Option<Commit>)

  // ----- Messages and events -----

  datatype Message = Message(
    sender: Option<AgentId>, sequence: int, body: string, createdAt: Time, acknowledged: Option<Time>)

  datatype EventBody =
    | TaskCreated(task: TaskId)
    | TaskChanged(task: TaskId, previous: TaskStatus, next: TaskStatus, evidence: Option<Evidence>)
    | TaskClaimed(task: TaskId, assignment: AssignmentId, claim: nat)
    | AssignmentCreated(assignment: AssignmentId, claim: nat, generation: int)
    | AssignmentChanged(assignment: AssignmentId, before: AssignmentState, after: AssignmentState)
    | ClaimReleased(task: TaskId, claim: nat)
    | MessageSent(recipient: AgentId, cursor: int)
    | MessageAcknowledged(reader: AgentId, count: nat, through: int)

  datatype Event = Event(sequence: int, actor: Option<AgentId>, operation: OperationId, body: EventBody)

  // ----- Operations -----

  datatype Kind = CreateKind | ClaimKind | TransitionKind(transition: TaskTransition) | SendKind | AcknowledgeKind

  /** The caller's intent: bookkeeping values that a retry may draw afresh are not part of it. */
  datatype Request =
    | CreateRequest(project: ProjectId, title: string, dependencies: set<TaskId>)
    | ClaimRequest(agent: AgentId, task: TaskId)
    | TransitionRequest(
        task: TaskId, transition: TaskTransition, result: Option<Document>, summary: Option<string>)
    | SendRequest(recipient: AgentId, body: string)
    | AcknowledgeRequest(agent: AgentId, through: int)

  datatype ClaimRejection = TaskNotFound | TaskNotOpen | Blocked | AlreadyClaimed | AgentNotFound | AgentBusy

  datatype TransitionRejection = NoSuchTask | InvalidStatus(status: TaskStatus) | AcceptanceNotMet

  datatype Response =
    | CreatedTask(task: TaskId)
    | Claimed(claim: nat, assignment: AssignmentId)
    | ClaimRefused(claimReason: ClaimRejection)
    | Transitioned(previous: TaskStatus, next: TaskStatus)
    | TransitionRefused(reason: TransitionRejection)
    | Sent(cursor: int)
    | Acknowledged(through: int, count: nat)
    | CursorNotFound(highest: int)

  datatype OperationStatus = Pending | Succeeded

  datatype Operation = Operation(
    run: RunId, kind: Kind, actor: Option<AgentId>, request: Request, fingerprint: Option<string>,
    status: OperationStatus, result: Option<Response>)

  datatype StoreError =
    | OperationConflict
    | OperationIncomplete
    | MissingOperationResult
    | CorruptTaskState
    | StaleAssignment
    | CorruptAssignmentState
    | InvalidSessionTransition
    | InconsistentSessionLifecycle
    | CredentialAlreadyRevoked
    | WorkspaceConflict
    | RunNotActive
    | ConstraintViolation
    | RequestError

  datatype Result<+T> = Ok(value: T) | Err(error: StoreError)

  /** Rows keyed as their primary keys and unique indexes are; claims and assignments in row order. */
  datatype Db = Db(
    operations: map<OperationId, Operation>,
    runs: map<RunId, bool>,
    agents: map<AgentId, Agent>,
    sessions: map<SessionId, Session>,
    credentials: map<SessionId, Credential>,
    tasks: map<TaskId, Task>,
    edges: set<Edge>,
    claims: seq<Claim>,
    assignments: seq<Assignment>,
    workspaces: map<AssignmentId, Workspace>,
    inboxes: map<(RunId, AgentId), seq<Message>>,
    events: map<RunId, seq<Event>>,
    recoveredSessions: set<SessionId>,
    recoveredAssignments: set<AssignmentId>)

  const EMPTY_DB := Db(
    map[], map[], map[], map[], map[], map[], {}, [], [], map[], map[], map[], {}, {})

  function LogOf(db: Db, run: RunId): seq<Event> {
    if run in db.events then db.events[run] else []
  }

  function Inbox(db: Db, run: RunId, agent: AgentId): seq<Message> {
    if (run, agent) in db.inboxes then db.inboxes[(run, agent)] else []
  }

  predicate AgentInRun(db: Db, agent: AgentId, run: RunId) {
    agent in db.agents && db.agents[agent].run == run
  }

  predicate TaskInRun(db: Db, task: TaskId, run: RunId) {
    task in db.tasks && db.tasks[task].run == run
  }

  predicate RunIsActive(db: Db, run: RunId) {
    run in db.runs && db.runs[run]
  }
}
