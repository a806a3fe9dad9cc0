/**
 The rows and tables of the runtime store, and the row-level helpers that every
 transaction shares: requiring a row, checking a version or a lease guard,
 appending to the journal, and moving a checkpoint's event cursor.
 */
module StoreModel {
  import opened Wrappers

  /** An interned identifier or lease token: the store only compares them. */
  type Id = int

  // ---------------------------------------------------------------- rows

  datatype TaskOutcome = Active | Completed | Failed | Cancelled

  datatype Condition = Idle | Running | Pausing | WaitingForApproval | Paused | RecoveryRequired | Ended

  datatype Task = Task(id: Id, repository: string, sessionId: Option<Id>, outcome: TaskOutcome,
                       condition: Condition, version: nat)

  datatype SessionStatus = Open | Closed

  datatype Session = Session(id: Id, workspaceRef: string, status: SessionStatus, activeTask: Option<Id>,
                             configVersion: string, version: nat, eventSequence: nat)

  datatype Role = User | Assistant | System

  datatype Turn = Turn(id: Id, sessionId: Id, taskId: Option<Id>, role: Role, content: string,
                       submissionId: Option<Id>, sequence: nat)

  datatype Revision = Number(n: nat) | Scoped(n: nat, id: Id) | Ids(ids: seq<Id>) | Text(text: string)

  /** The pre-image of a journal event id, which the store hashes. */
  datatype EventId = EventId(kind: string, entity: Id, revision: Revision)

  datatype Event = Event(id: EventId, sessionId: Id, taskId: Option<Id>, payload: string, sequence: nat)

  datatype ExecutionStatus =
    | Claimed | ExecutionRunning | ExecutionWaiting | ExecutionPaused
    | ExecutionCompleted | ExecutionFailed | ExecutionCancelled | ExecutionRecoveryRequired | Released

  datatype Execution = Execution(id: Id, sessionId: Id, taskId: Id, ownerId: Id, token: Id,
                                 generation: nat, expiresAt: nat, status: ExecutionStatus, version: nat)

  datatype Guard = Guard(executionId: Id, taskId: Id, token: Id, generation: nat, ownerId: Id)

  datatype WorkspaceLease = WorkspaceLease(workspaceId: Id, executionId: Id, sessionId: Id, taskId: Id,
                                           ownerId: Id, token: Id, generation: nat, expiresAt: nat)

  datatype WorkspaceGuard = WorkspaceGuard(workspaceId: Id, executionId: Id, token: Id,
                                           generation: nat, ownerId: Id)

  datatype EffectStatus =
    | Prepared | EffectWaiting | Executing | Succeeded | EffectFailed | Denied | Unknown | EffectCancelled

  datatype Decision = Allow | Deny | RequireApproval

  /** Everything the content fingerprint of an effect covers. */
  datatype Content = Content(tool: string, arguments: string, decision: Decision, approvalRequired: bool,
                             preparationError: Option<string>, rest: string)

  datatype Effect = Effect(id: Id, taskId: Id, stepId: Id, position: nat, callId: Id, retryOf: Option<Id>,
                           content: Content, status: EffectStatus, approvalId: Option<Id>,
                           approvalConsumed: bool, version: nat)

  datatype ApprovalStatus = Pending | Approved | Consumed | ApprovalDenied | Expired

  datatype Approval = Approval(id: Id, effectId: Id, fingerprint: Content, arguments: string,
                               workspaceRef: string, policyVersion: string, configVersion: string,
                               summary: string, status: ApprovalStatus, source: Option<string>, version: nat)

  datatype ControlKind = Pause | Cancel

  datatype ControlStatus = Requested | Acknowledged | Settled | CleanupFailed

  datatype Control = Control(id: Id, taskId: Id, executionId: Option<Id>, kind: ControlKind,
                             status: ControlStatus, version: nat)

  datatype DispositionKind = ConfirmResult | CreateRetry | Abandon

  datatype Disposition = Disposition(id: Id, unknownEffectId: Id, kind: DispositionKind, evidence: string,
                                     riskAcknowledged: bool, source: string, retryEffectId: Option<Id>)

  datatype ToolCall = ToolCall(id: Id, name: string, arguments: string)

  datatype ToolResult = ToolResult(callId: Id, toolName: string, success: bool, output: string)

  datatype Observation = Observation(call: ToolCall, result: ToolResult)

  datatype Checkpoint = Checkpoint(taskId: Id, sessionId: Id, turnId: Option<Id>, consumedInput: nat,
                                   eventSequence: nat, pendingEffects: seq<Id>)

  datatype StepRow = StepRow(id: Id, taskId: Id, index: nat, response: Option<string>, effectIds: seq<Id>)

  datatype Error =
    | NotFound | AlreadyExists | StaleVersion | LeaseLost | LeaseConflict | RecoveryIsRequired
    | InvalidValue | IdentityConflict | ApprovalConflict | SubmissionConflict | InputRevisionConflict
    | ControlIsRequested | IntegrityError | InvalidRow

  /** The tables of sessions, tasks, ownership and logs. */
  datatype Home = Home(
    sessions: map<Id, Session>,
    tasks: map<Id, Task>,
    executions: map<Id, Execution>,
    workspaces: map<Id, WorkspaceLease>,
    controls: map<Id, Control>,
    checkpoints: map<Id, Checkpoint>,
    turns: seq<Turn>,
    events: seq<Event>)

  /** The tables of effects, approvals, recovery decisions and tool observations. */
  datatype Work = Work(
    effects: map<Id, Effect>,
    approvals: map<Id, Approval>,
    dispositions: map<Id, Disposition>,
    observations: map<(Id, Id), Observation>,
    steps: map<(Id, nat), StepRow>)

  /** One committed database state. */
  datatype State = State(home: Home, work: Work)

  const Empty: State := State(Home(map[], map[], map[], map[], map[], map[], [], []), Work(map[], map[], map[], map[], map[]))

  // ------------------------------------------------------------- row access

  /** The cross-field rule that is checked each time a task is parsed. */
  predicate Readable(t: Task) {
    t.outcome.Active? || t.condition.Ended? || t.condition.RecoveryRequired?
  }

  function RequireTask(tasks: map<Id, Task>, id: Id): Result<Task, Error> {
    if id !in tasks then Failure(NotFound)
    else if !Readable(tasks[id]) then Failure(InvalidRow)
    else Success(tasks[id])
  }

  function RequireSession(sessions: map<Id, Session>, id: Id): Result<Session, Error> {
    if id in sessions then Success(sessions[id]) else Failure(NotFound)
  }

  function RequireEffect(effects: map<Id, Effect>, id: Id): Result<Effect, Error> {
    if id in effects then Success(effects[id]) else Failure(NotFound)
  }

  predicate VersionMatches(actual: nat, expected: Option<nat>) {
    expected.None? || expected.value == actual
  }

  predicate IsActive(status: ExecutionStatus) {
    status.Claimed? || status.ExecutionRunning? || status.ExecutionWaiting? || status.ExecutionPaused?
  }

  /** The fencing test of every execution-owned write. */
  predicate GuardLive(executions: map<Id, Execution>, g: Guard, now: nat) {
    && g.executionId in executions
    && var x := executions[g.executionId];
       && x.taskId == g.taskId && x.token == g.token && x.generation == g.generation
       && x.ownerId == g.ownerId && x.expiresAt > now && IsActive(x.status)
  }

  predicate WorkspaceGuardLive(workspaces: map<Id, WorkspaceLease>, g: WorkspaceGuard, now: nat) {
    && g.workspaceId in workspaces
    && var w := workspaces[g.workspaceId];
       && w.executionId == g.executionId && w.ownerId == g.ownerId && w.token == g.token
       && w.generation == g.generation && w.expiresAt > now
  }

  predicate ControlPending(controls: map<Id, Control>, taskId: Id) {
    exists c :: c in controls && controls[c].taskId == taskId
                && (controls[c].status.Requested? || controls[c].status.Acknowledged?)
  }

  predicate SameIdentity(a: Effect, b: Effect) {
    a.taskId == b.taskId && a.stepId == b.stepId && a.position == b.position
  }

  /** `Effect.assert_identity_compatible`: one identity never carries two contents. */
  predicate IdentityCompatible(a: Effect, b: Effect) {
    && (a.id == b.id ==> SameIdentity(a, b))
    && (a.id == b.id || SameIdentity(a, b) ==> a.content == b.content)
  }

  predicate IdentityTaken(effects: map<Id, Effect>, e: Effect) {
    exists k :: k in effects && SameIdentity(effects[k], e)
  }

  predicate ApprovalExistsFor(approvals: map<Id, Approval>, effectId: Id) {
    exists a :: a in approvals && approvals[a].effectId == effectId
  }

  /** `Approval.matches_execution_conditions`. */
  predicate Binds(a: Approval, e: Effect, workspaceRef: string, policyVersion: string, configVersion: string) {
    && a.effectId == e.id && a.fingerprint == e.content && a.arguments == e.content.arguments
    && a.workspaceRef == workspaceRef && a.policyVersion == policyVersion && a.configVersion == configVersion
  }

  /** Python's `value or fallback` on an optional string. */
  function Given(value: Option<string>, fallback: string): string {
    if value.Some? && value.value != "" then value.value else fallback
  }

  // --------------------------------------------------------------- turn log

  function SessionTurns(turns: seq<Turn>, sessionId: Id): seq<Turn> {
    if |turns| == 0 then []
    else
      var rest := SessionTurns(turns[..|turns| - 1], sessionId);
      if turns[|turns| - 1].sessionId == sessionId then rest + [turns[|turns| - 1]] else rest
  }

  /** `COALESCE(MAX(sequence), 0)` over one session's turns. */
  function MaxTurn(turns: seq<Turn>, sessionId: Id): nat {
    if |turns| == 0 then 0
    else
      var rest := MaxTurn(turns[..|turns| - 1], sessionId);
      var last := turns[|turns| - 1];
      if last.sessionId == sessionId && last.sequence > rest then last.sequence else rest
  }

  function SessionEvents(events: seq<Event>, sessionId: Id): seq<Event> {
    if |events| == 0 then []
    else
      var rest := SessionEvents(events[..|events| - 1], sessionId);
      if events[|events| - 1].sessionId == sessionId then rest + [events[|events| - 1]] else rest
  }

  /** No lease of an execution or of a workspace differs. */
  predicate SameLeases(h: Home, h': Home) {
    h'.executions == h.executions && h'.workspaces == h.workspaces
  }

  // ---------------------------------------------------------------- journal

  /** The primary key on the event id and the unique (session, sequence) pair. */
  predicate EventClash(events: seq<Event>, e: Event) {
    exists i :: 0 <= i < |events|
                && (events[i].id == e.id
                    || (events[i].sessionId == e.sessionId && events[i].sequence == e.sequence))
  }

  /** `_journal`: number the event after the session's counter and store both rows. */
  function Journal(h: Home, session: Session, id: EventId, taskId: Option<Id>, payload: string)
    : (r: Result<Home, Error>)
    ensures r.Success? ==> r.value == h.(sessions := r.value.sessions, events := r.value.events)
  {
    var e := Event(id, session.id, taskId, payload, session.eventSequence + 1);
    :- Need(!EventClash(h.events, e), IntegrityError);
    Success(h.(events := h.events + [e],
               sessions := h.sessions[session.id := session.(eventSequence := e.sequence)]))
  }

  /** Journal on the session that owns the task, if it is bound to one. */
  function JournalTask(h: Home, task: Task, id: EventId): (r: Result<Home, Error>)
    ensures r.Success? ==> r.value == h.(sessions := r.value.sessions, events := r.value.events)
  {
    if task.sessionId.None? then Success(h)
    else
      var session :- RequireSession(h.sessions, task.sessionId.value);
      Journal(h, session, id, Some(task.id), "")
  }

  function Without(ids: seq<Id>, id: Id): seq<Id> {
    if |ids| == 0 then [] else (if ids[0] == id then [] else [ids[0]]) + Without(ids[1..], id)
  }

  /** `_advance_checkpoint_event_cursor`, to the current end of the task's journal. */
  function AdvanceCursor(h: Home, task: Task, completed: Option<Id>): (h': Home)
    ensures h' == h.(checkpoints := h'.checkpoints)
  {
    if task.id !in h.checkpoints || task.sessionId.None? || task.sessionId.value !in h.sessions then h
    else
      var c := h.checkpoints[task.id];
      var pending := if completed.Some? then Without(c.pendingEffects, completed.value) else c.pendingEffects;
      h.(checkpoints := h.checkpoints[task.id := c.(eventSequence := h.sessions[task.sessionId.value].eventSequence,
                                                    pendingEffects := pending)])
  }
}
