/**
 Specification of the session, turn, task, control and checkpoint transactions.
 Each function maps the committed tables before a call to the tables after it, or
 to the error that rolls the transaction back.
 */
module SessionSpec {
  import opened Wrappers
  import opened StoreModel

  ghost function CreateSession(h: Home, session: Session): (r: Result<Home, Error>)
    ensures r.Success? ==> SameLeases(h, r.value) && r.value.turns == h.turns
  {
    var isNew := session.id !in h.sessions;
    :- Need(isNew, AlreadyExists);
    :- Need(session.activeTask.None? || session.activeTask.value in h.tasks, IntegrityError);
    var created := h.(sessions := h.sessions[session.id := session]);
    Journal(created, session, EventId("session.created", session.id, Number(session.version)), None, "")
  }

  ghost function CloseSession(h: Home, id: Id, expected: nat): (r: Result<Home, Error>)
    ensures r.Success? ==> SameLeases(h, r.value) && r.value.turns == h.turns
  {
    var session :- RequireSession(h.sessions, id);
    :- Need(session.version == expected, StaleVersion);
    :- Need(session.activeTask.None?, InvalidValue);
    var closed := session.(status := Closed, version := session.version + 1);
    Journal(h, closed, EventId("session.closed", id, Number(closed.version)), None, "")
  }

  predicate IsSubmission(t: Turn, sessionId: Id, submission: Id) {
    t.sessionId == sessionId && t.submissionId == Some(submission)
  }

  predicate Submitted(turns: seq<Turn>, sessionId: Id, submission: Id) {
    exists i :: 0 <= i < |turns| && IsSubmission(turns[i], sessionId, submission)
  }

  predicate SameSubmission(existing: Turn, requested: Turn) {
    && existing.role == requested.role && existing.content == requested.content
    && (requested.taskId.None? || existing.taskId == requested.taskId)
  }

  /** The turn stored under the submission id is the turn that is sent again. */
  predicate Repeats(turns: seq<Turn>, turn: Turn, submission: Id) {
    forall i :: 0 <= i < |turns| && IsSubmission(turns[i], turn.sessionId, submission) ==> SameSubmission(turns[i], turn)
  }

  predicate FreshTurn(turns: seq<Turn>, id: Id) {
    forall i :: 0 <= i < |turns| ==> turns[i].id != id
  }

  /** Number the turn after the last one of its session and store it. */
  ghost function InsertTurn(h: Home, session: Session, turn: Turn, expected: Option<nat>): (r: Result<Home, Error>)
    ensures r.Success? ==> SameLeases(h, r.value)
  {
    var upToDate := VersionMatches(session.version, expected);
    :- Need(upToDate, StaleVersion);
    :- TurnTaskBelongs(h, turn);
    var numbered := turn.(sequence := MaxTurn(h.turns, turn.sessionId) + 1,
                          taskId := if turn.taskId.Some? then turn.taskId else session.activeTask);
    :- Need(FreshTurn(h.turns, turn.id), IntegrityError);
    Journal(h.(turns := h.turns + [numbered]), session.(version := session.version + 1),
            EventId("turn.appended", numbered.id, Number(numbered.sequence)), numbered.taskId, "")
  }

  ghost function AppendTurn(h: Home, turn: Turn, expected: Option<nat>): (r: Result<Home, Error>)
    ensures r.Success? ==> SameLeases(h, r.value)
  {
    var session :- RequireSession(h.sessions, turn.sessionId);
    :- Need(session.status.Open?, InvalidValue);
    if turn.submissionId.Some? && Submitted(h.turns, turn.sessionId, turn.submissionId.value) then
      :- Need(Repeats(h.turns, turn, turn.submissionId.value), SubmissionConflict);
      Success(h)
    else InsertTurn(h, session, turn, expected)
  }

  function TurnTaskBelongs(h: Home, turn: Turn): Check<Error> {
    if turn.taskId.None? then Pass
    else
      match RequireTask(h.tasks, turn.taskId.value)
      case Failure(e) => Stop(e)
      case Success(task) => Need(task.sessionId == Some(turn.sessionId), InvalidValue)
  }

  ghost function StartTask(h: Home, sessionId: Id, task: Task, expected: nat): (r: Result<Home, Error>)
    ensures r.Success? ==> SameLeases(h, r.value) && r.value.turns == h.turns
  {
    var readable := Readable(task);
    :- Need(readable, InvalidValue);
    var session :- RequireSession(h.sessions, sessionId);
    :- Need(session.version == expected, StaleVersion);
    :- Need(session.status.Open?, InvalidValue);
    :- Need(session.activeTask.None?, LeaseConflict);
    :- Need(task.outcome.Active?, InvalidValue);
    :- Need(task.id !in h.tasks, AlreadyExists);
    var bound := task.(sessionId := Some(sessionId));
    Journal(h.(tasks := h.tasks[task.id := bound]),
            session.(activeTask := Some(task.id), version := session.version + 1),
            EventId("task.started", bound.id, Number(bound.version)), Some(bound.id), "")
  }

  /** `runtime-session-{id}`: one reserved session name per task. */
  function RuntimeSessionId(taskId: Id): Id {
    -1 - taskId
  }

  /** Tie an unbound task to its runtime session, which is opened when it is missing. */
  ghost function BindToRuntimeSession(h: Home, current: Task): (r: Result<Home, Error>)
    ensures r.Success? ==> SameLeases(h, r.value) && r.value.turns == h.turns
  {
    var sid := RuntimeSessionId(current.id);
    var bound := current.(sessionId := Some(sid), version := current.version + 1);
    if sid !in h.sessions then
      var session := Session(sid, current.repository, Open, Some(current.id), "1", 1, 0);
      Success(h.(tasks := h.tasks[current.id := bound], sessions := h.sessions[sid := session]))
    else if h.sessions[sid].activeTask == Some(current.id) then
      Success(h.(tasks := h.tasks[current.id := bound]))
    else
      var session := h.sessions[sid];
      :- Need(session.activeTask.None?, LeaseConflict);
      Success(h.(tasks := h.tasks[current.id := bound],
                 sessions := h.sessions[sid := session.(activeTask := Some(current.id), version := session.version + 1)]))
  }

  /** Insert an absent task, then bind an unbound one to its own runtime session. */
  ghost function PrepareTaskExecution(h: Home, task: Task): (r: Result<Home, Error>)
    ensures r.Success? ==> SameLeases(h, r.value) && r.value.turns == h.turns
  {
    var readable := Readable(task);
    :- Need(readable, InvalidValue);
    :- Need(task.id in h.tasks || task.sessionId.None? || task.sessionId.value in h.sessions, IntegrityError);
    var stored := if task.id in h.tasks then h else h.(tasks := h.tasks[task.id := task]);
    var current :- RequireTask(stored.tasks, task.id);
    if current.sessionId.Some? then
      var session :- RequireSession(stored.sessions, current.sessionId.value);
      :- Need(session.activeTask == Some(current.id), LeaseConflict);
      Success(stored)
    else BindToRuntimeSession(stored, current)
  }

  ghost function CreateTask(h: Home, task: Task): (r: Result<Home, Error>)
    ensures r.Success? ==> SameLeases(h, r.value) && r.value.turns == h.turns
  {
    var readable := Readable(task);
    :- Need(readable, InvalidValue);
    :- Need(task.id !in h.tasks, AlreadyExists);
    :- Need(task.sessionId.None? || task.sessionId.value in h.sessions, NotFound);
    JournalTask(h.(tasks := h.tasks[task.id := task]), task,
                EventId("task.created", task.id, Number(task.version)))
  }

  /** Drop the task from the session it was active in, if it was. */
  function Deactivate(session: Session, taskId: Id): Session {
    if session.activeTask == Some(taskId) then session.(activeTask := None, version := session.version + 1)
    else session
  }

  ghost function UpdateTask(h: Home, task: Task, expected: nat, guard: Option<Guard>, now: nat): (r: Result<Home, Error>)
    ensures r.Success? ==> SameLeases(h, r.value) && r.value.turns == h.turns
  {
    var readable := Readable(task);
    :- Need(readable, InvalidValue);
    var current :- RequireTask(h.tasks, task.id);
    :- Need(current.version == expected, StaleVersion);
    :- Need(current.sessionId.None? || (guard.Some? && GuardLive(h.executions, guard.value, now)), LeaseLost);
    :- Need(current.sessionId == task.sessionId, InvalidValue);
    :- Need(current.outcome.Active? || task.outcome == current.outcome, InvalidValue);
    :- Need(!current.condition.RecoveryRequired? || task.condition.RecoveryRequired?, RecoveryIsRequired);
    var updated := task.(version := current.version + 1);
    var written := h.(tasks := h.tasks[task.id := updated]);
    if updated.sessionId.None? then Success(written)
    else
      var session :- RequireSession(h.sessions, updated.sessionId.value);
      Journal(written, if updated.outcome.Active? then session else Deactivate(session, task.id),
              EventId("task.updated", updated.id, Number(updated.version)), Some(task.id), "")
  }

  /** The newest active execution of the task still holds its lease. */
  predicate HasLiveOwner(executions: map<Id, Execution>, taskId: Id, now: nat) {
    exists x :: x in executions && executions[x].taskId == taskId && IsActive(executions[x].status)
                && executions[x].expiresAt > now
                && forall y :: y in executions && executions[y].taskId == taskId && IsActive(executions[y].status)
                         ==> executions[y].generation <= executions[x].generation
  }

  predicate CancelPending(controls: map<Id, Control>, taskId: Id) {
    exists c :: c in controls && controls[c].taskId == taskId && controls[c].kind.Cancel?
                && (controls[c].status.Requested? || controls[c].status.Acknowledged?)
  }

  /** Cancel a task that nobody runs, and let its session go of it. */
  ghost function EndUnowned(h: Home, task: Task): (r: Result<Home, Error>)
    ensures r.Success? ==> SameLeases(h, r.value) && r.value.turns == h.turns
  {
    var ended := task.(outcome := Cancelled, version := task.version + 1,
                       condition := if task.condition.RecoveryRequired? then RecoveryRequired else Ended);
    if task.sessionId.None? then Success(h.(tasks := h.tasks[task.id := ended]))
    else
      var session :- RequireSession(h.sessions, task.sessionId.value);
      Success(h.(tasks := h.tasks[task.id := ended],
                 sessions := h.sessions[session.id := Deactivate(session, task.id)]))
  }

  ghost function CancelTask(h: Home, taskId: Id, control: Control, now: nat): (r: Result<Home, Error>)
    ensures r.Success? ==> SameLeases(h, r.value) && r.value.turns == h.turns
  {
    var task :- RequireTask(h.tasks, taskId);
    if !task.outcome.Active? || CancelPending(h.controls, taskId) then Success(h)
    else
      :- Need(control.id !in h.controls, IntegrityError);
      var owned := HasLiveOwner(h.executions, taskId, now);
      var request := control.(taskId := taskId, kind := Cancel, status := if owned then Requested else Settled);
      var asked := h.(controls := h.controls[control.id := request]);
      if owned then Success(asked) else EndUnowned(asked, task)
  }

  ghost function RequestControl(h: Home, control: Control, expected: nat): (r: Result<Home, Error>)
    ensures r.Success? ==> SameLeases(h, r.value) && r.value.turns == h.turns
  {
    var task :- RequireTask(h.tasks, control.taskId);
    :- Need(task.version == expected, StaleVersion);
    :- Need(control.id !in h.controls, AlreadyExists);
    :- Need(control.executionId.None? || control.executionId.value in h.executions, IntegrityError);
    JournalTask(h.(controls := h.controls[control.id := control]), task,
                EventId("control.requested", control.id, Number(control.version)))
  }

  predicate ControlEdge(from: ControlStatus, to: ControlStatus) {
    match from
    case Requested => to.Acknowledged? || to.CleanupFailed?
    case Acknowledged => to.Settled? || to.CleanupFailed?
    case Settled => false
    case CleanupFailed => false
  }

  ghost function SettleControl(h: Home, id: Id, status: ControlStatus, expected: nat): (r: Result<Home, Error>)
    ensures r.Success? ==> SameLeases(h, r.value) && r.value.turns == h.turns
  {
    var known := id in h.controls;
    :- Need(known, NotFound);
    var control := h.controls[id];
    :- Need(control.version == expected, StaleVersion);
    :- Need(ControlEdge(control.status, status), InvalidValue);
    var moved := control.(status := status, version := control.version + 1);
    var task :- RequireTask(h.tasks, control.taskId);
    JournalTask(h.(controls := h.controls[id := moved]), task,
                EventId("control.updated", id, Number(moved.version)))
  }

  ghost function AppendEvent(h: Home, event: Event, expected: Option<nat>): (r: Result<Home, Error>)
    ensures r.Success? ==> SameLeases(h, r.value) && r.value.turns == h.turns
  {
    var session :- RequireSession(h.sessions, event.sessionId);
    if exists i :: 0 <= i < |h.events| && h.events[i].id == event.id then
      :- Need(forall i :: 0 <= i < |h.events| && h.events[i].id == event.id
                     ==> h.events[i] == event.(sequence := h.events[i].sequence), InvalidValue);
      Success(h)
    else
      :- Need(VersionMatches(session.eventSequence, expected), StaleVersion);
      :- Need(event.taskId.None? || event.taskId.value in h.tasks, IntegrityError);
      Journal(h, session, event.id, event.taskId, event.payload)
  }

  predicate NoDuplicates(ids: seq<Id>) {
    forall i, j :: 0 <= i < j < |ids| ==> ids[i] != ids[j]
  }

  /** `_validate_checkpoint_references`. */
  predicate ReferencesValid(h: Home, effects: map<Id, Effect>, c: Checkpoint, session: Session) {
    && c.eventSequence <= session.eventSequence
    && c.consumedInput <= MaxTurn(h.turns, session.id)
    && (c.turnId.Some? ==>
          exists i :: 0 <= i < |h.turns| && h.turns[i].id == c.turnId.value && h.turns[i].sessionId == session.id
                      && (h.turns[i].taskId.None? || h.turns[i].taskId == Some(c.taskId)))
    && NoDuplicates(c.pendingEffects)
    && forall e :: e in c.pendingEffects ==> e in effects && effects[e].taskId == c.taskId
  }

  ghost function CommitCheckpoint(h: Home, effects: map<Id, Effect>, c: Checkpoint, stamp: nat, expected: nat, guard: Guard, now: nat)
    : (r: Result<Home, Error>)
    ensures r.Success? ==> SameLeases(h, r.value) && r.value.turns == h.turns
  {
    var live := GuardLive(h.executions, guard, now);
    :- Need(live, LeaseLost);
    var task :- RequireTask(h.tasks, c.taskId);
    :- Need(task.version == expected, StaleVersion);
    :- Need(task.sessionId == Some(c.sessionId), InvalidValue);
    var session :- RequireSession(h.sessions, c.sessionId);
    :- Need(ReferencesValid(h, effects, c, session), InvalidValue);
    Journal(h.(checkpoints := h.checkpoints[c.taskId := c]), session,
            EventId("checkpoint.committed", c.taskId, Number(stamp)), Some(c.taskId), "")
  }
}
