/**
 What the session, turn, task, control and checkpoint transactions leave in the tables,
 row by row.
 */
module SessionOutcomes {
  import opened Wrappers
  import opened StoreModel
  import opened StoreInvariants
  import opened SessionSpec
  import opened StoreRuns
  import opened StoreLimits
  import opened RowChanges
  import opened EffectOutcomes

  /** The session row is replaced by this one, with one more event on its counter and that event in the journal. */
  ghost predicate Tells(h: Home, h': Home, session: Session, id: EventId, taskId: Option<Id>) {
    && h'.sessions == h.sessions[session.id := session.(eventSequence := session.eventSequence + 1)]
    && h'.events == h.events + [Event(id, session.id, taskId, "", session.eventSequence + 1)]
  }

  // ------------------------------------------------------------------- sessions

  lemma {:induction false} CreateSessionOutcome(h: Home, session: Session)
    requires CreateSession(h, session).Success?
    ensures var h' := CreateSession(h, session).value;
            && session.id !in h.sessions && (session.activeTask.Some? ==> session.activeTask.value in h.tasks)
            && h' == h.(sessions := h'.sessions, events := h'.events)
            && Tells(h, h', session, EventId("session.created", session.id, Number(session.version)), None)
  {
    hide EventClash;
  }

  lemma {:induction false} CloseSessionOutcome(h: Home, id: Id, expected: nat)
    requires HomeSound(h, ALWAYS) && CloseSession(h, id, expected).Success?
    ensures var h' := CloseSession(h, id, expected).value;
            && id in h.sessions && h.sessions[id].activeTask.None? && h.sessions[id].version == expected
            && h' == h.(sessions := h'.sessions, events := h'.events)
            && Tells(h, h', h.sessions[id].(status := Closed, version := expected + 1),
                     EventId("session.closed", id, Number(expected + 1)), None)
  {
    hide HomeSound, EventClash;
    SessionIsKeyed(h, ALWAYS, id);
  }

  // ---------------------------------------------------------------------- turns

  /** A new turn is the last of its open session, numbered by their count, and belongs to a task of that session. */
  lemma {:induction false} AppendTurnOutcome(h: Home, turn: Turn, expected: Option<nat>)
    requires HomeSound(h, ALWAYS) && AppendTurn(h, turn, expected).Success?
    requires turn.submissionId.Some? ==>
               forall i :: 0 <= i < |h.turns| ==> h.turns[i].sessionId != turn.sessionId || h.turns[i].submissionId != turn.submissionId
    ensures var h' := AppendTurn(h, turn, expected).value;
            && turn.sessionId in h.sessions
            && var session := h.sessions[turn.sessionId];
               var task := if turn.taskId.Some? then turn.taskId else session.activeTask;
               var number := |SessionTurns(h.turns, turn.sessionId)| + 1;
               && session.status.Open? && (expected.Some? ==> session.version == expected.value)
               && (turn.taskId.Some? ==> turn.taskId.value in h.tasks && h.tasks[turn.taskId.value].sessionId == Some(turn.sessionId))
               && (forall i :: 0 <= i < |h.turns| ==> h.turns[i].id != turn.id)
               && h'.turns == h.turns + [turn.(sequence := number, taskId := task)]
               && Tells(h, h', session.(version := session.version + 1), EventId("turn.appended", turn.id, Number(number)), task)
               && h' == h.(sessions := h'.sessions, events := h'.events, turns := h'.turns)
  {
    hide HomeSound, EventClash, MaxTurn, SessionTurns, Repeats, Readable;
    SessionIsKeyed(h, ALWAYS, turn.sessionId);
    TurnsCounted(h, turn.sessionId);
  }

  // ---------------------------------------------------------------------- tasks

  /** A started task is bound to its session, which had none active and takes it as its active one. */
  lemma {:induction false} StartTaskOutcome(h: Home, id: Id, task: Task, expected: nat)
    requires HomeSound(h, ALWAYS) && StartTask(h, id, task, expected).Success?
    ensures var h' := StartTask(h, id, task, expected).value;
            && id in h.sessions && task.id !in h.tasks && task.outcome.Active?
            && var session := h.sessions[id];
               && session.status.Open? && session.version == expected && session.activeTask.None?
               && h'.tasks == h.tasks[task.id := task.(sessionId := Some(id))]
               && Tells(h, h', session.(activeTask := Some(task.id), version := expected + 1),
                        EventId("task.started", task.id, Number(task.version)), Some(task.id))
               && h' == h.(sessions := h'.sessions, events := h'.events, tasks := h'.tasks)
  {
    hide HomeSound, EventClash, Readable;
    SessionIsKeyed(h, ALWAYS, id);
  }

  /** A prepared task is stored, bound, and the active task of an existing session. */
  lemma {:induction false} PrepareTaskExecutionOutcome(h: Home, task: Task)
    requires HomeSound(h, ALWAYS) && PrepareTaskExecution(h, task).Success?
    ensures var h' := PrepareTaskExecution(h, task).value;
            var t := if task.id in h.tasks then h.tasks[task.id] else task;
            && h' == h.(tasks := h'.tasks, sessions := h'.sessions)
            && if t.sessionId.Some? then
                 && h'.tasks == h.tasks[task.id := t] && h'.sessions == h.sessions
                 && t.sessionId.value in h.sessions && h.sessions[t.sessionId.value].activeTask == Some(task.id)
               else
                 var sid := RuntimeSessionId(task.id);
                 && h'.tasks == h.tasks[task.id := t.(sessionId := Some(sid), version := t.version + 1)]
                 && sid in h'.sessions && h'.sessions == h.sessions[sid := h'.sessions[sid]]
                 && h'.sessions[sid].activeTask == Some(task.id)
                 && (sid !in h.sessions ==> h'.sessions[sid] == Session(sid, t.repository, Open, Some(task.id), "1", 1, 0))
                 && (sid in h.sessions && h.sessions[sid].activeTask.Some? ==> h'.sessions == h.sessions)
                 && (sid in h.sessions && h.sessions[sid].activeTask.None? ==>
                       h'.sessions[sid] == h.sessions[sid].(activeTask := Some(task.id), version := h.sessions[sid].version + 1))
  {
    hide HomeSound, Readable, BindToRuntimeSession;
    if task.id in h.tasks {
      TaskIsKeyed(h, ALWAYS, task.id);
      assert h.tasks[task.id := h.tasks[task.id]] == h.tasks;
    }
    var t := if task.id in h.tasks then h.tasks[task.id] else task;
    if t.sessionId.None? {
      BindOutcome(h.(tasks := h.tasks[task.id := t]), t);
    }
  }

  /** An unbound task is bound to its runtime session, made or taken over when that has no active task. */
  lemma {:induction false} BindOutcome(h: Home, t: Task)
    requires BindToRuntimeSession(h, t).Success?
    ensures var h' := BindToRuntimeSession(h, t).value;
            var sid := RuntimeSessionId(t.id);
            && h'.tasks == h.tasks[t.id := t.(sessionId := Some(sid), version := t.version + 1)]
            && h' == h.(tasks := h'.tasks, sessions := h'.sessions)
            && sid in h'.sessions && h'.sessions == h.sessions[sid := h'.sessions[sid]]
            && h'.sessions[sid].activeTask == Some(t.id)
            && (sid !in h.sessions ==> h'.sessions[sid] == Session(sid, t.repository, Open, Some(t.id), "1", 1, 0))
            && (sid in h.sessions && h.sessions[sid].activeTask.Some? ==> h'.sessions == h.sessions)
            && (sid in h.sessions && h.sessions[sid].activeTask.None? ==>
                  h'.sessions[sid] == h.sessions[sid].(activeTask := Some(t.id), version := h.sessions[sid].version + 1))
  {
  }

  lemma {:induction false} CreateTaskOutcome(h: Home, task: Task)
    requires HomeSound(h, ALWAYS) && CreateTask(h, task).Success?
    ensures var h' := CreateTask(h, task).value;
            && task.id !in h.tasks && h'.tasks == h.tasks[task.id := task]
            && h' == h.(sessions := h'.sessions, events := h'.events, tasks := h'.tasks)
            && Logs(h, h', task, [EventId("task.created", task.id, Number(task.version))])
  {
    hide HomeSound, JournalTask, Logs, Readable;
    var next := h.(tasks := h.tasks[task.id := task]);
    if task.sessionId.Some? {
      SessionIsKeyed(h, ALWAYS, task.sessionId.value);
    }
    var id := EventId("task.created", task.id, Number(task.version));
    JournalLogs(next, task, id);
    LogsFrom(h, next, CreateTask(h, task).value, task, [id], None);
  }

  /** The session without the task, if it was its active one. */
  function LetGo(session: Session, taskId: Id): Session {
    if session.activeTask == Some(taskId) then session.(activeTask := None, version := session.version + 1) else session
  }

  /**
   The task is what the caller wrote, at the next version: never moved to another session, never
   given another outcome once it has one, never taken out of recovery. An ended task is let go.
   */
  lemma {:induction false} UpdateTaskOutcome(h: Home, task: Task, expected: nat, guard: Option<Guard>, now: nat)
    requires HomeSound(h, ALWAYS) && UpdateTask(h, task, expected, guard, now).Success?
    ensures var h' := UpdateTask(h, task, expected, guard, now).value;
            && task.id in h.tasks
            && var was := h.tasks[task.id];
               && was.version == expected && was.sessionId == task.sessionId
               && (!was.outcome.Active? ==> task.outcome == was.outcome)
               && (was.condition.RecoveryRequired? ==> task.condition.RecoveryRequired?)
               && (was.sessionId.Some? ==> guard.Some? && Owner(h, guard.value, now))
               && h'.tasks == h.tasks[task.id := task.(version := expected + 1)]
               && h' == h.(sessions := h'.sessions, events := h'.events, tasks := h'.tasks)
               && if task.sessionId.None? then h'.sessions == h.sessions && h'.events == h.events
                  else
                    && task.sessionId.value in h.sessions
                    && var session := h.sessions[task.sessionId.value];
                       Tells(h, h', if task.outcome.Active? then session else LetGo(session, task.id),
                             EventId("task.updated", task.id, Number(expected + 1)), Some(task.id))
  {
    hide HomeSound, EventClash, Readable, GuardLive, Owner;
    if guard.Some? {
      OwnerIff(h, guard.value, now);
    }
  }

  /** The task's newest lease in use has not run out. */
  ghost predicate Owned(h: Home, taskId: Id, now: nat) {
    exists x :: x in h.executions && h.executions[x].taskId == taskId && InUse(h.executions[x].status)
                && now < h.executions[x].expiresAt
                && forall y :: y in h.executions && h.executions[y].taskId == taskId && InUse(h.executions[y].status)
                         ==> h.executions[y].generation <= h.executions[x].generation
  }

  /** Someone already asked for the task to be cancelled. */
  ghost predicate AskedToStop(h: Home, taskId: Id) {
    exists c :: c in h.controls && h.controls[c].taskId == taskId && h.controls[c].kind.Cancel?
                && (h.controls[c].status.Requested? || h.controls[c].status.Acknowledged?)
  }

  lemma {:induction false} OwnedIff(h: Home, taskId: Id, now: nat)
    ensures Owned(h, taskId, now) <==> HasLiveOwner(h.executions, taskId, now)
  {
    assert forall x :: x in h.executions ==> (InUse(h.executions[x].status) <==> IsActive(h.executions[x].status));
  }

  /** Cancelling asks the owner of a running task, and ends a task nobody owns at once. */
  lemma {:induction false} CancelTaskOutcome(h: Home, taskId: Id, control: Control, now: nat)
    requires HomeSound(h, ALWAYS) && CancelTask(h, taskId, control, now).Success?
    ensures var h' := CancelTask(h, taskId, control, now).value;
            && taskId in h.tasks
            && var task := h.tasks[taskId];
               if !task.outcome.Active? || AskedToStop(h, taskId) then h' == h
               else
                 var asked := control.(taskId := taskId, kind := Cancel);
                 && control.id !in h.controls
                 && h' == h.(controls := h'.controls, tasks := h'.tasks, sessions := h'.sessions)
                 && if Owned(h, taskId, now) then
                      && h'.controls == h.controls[control.id := asked.(status := Requested)]
                      && h'.tasks == h.tasks && h'.sessions == h.sessions
                    else
                      && h'.controls == h.controls[control.id := asked.(status := Settled)]
                      && h'.tasks == h.tasks[taskId := task.(outcome := Cancelled, version := task.version + 1,
                           condition := if task.condition.RecoveryRequired? then RecoveryRequired else Ended)]
                      && (task.sessionId.None? ==> h'.sessions == h.sessions)
                      && (task.sessionId.Some? ==>
                            && task.sessionId.value in h.sessions
                            && h'.sessions == h.sessions[task.sessionId.value := LetGo(h.sessions[task.sessionId.value], taskId)])
  {
    hide HomeSound, Readable, HasLiveOwner, Owned;
    TaskIsKeyed(h, ALWAYS, taskId);
    OwnedIff(h, taskId, now);
  }

  // ------------------------------------------------------------------- controls

  lemma {:induction false} RequestControlOutcome(h: Home, control: Control, expected: nat)
    requires HomeSound(h, ALWAYS) && RequestControl(h, control, expected).Success?
    ensures var h' := RequestControl(h, control, expected).value;
            && control.taskId in h.tasks && h.tasks[control.taskId].version == expected && control.id !in h.controls
            && (control.executionId.Some? ==> control.executionId.value in h.executions)
            && h'.controls == h.controls[control.id := control]
            && h' == h.(sessions := h'.sessions, events := h'.events, controls := h'.controls)
            && Logs(h, h', h.tasks[control.taskId], [EventId("control.requested", control.id, Number(control.version))])
  {
    hide HomeSound, JournalTask, Logs, Readable, Keyed;
    var next, task := h.(controls := h.controls[control.id := control]), h.tasks[control.taskId];
    TaskIsKeyed(h, ALWAYS, control.taskId);
    SameKeyed(h, next, task);
    var id := EventId("control.requested", control.id, Number(control.version));
    JournalLogs(next, task, id);
    LogsFrom(h, next, RequestControl(h, control, expected).value, task, [id], None);
  }

  /** A request is acknowledged, then settled; its cleanup may fail on the way; a closed one is not touched again. */
  lemma {:induction false} SettleControlOutcome(h: Home, id: Id, status: ControlStatus, expected: nat)
    requires HomeSound(h, ALWAYS) && SettleControl(h, id, status, expected).Success?
    ensures var h' := SettleControl(h, id, status, expected).value;
            && id in h.controls && h.controls[id].taskId in h.tasks
            && var c := h.controls[id];
               && c.version == expected
               && (c.status, status) in {(Requested, Acknowledged), (Requested, CleanupFailed),
                                         (Acknowledged, ControlStatus.Settled), (Acknowledged, CleanupFailed)}
               && h'.controls == h.controls[id := c.(status := status, version := expected + 1)]
               && h' == h.(sessions := h'.sessions, events := h'.events, controls := h'.controls)
               && Logs(h, h', h.tasks[c.taskId], [EventId("control.updated", id, Number(expected + 1))])
  {
    hide HomeSound, JournalTask, Logs, Readable, Keyed;
    var c := h.controls[id];
    var next, task := h.(controls := h.controls[id := c.(status := status, version := c.version + 1)]), h.tasks[c.taskId];
    TaskIsKeyed(h, ALWAYS, c.taskId);
    SameKeyed(h, next, task);
    var name := EventId("control.updated", id, Number(expected + 1));
    JournalLogs(next, task, name);
    LogsFrom(h, next, SettleControl(h, id, status, expected).value, task, [name], None);
  }

  // --------------------------------------------------------- events, checkpoints

  /** An event is appended under the next number, or it is already there and nothing happens. */
  lemma {:induction false} AppendEventOutcome(h: Home, event: Event, expected: Option<nat>)
    requires HomeSound(h, ALWAYS) && AppendEvent(h, event, expected).Success?
    ensures var h' := AppendEvent(h, event, expected).value;
            && event.sessionId in h.sessions
            && var n := h.sessions[event.sessionId].eventSequence;
               if Recorded(h.events, event.id) then
                 h' == h && forall i :: 0 <= i < |h.events| && h.events[i].id == event.id ==>
                                          h.events[i] == event.(sequence := h.events[i].sequence)
               else
                 && (expected.Some? ==> n == expected.value) && (event.taskId.Some? ==> event.taskId.value in h.tasks)
                 && h'.events == h.events + [event.(sequence := n + 1)]
                 && h'.sessions == h.sessions[event.sessionId := h.sessions[event.sessionId].(eventSequence := n + 1)]
                 && h' == h.(sessions := h'.sessions, events := h'.events)
  {
    hide HomeSound, EventClash;
    SessionIsKeyed(h, ALWAYS, event.sessionId);
  }

  /**
   The owner's checkpoint replaces the task's old one. It is in the task's session, not ahead of its
   turns and events, points to a turn of that session, and waits for distinct effects of the task.
   */
  lemma {:induction false} CommitCheckpointOutcome(h: Home, effects: map<Id, Effect>, c: Checkpoint, stamp: nat, expected: nat,
                                                   g: Guard, now: nat)
    requires HomeSound(h, ALWAYS) && CommitCheckpoint(h, effects, c, stamp, expected, g, now).Success?
    ensures var h' := CommitCheckpoint(h, effects, c, stamp, expected, g, now).value;
            && Owner(h, g, now) && c.taskId in h.tasks && c.sessionId in h.sessions
            && h.tasks[c.taskId].version == expected && h.tasks[c.taskId].sessionId == Some(c.sessionId)
            && c.eventSequence <= h.sessions[c.sessionId].eventSequence
            && c.consumedInput <= |SessionTurns(h.turns, c.sessionId)|
            && (c.turnId.Some? ==>
                  exists i :: 0 <= i < |h.turns| && h.turns[i].id == c.turnId.value && h.turns[i].sessionId == c.sessionId
                              && (h.turns[i].taskId.Some? ==> h.turns[i].taskId.value == c.taskId))
            && (forall i, j :: 0 <= i < j < |c.pendingEffects| ==> c.pendingEffects[i] != c.pendingEffects[j])
            && (forall e :: e in c.pendingEffects ==> e in effects && effects[e].taskId == c.taskId)
            && h'.checkpoints == h.checkpoints[c.taskId := c]
            && Tells(h, h', h.sessions[c.sessionId], EventId("checkpoint.committed", c.taskId, Number(stamp)), Some(c.taskId))
            && h' == h.(sessions := h'.sessions, events := h'.events, checkpoints := h'.checkpoints)
  {
    hide HomeSound, EventClash, Readable, GuardLive, MaxTurn, SessionTurns;
    OwnerIff(h, g, now);
    SessionIsKeyed(h, ALWAYS, c.sessionId);
    TurnsCounted(h, c.sessionId);
  }
}
