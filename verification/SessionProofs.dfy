/** Every session, turn, task, control and checkpoint transaction keeps the session-side invariants. */
module SessionProofs {
  import opened Wrappers
  import opened StoreModel
  import opened StoreInvariants
  import opened HomeMoves
  import opened SessionSpec

  lemma {:induction false} CreateSessionHome(h: Home, session: Session, scope: Scope)
    requires HomeSound(h, scope) && (scope.hosted ==> session.activeTask.None?) && (scope.fromZero ==> session.eventSequence == 0)
    ensures KeepsHome(h, CreateSession(h, session), scope)
  {
    hide EventsNumbered, Gap, TurnsDense, CursorsBehind;
    var r := CreateSession(h, session);
    if r.Success? {
      NewSessionMove(h, session, scope);
      JournalMove(h.(sessions := h.sessions[session.id := session]), r.value, session.id, scope);
    }
  }

  lemma {:induction false} CloseSessionHome(h: Home, id: Id, expected: nat, scope: Scope)
    requires HomeSound(h, scope)
    ensures KeepsHome(h, CloseSession(h, id, expected), scope)
  {
    hide EventsNumbered, Gap, TurnsDense, CursorsBehind;
    var r := CloseSession(h, id, expected);
    if r.Success? {
      JournalMove(h, r.value, id, scope);
    }
  }

  lemma {:induction false} AppendTurnHome(h: Home, turn: Turn, expected: Option<nat>, scope: Scope)
    requires HomeSound(h, scope)
    ensures KeepsHome(h, AppendTurn(h, turn, expected), scope)
  {
    hide EventsNumbered, Gap, TurnsDense, CursorsBehind;
    var r := AppendTurn(h, turn, expected);
    if r.Success? && r.value != h {
      TurnMove(h, r.value.turns[|h.turns|], scope);
      JournalMove(h.(turns := r.value.turns), r.value, turn.sessionId, scope);
    }
  }

  lemma {:induction false} StartTaskHome(h: Home, sessionId: Id, task: Task, expected: nat, scope: Scope)
    requires HomeSound(h, scope)
    ensures KeepsHome(h, StartTask(h, sessionId, task, expected), scope)
  {
    hide EventsNumbered, Gap, TurnsDense, CursorsBehind;
    var r := StartTask(h, sessionId, task, expected);
    if r.Success? {
      NewTaskMove(h, task.(sessionId := Some(sessionId)), scope);
      JournalMove(h.(tasks := r.value.tasks), r.value, sessionId, scope);
    }
  }

  /** The row that preparation works on: the stored task, or the given one when it is new. */
  function Candidate(h: Home, task: Task): Task {
    if task.id in h.tasks then h.tasks[task.id] else task
  }

  lemma {:induction false} PrepareTaskExecutionHome(h: Home, task: Task, scope: Scope)
    requires HomeSound(h, scope)
    requires scope.live && Candidate(h, task).sessionId.None? ==> Candidate(h, task).outcome.Active?
    ensures KeepsHome(h, PrepareTaskExecution(h, task), scope)
  {
    hide EventsNumbered, Gap, TurnsDense, CursorsBehind, ActiveHosted, ActiveLive, BindToRuntimeSession;
    var r := PrepareTaskExecution(h, task);
    if r.Success? {
      var stored := if task.id in h.tasks then h else h.(tasks := h.tasks[task.id := task]);
      if task.id !in h.tasks {
        NewTaskMove(h, task, scope);
      }
      if stored.tasks[task.id].sessionId.None? {
        BindToRuntimeSessionHome(stored, task.id, scope);
        EvolvesThrough(h, stored, r.value, scope);
      }
    }
  }

  lemma {:induction false} BindToRuntimeSessionHome(h: Home, t: Id, scope: Scope)
    requires HomeSound(h, scope) && t in h.tasks && h.tasks[t].sessionId.None? && (scope.live ==> h.tasks[t].outcome.Active?)
    ensures KeepsHome(h, BindToRuntimeSession(h, h.tasks[t]), scope)
  {
    hide EventsNumbered, Gap, TurnsDense, CursorsBehind, ActiveHosted, ActiveLive, TasksEvolve;
    var task, k := h.tasks[t], RuntimeSessionId(t);
    var session := if k !in h.sessions then Session(k, task.repository, Open, Some(t), "1", 1, 0)
                   else if h.sessions[k].activeTask == Some(t) then h.sessions[k]
                   else h.sessions[k].(activeTask := Some(t), version := h.sessions[k].version + 1);
    BindHome(h, t, session, scope);
    var bound := task.(sessionId := Some(k), version := task.version + 1);
    var h' := h.(tasks := h.tasks[t := bound], sessions := h.sessions[k := session]);
    if k in h.sessions && h.sessions[k].activeTask == Some(t) {
      assert h'.sessions == h.sessions;
    }
    var r := BindToRuntimeSession(h, task);
    assert r.Success? ==> r == Success(h');
  }

  /** An unbound active task and its runtime session are tied to each other. */
  lemma {:induction false} BindHome(h: Home, t: Id, session: Session, scope: Scope)
    requires HomeSound(h, scope) && t in h.tasks && h.tasks[t].sessionId.None? && (scope.live ==> h.tasks[t].outcome.Active?)
    requires session.id == RuntimeSessionId(t) && session.activeTask == Some(t)
    requires session.eventSequence == (if session.id in h.sessions then h.sessions[session.id].eventSequence else 0)
    ensures var bound := h.tasks[t].(sessionId := Some(session.id), version := h.tasks[t].version + 1);
            var h' := h.(tasks := h.tasks[t := bound], sessions := h.sessions[session.id := session]);
            HomeSound(h', scope) && HomeEvolves(h, h', scope)
  {
    hide EventsNumbered, Gap, TurnsDense, CursorsBehind;
    var k := session.id;
    var housed := h;
    if k !in h.sessions {
      NewSessionMove(h, session.(activeTask := None), scope);
      housed := h.(sessions := h.sessions[k := session.(activeTask := None)]);
    }
    var bound := h.tasks[t].(sessionId := Some(k), version := h.tasks[t].version + 1);
    TaskMove(housed, t, bound, scope);
    SessionMove(housed.(tasks := h.tasks[t := bound]), k, session, scope);
    assert housed.sessions[k := session] == h.sessions[k := session];
  }

  lemma {:induction false} CreateTaskHome(h: Home, task: Task, scope: Scope)
    requires HomeSound(h, scope)
    ensures KeepsHome(h, CreateTask(h, task), scope)
  {
    hide EventsNumbered, Gap, TurnsDense, CursorsBehind;
    var r := CreateTask(h, task);
    if r.Success? {
      NewTaskMove(h, task, scope);
      if task.sessionId.Some? {
        JournalMove(h.(tasks := r.value.tasks), r.value, task.sessionId.value, scope);
      }
    }
  }

  lemma {:induction false} UpdateTaskHome(h: Home, task: Task, expected: nat, guard: Option<Guard>, now: nat, scope: Scope)
    requires HomeSound(h, scope)
    ensures KeepsHome(h, UpdateTask(h, task, expected, guard, now), scope)
  {
    hide EventsNumbered, Gap, TurnsDense, CursorsBehind;
    var r := UpdateTask(h, task, expected, guard, now);
    if r.Success? {
      var told := h.(sessions := r.value.sessions, events := r.value.events);
      if task.sessionId.Some? {
        JournalMove(h, told, task.sessionId.value, scope);
      }
      TaskMove(told, task.id, r.value.tasks[task.id], scope);
    }
  }

  lemma {:induction false} CancelTaskHome(h: Home, taskId: Id, control: Control, now: nat, scope: Scope)
    requires HomeSound(h, scope)
    ensures KeepsHome(h, CancelTask(h, taskId, control, now), scope)
  {
    hide EventsNumbered, Gap, TurnsDense, CursorsBehind, ActiveHosted, ActiveLive, HasLiveOwner, CancelPending, EndUnowned;
    if taskId in h.tasks && h.tasks[taskId].outcome.Active? {
      var asked := h.(controls := h.controls[control.id := control.(taskId := taskId, kind := Cancel, status := Settled)]);
      EndUnownedHome(asked, taskId, scope);
    }
  }

  /** The task ends and its session, if it was active there, lets go of it. */
  lemma {:induction false} EndUnownedHome(h: Home, t: Id, scope: Scope)
    requires HomeSound(h, scope) && t in h.tasks && h.tasks[t].outcome.Active?
    ensures KeepsHome(h, EndUnowned(h, h.tasks[t]), scope)
  {
    hide EventsNumbered, Gap, TurnsDense, CursorsBehind;
    var task := h.tasks[t];
    var ended := task.(outcome := Cancelled, version := task.version + 1,
                       condition := if task.condition.RecoveryRequired? then RecoveryRequired else Ended);
    if task.sessionId.None? {
      TaskMove(h, t, ended, scope);
    } else {
      var k := task.sessionId.value;
      var freed := Deactivate(h.sessions[k], t);
      SessionMove(h, k, freed, scope);
      var told := h.(sessions := h.sessions[k := freed]);
      TaskMove(told, t, ended, scope);
      var h' := told.(tasks := told.tasks[t := ended]);
      assert EndUnowned(h, task) == Success(h');
      assert HomeSound(h', scope) && HomeEvolves(h, h', scope);
    }
  }

  /** Only a control row and the journal of the task's session changed. */
  lemma {:induction false} ControlHome(h: Home, h': Home, t: Id, scope: Scope)
    requires HomeSound(h, scope) && t in h.tasks && h' == h.(controls := h'.controls, sessions := h'.sessions, events := h'.events)
    requires if h.tasks[t].sessionId.None? then h'.sessions == h.sessions && h'.events == h.events
             else var k := h.tasks[t].sessionId.value;
                  && Journaled(h, h', k)
                  && h'.sessions[k] == h.sessions[k].(eventSequence := h'.sessions[k].eventSequence)
    ensures HomeSound(h', scope) && HomeEvolves(h, h', scope)
  {
    hide EventsNumbered, Gap, TurnsDense, CursorsBehind;
    if h.tasks[t].sessionId.Some? {
      JournalMove(h.(controls := h'.controls), h', h.tasks[t].sessionId.value, scope);
    }
  }

  lemma {:induction false} RequestControlHome(h: Home, control: Control, expected: nat, scope: Scope)
    requires HomeSound(h, scope)
    ensures KeepsHome(h, RequestControl(h, control, expected), scope)
  {
    hide EventsNumbered, Gap, TurnsDense, CursorsBehind, ActiveHosted, ActiveLive, TasksEvolve;
    var r := RequestControl(h, control, expected);
    if r.Success? {
      ControlHome(h, r.value, control.taskId, scope);
    }
  }

  lemma {:induction false} SettleControlHome(h: Home, id: Id, status: ControlStatus, expected: nat, scope: Scope)
    requires HomeSound(h, scope)
    ensures KeepsHome(h, SettleControl(h, id, status, expected), scope)
  {
    hide EventsNumbered, Gap, TurnsDense, CursorsBehind, ActiveHosted, ActiveLive, TasksEvolve;
    var r := SettleControl(h, id, status, expected);
    if r.Success? {
      ControlHome(h, r.value, h.controls[id].taskId, scope);
    }
  }

  lemma {:induction false} AppendEventHome(h: Home, event: Event, expected: Option<nat>, scope: Scope)
    requires HomeSound(h, scope)
    ensures KeepsHome(h, AppendEvent(h, event, expected), scope)
  {
    hide EventsNumbered, Gap, TurnsDense, CursorsBehind;
    var r := AppendEvent(h, event, expected);
    if r.Success? && r.value != h {
      JournalMove(h, r.value, event.sessionId, scope);
    }
  }

  lemma {:induction false} CommitCheckpointHome(h: Home, effects: map<Id, Effect>, c: Checkpoint, stamp: nat, expected: nat, guard: Guard, now: nat, scope: Scope)
    requires HomeSound(h, scope)
    ensures KeepsHome(h, CommitCheckpoint(h, effects, c, stamp, expected, guard, now), scope)
  {
    hide EventsNumbered, Gap, CursorsBehind;
    var r := CommitCheckpoint(h, effects, c, stamp, expected, guard, now);
    if r.Success? {
      MaxTurnIsCount(h.turns, c.sessionId);
      CheckpointMove(h, c.taskId, c, scope);
      JournalMove(h.(checkpoints := r.value.checkpoints), r.value, c.sessionId, scope);
    }
  }
}
