/**
 The single-table moves that the transactions are composed of, each shown once
 to keep the session-side invariants.
 */
module HomeMoves {
  import opened Wrappers
  import opened StoreModel
  import opened StoreInvariants

  /** The session's active task, if any, is stored, bound to it and active, as far as the scope asks. */
  predicate Hosts(tasks: map<Id, Task>, session: Session, scope: Scope) {
    session.activeTask.Some? ==>
      var t := session.activeTask.value;
      && t in tasks && (scope.hosted ==> tasks[t].sessionId == Some(session.id))
      && (scope.live && tasks[t].sessionId == Some(session.id) ==> tasks[t].outcome.Active?)
  }

  lemma {:induction false} JournalMove(h: Home, h': Home, k: Id, scope: Scope)
    requires HomeSound(h, scope) && Journaled(h, h', k) && h' == h.(sessions := h'.sessions, events := h'.events)
    requires h'.sessions[k].id == k && Hosts(h.tasks, h'.sessions[k], scope)
    ensures HomeSound(h', scope) && HomeEvolves(h, h', scope)
  {
    hide SessionEvents, SessionTurns, EventsNumbered, Gap;
    JournaledKeepsNumbered(h, h', k);
  }

  lemma {:induction false} SessionMove(h: Home, k: Id, session: Session, scope: Scope)
    requires HomeSound(h, scope) && k in h.sessions && session.id == k && session.eventSequence == h.sessions[k].eventSequence
    requires Hosts(h.tasks, session, scope)
    ensures var h' := h.(sessions := h.sessions[k := session]); HomeSound(h', scope) && HomeEvolves(h, h', scope)
  {
    hide SessionEvents, SessionTurns;
    var h' := h.(sessions := h.sessions[k := session]);
    assert EventsNumbered(h'.sessions, h'.events);
  }

  lemma {:induction false} NewSessionMove(h: Home, session: Session, scope: Scope)
    requires HomeSound(h, scope) && session.id !in h.sessions && (scope.fromZero ==> session.eventSequence == 0) && Hosts(h.tasks, session, scope)
    ensures var h' := h.(sessions := h.sessions[session.id := session]); HomeSound(h', scope) && HomeEvolves(h, h', scope)
  {
    hide SessionEvents, SessionTurns;
    NoEventsYet(h.events, session.id);
    NoTurnsYet(h.turns, session.id);
    var h' := h.(sessions := h.sessions[session.id := session]);
    assert EventsNumbered(h'.sessions, h'.events);
    assert TurnsDense(h'.sessions, h'.turns);
  }

  lemma {:induction false} NewTaskMove(h: Home, task: Task, scope: Scope)
    requires HomeSound(h, scope) && task.id !in h.tasks && (task.sessionId.Some? ==> task.sessionId.value in h.sessions)
    ensures var h' := h.(tasks := h.tasks[task.id := task]); HomeSound(h', scope) && HomeEvolves(h, h', scope)
  {
    hide EventsNumbered, TurnsDense;
  }

  /** A rewritten task keeps its binding and may end only when no session has it active. */
  lemma {:induction false} TaskMove(h: Home, t: Id, task: Task, scope: Scope)
    requires HomeSound(h, scope) && t in h.tasks && task.id == t && (task == h.tasks[t] || task.version > h.tasks[t].version)
    requires h.tasks[t].sessionId.Some? ==> task.sessionId == h.tasks[t].sessionId
    requires task.sessionId.Some? ==> task.sessionId.value in h.sessions
    requires !h.tasks[t].outcome.Active? ==> task.outcome == h.tasks[t].outcome || task.outcome.Cancelled?
    requires scope.live ==>
               || task.outcome.Active? || task.sessionId.None? || h.sessions[task.sessionId.value].activeTask != Some(t)
               || (h.tasks[t].sessionId.Some? && !h.tasks[t].outcome.Active?)
    ensures var h' := h.(tasks := h.tasks[t := task]); HomeSound(h', scope) && HomeEvolves(h, h', scope)
  {
    hide EventsNumbered, TurnsDense;
    var h' := h.(tasks := h.tasks[t := task]);
    assert Bound(h'.sessions, h'.tasks, h'.executions);
    assert scope.hosted ==> ActiveHosted(h'.sessions, h'.tasks);
    assert scope.live ==> ActiveLive(h'.sessions, h'.tasks);
    assert CursorsBehind(h'.checkpoints, h'.tasks, h'.sessions, h'.turns);
  }

  lemma {:induction false} ExecutionsMove(h: Home, executions: map<Id, Execution>, scope: Scope)
    requires HomeSound(h, scope)
    requires forall x {:trigger executions[x]} :: x in executions ==>
      executions[x].taskId in h.tasks && h.tasks[executions[x].taskId].sessionId == Some(executions[x].sessionId)
    ensures var h' := h.(executions := executions); HomeSound(h', scope) && HomeEvolves(h, h', scope)
  {
  }

  lemma {:induction false} CheckpointMove(h: Home, t: Id, c: Checkpoint, scope: Scope)
    requires HomeSound(h, scope) && t in h.tasks && c.taskId == t && h.tasks[t].sessionId == Some(c.sessionId)
    requires c.sessionId in h.sessions && c.eventSequence <= h.sessions[c.sessionId].eventSequence
    requires c.consumedInput <= |SessionTurns(h.turns, c.sessionId)|
    ensures var h' := h.(checkpoints := h.checkpoints[t := c]); HomeSound(h', scope) && HomeEvolves(h, h', scope)
  {
  }

  lemma {:induction false} CursorMove(h: Home, task: Task, completed: Option<Id>, scope: Scope)
    requires HomeSound(h, scope) && task.id in h.tasks && h.tasks[task.id].sessionId == task.sessionId
    ensures HomeSound(AdvanceCursor(h, task, completed), scope) && HomeEvolves(h, AdvanceCursor(h, task, completed), scope)
  {
    hide EventsNumbered, TurnsDense, ActiveHosted, ActiveLive;
  }

  lemma {:induction false} TurnMove(h: Home, turn: Turn, scope: Scope)
    requires HomeSound(h, scope) && turn.sessionId in h.sessions && turn.sequence == MaxTurn(h.turns, turn.sessionId) + 1
    ensures var h' := h.(turns := h.turns + [turn]); HomeSound(h', scope) && HomeEvolves(h, h', scope)
  {
    var h' := h.(turns := h.turns + [turn]);
    MaxTurnIsCount(h.turns, turn.sessionId);
    forall j | j in h.sessions
      ensures TurnsNumbered(SessionTurns(h'.turns, j))
    {
      SessionTurnsAppend(h.turns, turn, j);
    }
    forall t | t in h.checkpoints
      ensures h.checkpoints[t].consumedInput <= |SessionTurns(h'.turns, h.checkpoints[t].sessionId)|
    {
      SessionTurnsAppend(h.turns, turn, h.checkpoints[t].sessionId);
    }
  }

  lemma {:induction false} EvolvesThrough(h: Home, m: Home, h': Home, scope: Scope)
    requires HomeEvolves(h, m, scope) && HomeEvolves(m, h', scope)
    ensures HomeEvolves(h, h', scope)
  {
  }
}
