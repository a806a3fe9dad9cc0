/**
 What a transaction may do to the rows around the one it is about: entries in the journal
 of the task's session and the event cursor of the task's checkpoint, written out row by row.
 */
module RowChanges {
  import opened Wrappers
  import opened StoreModel
  import opened StoreInvariants
  import opened StoreRuns
  import opened StoreLimits

  predicate InUse(status: ExecutionStatus) {
    status in {Claimed, ExecutionRunning, ExecutionWaiting, ExecutionPaused}
  }

  /** The row is the very lease the guard was issued for, it has not run out, and nobody ended it. */
  predicate Holder(x: Execution, g: Guard, now: nat) {
    && x.taskId == g.taskId && x.ownerId == g.ownerId && x.token == g.token && x.generation == g.generation
    && now < x.expiresAt && InUse(x.status)
  }

  predicate Owner(h: Home, g: Guard, now: nat) {
    g.executionId in h.executions && Holder(h.executions[g.executionId], g, now)
  }

  predicate Writer(h: Home, g: WorkspaceGuard, now: nat) {
    && g.workspaceId in h.workspaces
    && var w := h.workspaces[g.workspaceId];
       && w.executionId == g.executionId && w.ownerId == g.ownerId && w.token == g.token && w.generation == g.generation
       && now < w.expiresAt
  }

  /** The journal of the session has these entries more, and only its counter changed. */
  ghost predicate Appends(sessions: map<Id, Session>, events: seq<Event>, sessions': map<Id, Session>, events': seq<Event>,
                          k: Id, taskId: Option<Id>, ids: seq<EventId>)
  {
    && k in sessions
    && sessions' == sessions[k := sessions[k].(eventSequence := sessions[k].eventSequence + |ids|)]
    && |events'| == |events| + |ids| && events'[..|events|] == events
    && forall i :: 0 <= i < |ids| ==>
         var e := events'[|events| + i];
         && e.id == ids[i] && e.sessionId == k && e.taskId == taskId
         && e.sequence == sessions[k].eventSequence + i + 1
  }

  ghost predicate LogsOn(h: Home, h': Home, k: Id, taskId: Option<Id>, ids: seq<EventId>) {
    Appends(h.sessions, h.events, h'.sessions, h'.events, k, taskId, ids)
  }

  /** The same on the session of a task, if it has one. */
  ghost predicate Logs(h: Home, h': Home, task: Task, ids: seq<EventId>) {
    if task.sessionId.None? then h'.sessions == h.sessions && h'.events == h.events
    else LogsOn(h, h', task.sessionId.value, Some(task.id), ids)
  }

  /** The checkpoint of the task is level with its journal and no longer waits for the effect. */
  ghost predicate CursorMoved(h: Home, h': Home, task: Task, done: Option<Id>) {
    if task.sessionId.None? || task.id !in h.checkpoints then h'.checkpoints == h.checkpoints
    else
      && h'.checkpoints.Keys == h.checkpoints.Keys && task.sessionId.value in h'.sessions
      && (forall t :: t in h.checkpoints && t != task.id ==> h'.checkpoints[t] == h.checkpoints[t])
      && var c, c' := h.checkpoints[task.id], h'.checkpoints[task.id];
         && c' == c.(eventSequence := h'.sessions[task.sessionId.value].eventSequence, pendingEffects := c'.pendingEffects)
         && (forall e :: e in c'.pendingEffects <==> e in c.pendingEffects && Some(e) != done)
  }

  /** The task's session is stored under its own id. */
  ghost predicate Keyed(h: Home, task: Task) {
    task.sessionId.Some? ==> task.sessionId.value in h.sessions && h.sessions[task.sessionId.value].id == task.sessionId.value
  }

  lemma {:induction false} TaskIsKeyed(h: Home, scope: Scope, t: Id)
    requires HomeSound(h, scope) && t in h.tasks
    ensures Keyed(h, h.tasks[t]) && h.tasks[t].id == t
  {
    hide EventsNumbered, TurnsDense, CursorsBehind, EventsHoused;
    if h.tasks[t].sessionId.Some? {
      assert h.sessions[h.tasks[t].sessionId.value].id == h.tasks[t].sessionId.value;
    }
  }

  lemma {:induction false} SessionIsKeyed(h: Home, scope: Scope, k: Id)
    requires HomeSound(h, scope) && k in h.sessions
    ensures h.sessions[k].id == k
  {
    hide EventsNumbered, TurnsDense, CursorsBehind, EventsHoused;
  }

  lemma {:induction false} JournalLogs(h: Home, task: Task, id: EventId)
    requires JournalTask(h, task, id).Success? && Keyed(h, task)
    ensures Logs(h, JournalTask(h, task, id).value, task, [id])
  {
    hide EventClash;
  }

  lemma {:induction false} WithoutMembers(ids: seq<Id>, id: Id)
    ensures forall e :: e in Without(ids, id) <==> e in ids && e != id
  {
    if |ids| > 0 {
      WithoutMembers(ids[1..], id);
      assert ids == [ids[0]] + ids[1..];
    }
  }

  lemma {:induction false} CursorMoves(h: Home, told: Home, task: Task, done: Option<Id>)
    requires told.checkpoints == h.checkpoints && Keyed(told, task)
    ensures CursorMoved(h, AdvanceCursor(told, task, done), task, done)
  {
    if task.id in h.checkpoints && done.Some? {
      WithoutMembers(h.checkpoints[task.id].pendingEffects, done.value);
    }
  }

  /** A journal entry goes through exactly when its id is new. */
  lemma {:induction false} LogsIff(h: Home, task: Task, id: EventId)
    requires EventsNumbered(h.sessions, h.events) && Keyed(h, task)
    ensures JournalTask(h, task, id).Success? <==> task.sessionId.None? || !Recorded(h.events, id)
  {
    hide Recorded, EventsNumbered;
    if task.sessionId.Some? {
      FreshIdJournals(h, task, id);
    }
  }

  lemma {:induction false} LogsTwice(h: Home, mid: Home, h': Home, task: Task, a: EventId, b: EventId)
    requires Logs(h, mid, task, [a]) && Logs(mid, h', task, [b])
    ensures Logs(h, h', task, [a, b])
  {
    if task.sessionId.Some? {
      var n := |h.events|;
      assert h'.events[..n] == h'.events[..n + 1][..n];
      assert h'.events[n] == h'.events[..n + 1][n];
      assert mid.events[n + 0].id == [a][0] && h'.events[n + 1 + 0].id == [b][0];
    }
  }

  /** The same for an entry on a given session. */
  lemma {:induction false} JournalOn(h: Home, session: Session, k: Id, id: EventId, taskId: Option<Id>)
    requires k in h.sessions && session.id == k && session == h.sessions[k]
    ensures var r := Journal(h, session, id, taskId, "");
            && (EventsNumbered(h.sessions, h.events) ==> (r.Success? <==> !Recorded(h.events, id)))
            && (r.Success? ==> LogsOn(h, r.value, k, taskId, [id]))
  {
    hide EventsNumbered;
    if EventsNumbered(h.sessions, h.events) {
      NextNumberFree(h, k);
    }
  }
}
