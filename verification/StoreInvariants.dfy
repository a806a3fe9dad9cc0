/**
 What every committed state satisfies (`Inv`) and what every transaction does to
 the rows that already exist (`Evolves`).
 */
module StoreInvariants {
  import opened Wrappers
  import opened StoreModel

  // -------------------------------------------------------- state invariants

  /** An approval belongs to a stored effect, and an effect has at most one. */
  ghost predicate ApprovalsUnique(effects: map<Id, Effect>, approvals: map<Id, Approval>) {
    && (forall e :: e in effects ==> effects[e].id == e)
    && (forall a :: a in approvals ==> approvals[a].id == a && approvals[a].effectId in effects)
    && (forall a, b :: a in approvals && b in approvals && approvals[a].effectId == approvals[b].effectId ==> a == b)
  }

  /** An undecided approval points to a waiting effect that points back to it. */
  ghost predicate PendingBacked(effects: map<Id, Effect>, approvals: map<Id, Approval>) {
    forall a :: a in approvals && approvals[a].status.Pending? ==>
      && approvals[a].effectId in effects
      && effects[approvals[a].effectId].status.EffectWaiting?
      && effects[approvals[a].effectId].approvalId == Some(a)
  }

  /** One owner per session and per task, holding the newest generation of its task. */
  ghost predicate LeasesExclusive(executions: map<Id, Execution>) {
    && (forall x :: x in executions ==> executions[x].id == x)
    && (forall x, y {:trigger executions[x], executions[y]} :: x in executions && y in executions && x != y ==>
          && executions[x].token != executions[y].token
          && (executions[x].taskId == executions[y].taskId ==>
                && executions[x].generation != executions[y].generation
                && (IsActive(executions[x].status) ==>
                      !IsActive(executions[y].status) && executions[y].generation < executions[x].generation))
          && (IsActive(executions[x].status) && IsActive(executions[y].status) ==>
                executions[x].sessionId != executions[y].sessionId))
  }

  /** Sessions, executions and tasks refer to stored rows, executions to a task of their own session. */
  ghost predicate Bound(sessions: map<Id, Session>, tasks: map<Id, Task>, executions: map<Id, Execution>) {
    && (forall k {:trigger sessions[k]} :: k in sessions ==>
          sessions[k].id == k && (sessions[k].activeTask.Some? ==> sessions[k].activeTask.value in tasks))
    && (forall t {:trigger tasks[t]} :: t in tasks ==>
          tasks[t].id == t && (tasks[t].sessionId.Some? ==> tasks[t].sessionId.value in sessions))
    && (forall x {:trigger executions[x]} :: x in executions ==>
          && executions[x].taskId in tasks
          && tasks[executions[x].taskId].sessionId == Some(executions[x].sessionId))
  }

  /** The active task of a session is bound to it. */
  ghost predicate ActiveHosted(sessions: map<Id, Session>, tasks: map<Id, Task>) {
    forall k {:trigger sessions[k]} :: k in sessions && sessions[k].activeTask.Some? ==>
      sessions[k].activeTask.value in tasks && tasks[sessions[k].activeTask.value].sessionId == Some(k)
  }

  /** The active task of a session, when it is bound to it, has no terminal outcome. */
  ghost predicate ActiveLive(sessions: map<Id, Session>, tasks: map<Id, Task>) {
    forall k {:trigger sessions[k]} :: k in sessions && sessions[k].activeTask.Some? ==>
      var t := sessions[k].activeTask.value;
      t in tasks && tasks[t].sessionId == Some(k) ==> tasks[t].outcome.Active?
  }

  ghost predicate EventsHoused(sessions: map<Id, Session>, events: seq<Event>) {
    forall i :: 0 <= i < |events| ==> events[i].sessionId in sessions
  }

  /** How far the event counter of a session is ahead of the number of its events. */
  ghost function Gap(sessions: map<Id, Session>, events: seq<Event>, k: Id): int
    requires k in sessions
  {
    sessions[k].eventSequence - |SessionEvents(events, k)|
  }

  ghost predicate NumberedAfter(events: seq<Event>, gap: int) {
    forall i :: 0 <= i < |events| ==> events[i].sequence == gap + i + 1
  }

  /** The events of each session are numbered without holes, up to its counter. */
  ghost predicate EventsNumbered(sessions: map<Id, Session>, events: seq<Event>) {
    forall k :: k in sessions ==>
      Gap(sessions, events, k) >= 0 && NumberedAfter(SessionEvents(events, k), Gap(sessions, events, k))
  }

  ghost predicate TurnsNumbered(turns: seq<Turn>) {
    forall i :: 0 <= i < |turns| ==> turns[i].sequence == i + 1
  }

  ghost predicate TurnsDense(sessions: map<Id, Session>, turns: seq<Turn>) {
    && (forall i :: 0 <= i < |turns| ==> turns[i].sessionId in sessions)
    && (forall k :: k in sessions ==> TurnsNumbered(SessionTurns(turns, k)))
  }

  /** A checkpoint belongs to its task's session and is not ahead of its logs. */
  ghost predicate CursorsBehind(checkpoints: map<Id, Checkpoint>, tasks: map<Id, Task>, sessions: map<Id, Session>,
                                turns: seq<Turn>)
  {
    forall t {:trigger checkpoints[t]} :: t in checkpoints ==>
      var c := checkpoints[t];
      && c.taskId == t && t in tasks && tasks[t].sessionId == Some(c.sessionId) && c.sessionId in sessions
      && c.eventSequence <= sessions[c.sessionId].eventSequence
      && c.consumedInput <= |SessionTurns(turns, c.sessionId)|
  }

  /** One disposition per effect; retried and abandoned effects stay unknown; retries are distinct. */
  ghost predicate DispositionsSound(dispositions: map<Id, Disposition>, effects: map<Id, Effect>) {
    && (forall d, f :: d in dispositions && f in dispositions && d != f
                       ==> dispositions[d].unknownEffectId != dispositions[f].unknownEffectId)
    && (forall d :: d in dispositions ==>
          && dispositions[d].unknownEffectId in effects
          && Spent(effects[dispositions[d].unknownEffectId].status)
          && (!dispositions[d].kind.ConfirmResult? ==> effects[dispositions[d].unknownEffectId].status.Unknown?))
    && (forall d :: d in dispositions && dispositions[d].kind.CreateRetry? ==>
          && dispositions[d].retryEffectId.Some?
          && dispositions[d].retryEffectId.value in effects
          && dispositions[d].retryEffectId.value != dispositions[d].unknownEffectId
          && effects[dispositions[d].retryEffectId.value].content.decision.RequireApproval?)
    && (forall d, f :: d in dispositions && f in dispositions && d != f
                       && dispositions[d].kind.CreateRetry? && dispositions[f].kind.CreateRetry?
                       ==> dispositions[d].retryEffectId != dispositions[f].retryEffectId)
  }

  /** The effect side: effects, approvals and dispositions. */
  ghost predicate WorkSound(w: Work) {
    && ApprovalsUnique(w.effects, w.approvals)
    && PendingBacked(w.effects, w.approvals)
    && DispositionsSound(w.dispositions, w.effects)
  }

  /**
   Which of the promises that depend on what callers hand in are followed: new sessions
   count from zero, sessions host their active task, and active tasks have no outcome.
   */
  datatype Scope = Scope(fromZero: bool, hosted: bool, live: bool)

  /** The session side: bindings, logs and cursors always, active tasks as far as the scope goes. */
  ghost predicate HomeSound(h: Home, scope: Scope) {
    && Bound(h.sessions, h.tasks, h.executions)
    && EventsHoused(h.sessions, h.events)
    && EventsNumbered(h.sessions, h.events)
    && TurnsDense(h.sessions, h.turns)
    && CursorsBehind(h.checkpoints, h.tasks, h.sessions, h.turns)
    && (scope.hosted ==> ActiveHosted(h.sessions, h.tasks))
    && (scope.live ==> ActiveLive(h.sessions, h.tasks))
  }

  ghost predicate Inv(s: State, scope: Scope) {
    WorkSound(s.work) && LeasesExclusive(s.home.executions) && HomeSound(s.home, scope)
  }

  // ------------------------------------------------------------- row history

  /** The backend action of the effect has been started. */
  predicate Spent(status: EffectStatus) {
    status.Executing? || status.Succeeded? || status.EffectFailed? || status.Unknown?
  }

  /** The status changes the store performs, a superset of `Effect.transition`. */
  predicate EffectEdge(from: EffectStatus, to: EffectStatus) {
    from == to ||
    match from
    case Prepared => to.EffectWaiting? || to.Executing? || to.Denied? || to.EffectCancelled?
    case EffectWaiting => to.Prepared? || to.Denied? || to.EffectCancelled?
    case Executing => to.Succeeded? || to.EffectFailed? || to.Unknown?
    case Unknown => to.Succeeded? || to.EffectFailed?
    case _ => false
  }

  predicate ApprovalEdge(from: ApprovalStatus, to: ApprovalStatus) {
    from == to ||
    match from
    case Pending => to.Approved? || to.ApprovalDenied? || to.Expired?
    case Approved => to.Consumed?
    case _ => false
  }

  ghost predicate EffectsEvolve(before: map<Id, Effect>, after: map<Id, Effect>) {
    forall e :: e in before ==>
      && e in after && SameIdentity(before[e], after[e]) && before[e].content == after[e].content
      && EffectEdge(before[e].status, after[e].status)
      && (before[e] == after[e] || before[e].version < after[e].version)
      && (before[e].status.Unknown? && after[e].status.Unknown? ==> before[e] == after[e])
  }

  ghost predicate ApprovalsEvolve(before: map<Id, Approval>, after: map<Id, Approval>) {
    forall a :: a in before ==>
      a in after && before[a].effectId == after[a].effectId && ApprovalEdge(before[a].status, after[a].status)
  }

  /** This step leaves the effect in EXECUTING, whether it claimed the effect or stored it so. */
  predicate Begins(before: map<Id, Effect>, after: map<Id, Effect>, e: Id) {
    !(e in before && before[e].status.Executing?) && e in after && after[e].status.Executing?
  }

  /** This step moves a stored effect into EXECUTING. */
  predicate Enters(before: map<Id, Effect>, after: map<Id, Effect>, e: Id) {
    e in before && !before[e].status.Executing? && e in after && after[e].status.Executing?
  }

  /** The effect's own approval goes from approved to consumed. */
  ghost predicate Pays(before: map<Id, Approval>, after: map<Id, Approval>, e: Id) {
    exists a :: a in before && before[a].effectId == e && before[a].status.Approved?
                && a in after && after[a].status.Consumed?
  }

  /** This step consumes the approval. */
  predicate Consumes(before: map<Id, Approval>, after: map<Id, Approval>, a: Id) {
    a in after && after[a].status.Consumed? && !(a in before && before[a].status.Consumed?)
  }

  /**
   Every entry leaves PREPARED, one that policy gates is paid for by an approval,
   and no approval is consumed except by the entry of its own effect.
   */
  ghost predicate EntriesPaid(effects: map<Id, Effect>, effects': map<Id, Effect>,
                              approvals: map<Id, Approval>, approvals': map<Id, Approval>)
  {
    && (forall e :: Enters(effects, effects', e) ==>
          && effects[e].status.Prepared? && !effects[e].content.decision.Deny?
          && (effects[e].content.decision.RequireApproval? ==> Pays(approvals, approvals', e)))
    && (forall a :: Consumes(approvals, approvals', a) ==> Enters(effects, effects', approvals'[a].effectId))
  }

  ghost predicate ExecutionsEvolve(before: map<Id, Execution>, after: map<Id, Execution>) {
    forall x :: x in before ==>
      && x in after && before[x].taskId == after[x].taskId && before[x].sessionId == after[x].sessionId
      && before[x].token == after[x].token && before[x].generation == after[x].generation
      && before[x].ownerId == after[x].ownerId
      && (IsActive(after[x].status) ==> IsActive(before[x].status))
  }

  /** Every write to a task raises its version; bindings and terminal outcomes are not undone. */
  ghost predicate TasksEvolve(before: map<Id, Task>, after: map<Id, Task>) {
    forall t :: t in before ==>
      && t in after && (before[t] == after[t] || before[t].version < after[t].version)
      && (before[t].sessionId.Some? ==> after[t].sessionId == before[t].sessionId)
      && (!before[t].outcome.Active? ==> after[t].outcome == before[t].outcome || after[t].outcome.Cancelled?)
  }

  ghost predicate RowsKept<K(!new), V>(before: map<K, V>, after: map<K, V>) {
    forall k :: k in before ==> k in after && after[k] == before[k]
  }

  /** Counters and events of a session grow together; a new session starts level if `fromZero`. */
  ghost predicate GapsKept(sessions: map<Id, Session>, events: seq<Event>, sessions': map<Id, Session>, events': seq<Event>,
                           fromZero: bool)
  {
    forall k {:trigger Gap(sessions', events', k)} :: k in sessions' ==>
      if k in sessions then Gap(sessions', events', k) == Gap(sessions, events, k)
      else fromZero ==> Gap(sessions', events', k) == 0
  }

  ghost predicate WorkEvolves(w: Work, w': Work) {
    && EffectsEvolve(w.effects, w'.effects)
    && ApprovalsEvolve(w.approvals, w'.approvals)
    && EntriesPaid(w.effects, w'.effects, w.approvals, w'.approvals)
    && RowsKept(w.dispositions, w'.dispositions)
    && RowsKept(w.observations, w'.observations)
  }

  ghost predicate HomeEvolves(h: Home, h': Home, scope: Scope) {
    && TasksEvolve(h.tasks, h'.tasks)
    && h.sessions.Keys <= h'.sessions.Keys
    && GapsKept(h.sessions, h.events, h'.sessions, h'.events, scope.fromZero)
    && h.turns <= h'.turns
    && h.events <= h'.events
  }

  /** The effect-side obligation of one transaction. */
  ghost predicate KeepsWork(s: State, r: Result<State, Error>) {
    r.Success? ==> WorkSound(r.value.work) && WorkEvolves(s.work, r.value.work)
  }

  /** Its obligation on the lease table. */
  ghost predicate KeepsLeases(h: Home, r: Result<Home, Error>) {
    r.Success? ==> LeasesExclusive(r.value.executions) && ExecutionsEvolve(h.executions, r.value.executions)
  }

  /** Its session-side obligation. */
  ghost predicate KeepsHome(h: Home, r: Result<Home, Error>, scope: Scope) {
    r.Success? ==> HomeSound(r.value, scope) && HomeEvolves(h, r.value, scope)
  }

  // ----------------------------------------------------------- append lemmas

  /** One numbered event was appended to the session's journal. */
  ghost predicate Journaled(h: Home, h': Home, k: Id) {
    && k in h.sessions && k in h'.sessions && |h'.events| == |h.events| + 1
    && var e := h'.events[|h.events|];
       && h'.events == h.events + [e] && e.sessionId == k && e.sequence == h.sessions[k].eventSequence + 1
       && h'.sessions == h.sessions[k := h'.sessions[k]] && h'.sessions[k].eventSequence == e.sequence
  }

  lemma {:induction false} SessionEventsAppend(events: seq<Event>, e: Event, k: Id)
    ensures SessionEvents(events + [e], k)
            == if e.sessionId == k then SessionEvents(events, k) + [e] else SessionEvents(events, k)
  {
    assert (events + [e])[..|events|] == events;
  }

  lemma {:induction false} SessionTurnsAppend(turns: seq<Turn>, t: Turn, k: Id)
    ensures SessionTurns(turns + [t], k)
            == if t.sessionId == k then SessionTurns(turns, k) + [t] else SessionTurns(turns, k)
  {
    assert (turns + [t])[..|turns|] == turns;
  }

  lemma {:induction false} JournaledKeepsNumbered(h: Home, h': Home, k: Id)
    requires EventsNumbered(h.sessions, h.events) && Journaled(h, h', k)
    ensures EventsNumbered(h'.sessions, h'.events)
    ensures GapsKept(h.sessions, h.events, h'.sessions, h'.events, true)
  {
    hide SessionEvents;
    forall j | j in h'.sessions
      ensures j in h.sessions && Gap(h'.sessions, h'.events, j) == Gap(h.sessions, h.events, j)
      ensures NumberedAfter(SessionEvents(h'.events, j), Gap(h.sessions, h.events, j))
    {
      SessionEventsAppend(h.events, h'.events[|h.events|], j);
    }
  }

  lemma {:induction false} EventOfSession(events: seq<Event>, i: nat)
    requires i < |events|
    ensures events[i] in SessionEvents(events, events[i].sessionId)
  {
    if i < |events| - 1 {
      EventOfSession(events[..|events| - 1], i);
    }
  }

  /** The next number of a session is still free. */
  lemma {:induction false} NextNumberFree(h: Home, k: Id)
    requires EventsNumbered(h.sessions, h.events) && k in h.sessions
    ensures forall i :: 0 <= i < |h.events| && h.events[i].sessionId == k ==> h.events[i].sequence <= h.sessions[k].eventSequence
  {
    hide SessionEvents;
    forall i | 0 <= i < |h.events| && h.events[i].sessionId == k
      ensures h.events[i].sequence <= h.sessions[k].eventSequence
    {
      EventOfSession(h.events, i);
      var j :| 0 <= j < |SessionEvents(h.events, k)| && SessionEvents(h.events, k)[j] == h.events[i];
    }
  }

  /** With dense numbering `MAX(sequence)` is the number of turns. */
  lemma {:induction false} MaxTurnIsCount(turns: seq<Turn>, k: Id)
    requires TurnsNumbered(SessionTurns(turns, k))
    ensures MaxTurn(turns, k) == |SessionTurns(turns, k)|
  {
    if |turns| > 0 {
      var rest := turns[..|turns| - 1];
      var all := SessionTurns(turns, k);
      assert TurnsNumbered(SessionTurns(rest, k)) by {
        assert forall i :: 0 <= i < |SessionTurns(rest, k)| ==> SessionTurns(rest, k)[i] == all[i];
      }
      MaxTurnIsCount(rest, k);
      if turns[|turns| - 1].sessionId == k {
        assert all[|all| - 1] == turns[|turns| - 1];
      }
    }
  }

  lemma {:induction false} NoEventsYet(events: seq<Event>, k: Id)
    requires forall i :: 0 <= i < |events| ==> events[i].sessionId != k
    ensures SessionEvents(events, k) == []
  {
    if |events| > 0 {
      NoEventsYet(events[..|events| - 1], k);
    }
  }

  lemma {:induction false} NoTurnsYet(turns: seq<Turn>, k: Id)
    requires forall i :: 0 <= i < |turns| ==> turns[i].sessionId != k
    ensures SessionTurns(turns, k) == []
  {
    if |turns| > 0 {
      NoTurnsYet(turns[..|turns| - 1], k);
    }
  }
}
