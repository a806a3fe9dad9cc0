/**
 Where the store's promises need its callers: the exact conditions under which a
 transaction keeps them.
 */
module StoreLimits {
  import opened Wrappers
  import opened StoreModel
  import opened StoreInvariants
  import opened SessionSpec
  import opened LeaseSpec
  import opened EffectSpec
  import opened SessionProofs
  import opened EffectProofs
  import opened StoreRuns
  import opened EffectHistory
  import opened StoreTheorems

  // --------------------------------------------- deciding without requesting

  /**
   `decide_approval` keeps the effect-side invariants and histories exactly when it decides
   a stored request, or opens one that is not consumed and, if undecided, is the one its
   effect waits on.
   */
  lemma {:induction false} DecideKeepsWorkIff(s: State, a: Approval, expected: Option<nat>)
    requires WorkSound(s.work) && DecideApproval(s, a, expected).Success?
    ensures KeepsWork(s, DecideApproval(s, a, expected)) <==> DecidesSafely(s.work, a)
  {
    hide WorkSound, KeepsWork, DecidesSafely, DecideApproval;
    if DecidesSafely(s.work, a) {
      DecideApprovalWork(s, a, expected);
    } else {
      UnsafeOpeningBreaks(s, a, expected);
    }
  }

  /** Approving a request opened behind a started effect puts it back to PREPARED. */
  lemma {:induction false} OpenedBehindResets(s: State, a: Approval, source: string, expected: nat,
                                              workspaceRef: string, policyVersion: string, configVersion: string)
    requires a.status.Pending? && a.id in s.work.approvals && s.work.approvals[a.id] == a
    requires a.effectId in s.work.effects && s.work.effects[a.effectId].id == a.effectId
    requires Spent(s.work.effects[a.effectId].status)
    requires ResolveEffectApproval(s, a.id, true, source, expected, workspaceRef, policyVersion, configVersion).Success?
    ensures var w := ResolveEffectApproval(s, a.id, true, source, expected, workspaceRef, policyVersion, configVersion).value.work;
            w.effects[a.effectId].status.Prepared? && !EffectsEvolve(s.work.effects, w.effects)
  {
    hide JournalApproval;
    var w := ResolveEffectApproval(s, a.id, true, source, expected, workspaceRef, policyVersion, configVersion).value.work;
    assert w.effects[a.effectId].status.Prepared?;
    assert !EffectEdge(s.work.effects[a.effectId].status, w.effects[a.effectId].status);
  }

  // --------------------------------------------------------- arriving sessions

  /** Every session's events are numbered from one and its active task is its own. */
  ghost predicate Settled(h: Home) {
    && (forall k :: k in h.sessions ==> Gap(h.sessions, h.events, k) == 0)
    && ActiveHosted(h.sessions, h.tasks)
  }

  /** Creating a session keeps this exactly when it arrives with counter zero and no active task. */
  lemma {:induction false} CreateSessionSettledIff(h: Home, session: Session)
    requires HomeSound(h, ALWAYS) && Settled(h) && CreateSession(h, session).Success?
    ensures HomeSound(CreateSession(h, session).value, ALWAYS)
    ensures Settled(CreateSession(h, session).value) <==> session.activeTask.None? && session.eventSequence == 0
  {
    hide Gap, ActiveHosted, ActiveLive, CreateSession, Bound, EventsHoused, EventsNumbered, TurnsDense, CursorsBehind, TasksEvolve;
    CreateSessionHome(h, session, Scope(session.eventSequence == 0, false, false));
    CreateSessionHome(h, session, ALWAYS);
    CreateSessionGap(h, session);
    ArrivingHosted(h, session);
  }

  lemma {:induction false} ArrivingHosted(h: Home, session: Session)
    requires HomeSound(h, ALWAYS) && ActiveHosted(h.sessions, h.tasks) && CreateSession(h, session).Success?
    ensures var h' := CreateSession(h, session).value; ActiveHosted(h'.sessions, h'.tasks) <==> session.activeTask.None?
  {
    hide EventsNumbered, EventsHoused, TurnsDense, CursorsBehind, EventClash;
    var h' := CreateSession(h, session).value;
    assert h'.tasks == h.tasks && h'.sessions == h.sessions[session.id := h'.sessions[session.id]];
    assert h'.sessions[session.id].activeTask == session.activeTask && session.id !in h.sessions;
    if session.activeTask.Some? {
      var t := session.activeTask.value;
      assert h.tasks[t].sessionId != Some(session.id);
    }
  }

  // ------------------------------------------------------- acquiring, exactly

  /** Preparing a task leaves an active one, unless it was handed in unbound and already ended. */
  lemma {:induction false} PreparedIsLiveIff(h: Home, task: Task)
    requires HomeSound(h, OWNED) && PrepareTaskExecution(h, task).Success? && Candidate(h, task).id == task.id
    ensures var tasks := PrepareTaskExecution(h, task).value.tasks;
            task.id in tasks
            && (tasks[task.id].outcome.Active? <==> !(Candidate(h, task).sessionId.None? && !Candidate(h, task).outcome.Active?))
  {
    hide PrepareTaskExecution, EventsNumbered, Gap, TurnsDense, CursorsBehind;
    PreparedIsActiveTask(h, task);
    var t := Candidate(h, task);
    if t.sessionId.Some? {
      BoundCandidate(h, task);
      assert h.sessions[t.sessionId.value].activeTask == Some(task.id);
      ActiveTaskIsActive(h, task.id);
    }
  }

  /** A task that is already bound is accepted only as its session's active task. */
  lemma {:induction false} BoundCandidate(h: Home, task: Task)
    requires PrepareTaskExecution(h, task).Success? && Candidate(h, task).sessionId.Some?
    ensures var k := Candidate(h, task).sessionId.value;
            k in h.sessions && h.sessions[k].activeTask == Some(Candidate(h, task).id)
  {
    hide Readable, BindToRuntimeSession;
  }

  /** Claiming an ended task leaves a row that can no longer be read, so the task is lost to every later call. */
  lemma {:induction false} ClaimedEndedIsUnreadable(h: Home, x: Execution, expected: Option<nat>, now: nat)
    requires ClaimExecution(h, x, expected, now).Success? && h.tasks[x.taskId].id == x.taskId
    ensures var tasks := ClaimExecution(h, x, expected, now).value.tasks;
            RequireTask(tasks, x.taskId) == Failure(InvalidRow) <==> !h.tasks[x.taskId].outcome.Active?
  {
    hide MaxGeneration, Expire, Journal, SessionHeld, TaskHeld;
  }

  // ------------------------------------------------------------ abandonment

  /** A recovery decision keeps the task's outcome unless it abandons one that is not cancelled already. */
  lemma {:induction false} OutcomeKeptIff(s: State, d: Disposition, taskId: Id, expected: nat, remedy: Remedy)
    requires ResolveRecovery(s, d, taskId, expected, remedy).Success? && !Disposed(s.work.dispositions, d)
    requires s.home.tasks[taskId].id == taskId
    ensures var after := ResolveRecovery(s, d, taskId, expected, remedy).value.home.tasks[taskId];
            after.outcome == s.home.tasks[taskId].outcome
            <==> !d.kind.Abandon? || s.home.tasks[taskId].outcome.Cancelled?
  {
    hide ApplyRemedy, Journal, AdvanceCursor, RetriesExactly, Confirms;
  }

  // ------------------------------------------------------- reporting unknown

  function ReportId(e: Id, version: nat): EventId {
    EventId("effect.recovery_required", e, Number(version))
  }

  ghost predicate Recorded(events: seq<Event>, id: EventId) {
    exists i :: 0 <= i < |events| && events[i].id == id
  }

  /** The caller owns the effect's task, which can be read. */
  ghost predicate OwnsEffect(s: State, e: Id, g: Guard, now: nat) {
    && GuardLive(s.home.executions, g, now) && e in s.work.effects && s.work.effects[e].id == e
    && s.work.effects[e].taskId == s.home.executions[g.executionId].taskId
    && s.work.effects[e].taskId in s.home.tasks && Readable(s.home.tasks[s.work.effects[e].taskId])
  }

  lemma {:induction false} OwnerIsBound(h: Home, g: Guard, now: nat)
    requires HomeSound(h, ALWAYS) && GuardLive(h.executions, g, now)
    ensures var t := h.executions[g.executionId].taskId;
            t in h.tasks && h.tasks[t].id == t && h.tasks[t].sessionId.Some? && h.tasks[t].sessionId.value in h.sessions
            && h.sessions[h.tasks[t].sessionId.value].id == h.tasks[t].sessionId.value
  {
    hide EventsNumbered, TurnsDense, CursorsBehind;
    var t := h.executions[g.executionId].taskId;
    assert h.tasks[t].sessionId == Some(h.executions[g.executionId].sessionId);
    assert h.sessions[h.executions[g.executionId].sessionId].id == h.executions[g.executionId].sessionId;
  }

  lemma {:induction false} FreshIdJournals(h: Home, task: Task, id: EventId)
    requires EventsNumbered(h.sessions, h.events) && task.sessionId.Some? && task.sessionId.value in h.sessions
    requires h.sessions[task.sessionId.value].id == task.sessionId.value
    ensures JournalTask(h, task, id).Success? <==> !Recorded(h.events, id)
  {
    hide EventsNumbered;
    NextNumberFree(h, task.sessionId.value);
  }

  /**
   The owner of an effect that is already UNKNOWN can report it exactly when this version
   of it was not reported before.
   */
  lemma {:induction false} ReportUnknownIff(s: State, e: Id, g: Guard, now: nat)
    requires HomeSound(s.home, ALWAYS) && OwnsEffect(s, e, g, now) && s.work.effects[e].status.Unknown?
    ensures MarkEffectUnknown(s, e, s.work.effects[e].version, g, now).Success?
            <==> !Recorded(s.home.events, ReportId(e, s.work.effects[e].version))
  {
    hide EventsNumbered, TurnsDense, CursorsBehind, JournalTask, AdvanceCursor, Bound, Recorded;
    OwnerIsBound(s.home, g, now);
    var task := s.home.tasks[s.work.effects[e].taskId];
    var stopped := if task.condition.RecoveryRequired? then task
                   else task.(condition := RecoveryRequired, version := task.version + 1);
    FreshIdJournals(s.home.(tasks := s.home.tasks[task.id := stopped]), task, ReportId(e, s.work.effects[e].version));
  }

  lemma {:induction false} ReportIsRecorded(s: State, e: Id, expected: nat, g: Guard, now: nat)
    requires HomeSound(s.home, ALWAYS) && e in s.work.effects && s.work.effects[e].id == e
    requires MarkEffectUnknown(s, e, expected, g, now).Success?
    ensures var s' := MarkEffectUnknown(s, e, expected, g, now).value;
            && e in s'.work.effects && s'.work.effects[e].id == e && s'.work.effects[e].status.Unknown?
            && Recorded(s'.home.events, ReportId(e, s'.work.effects[e].version))
  {
    hide EventsNumbered, TurnsDense, CursorsBehind, AdvanceCursor, Bound;
    OwnerIsBound(s.home, g, now);
    var s' := MarkEffectUnknown(s, e, expected, g, now).value;
    assert s'.home.events[|s.home.events|].id == ReportId(e, s'.work.effects[e].version);
  }

  lemma {:induction false} RecordedReportFails(s: State, e: Id, expected: nat, g: Guard, now: nat)
    requires HomeSound(s.home, ALWAYS) && e in s.work.effects && s.work.effects[e].id == e
    requires !s.work.effects[e].status.Executing?
    requires s.work.effects[e].status.Unknown? ==> Recorded(s.home.events, ReportId(e, s.work.effects[e].version))
    ensures MarkEffectUnknown(s, e, expected, g, now).Failure?
  {
    hide JournalTask, AdvanceCursor, HomeSound, Recorded;
    if MarkEffectUnknown(s, e, expected, g, now).Success? {
      assert OwnsEffect(s, e, g, now);
      ReportUnknownIff(s, e, g, now);
    }
  }

  /** Once an effect has been reported unknown, every later report of it in the run fails. */
  lemma {:induction false} ReportedOnce(ops: seq<Op>, i: nat, j: nat, e: Id, expected: nat, g: Guard, now: nat,
                                        again: nat, f: Guard, later: nat)
    requires Deciding(ops) && i < j <= |ops|
    requires ops[i] == Effects(MarkEffectUnknownOp(e, expected, g, now)) && Apply(At(ops, i), ops[i]).Success?
    ensures Apply(At(ops, j), Effects(MarkEffectUnknownOp(e, again, f, later))).Failure?
  {
    hide After, MarkEffectUnknown, HomeSound, History, Recorded, Deciding, LeasesExclusive;
    AtStep(ops, i);
    AlwaysClean(ops[..i]);
    HomeRun(ops[..i], ALWAYS);
    AlwaysClean(ops[..j]);
    HomeRun(ops[..j], ALWAYS);
    RunIsHistory(ops);
    HistoryKeys(Works(ops), i, e);
    HistoryKeys(Works(ops), j, e);
    ReportNeedsEffect(At(ops, i), e, expected, g, now);
    ReportIsRecorded(At(ops, i), e, expected, g, now);
    EvolvesBetween(Works(ops), i + 1, j);
    HomeBetween(ops, i + 1, j);
    RecordedStays(At(ops, i + 1).home.events, At(ops, j).home.events, ReportId(e, At(ops, i + 1).work.effects[e].version));
    RecordedReportFails(At(ops, j), e, again, f, later);
  }

  lemma {:induction false} ReportNeedsEffect(s: State, e: Id, expected: nat, g: Guard, now: nat)
    requires MarkEffectUnknown(s, e, expected, g, now).Success?
    ensures e in s.work.effects
  {
  }

  lemma {:induction false} HistoryKeys(ws: seq<Work>, i: nat, e: Id)
    requires History(ws) && i < |ws|
    ensures e in ws[i].effects ==> ws[i].effects[e].id == e
  {
    hide WorkEvolves;
    assert WorkSound(ws[i]);
  }

  lemma {:induction false} RecordedStays(events: seq<Event>, more: seq<Event>, id: EventId)
    requires events <= more && Recorded(events, id)
    ensures Recorded(more, id)
  {
    var i :| 0 <= i < |events| && events[i].id == id;
    assert more[i].id == id;
  }
}
