/** Every effect, approval and recovery transaction keeps the session-side invariants and the leases. */
module EffectHomeProofs {
  import opened Wrappers
  import opened StoreModel
  import opened StoreInvariants
  import opened HomeMoves
  import opened SessionSpec
  import opened EffectSpec
  import opened LeaseProofs

  ghost predicate KeepsHomeOf(s: State, r: Result<State, Error>, scope: Scope) {
    r.Success? ==> HomeSound(r.value.home, scope) && HomeEvolves(s.home, r.value.home, scope)
  }

  ghost predicate KeepsLeasesOf(s: State, r: Result<State, Error>) {
    r.Success? ==> && LeasesExclusive(r.value.home.executions)
                   && ExecutionsEvolve(s.home.executions, r.value.home.executions)
  }

  /** A stored task, as far as the journal needs to know it. */
  predicate Stored(h: Home, task: Task) {
    task.id in h.tasks && h.tasks[task.id].sessionId == task.sessionId
  }

  lemma {:induction false} TaskKey(h: Home, t: Id, scope: Scope)
    requires HomeSound(h, scope) && t in h.tasks
    ensures h.tasks[t].id == t && Stored(h, h.tasks[t])
    ensures h.tasks[t].sessionId.Some? ==> h.tasks[t].sessionId.value in h.sessions
  {
  }

  lemma {:induction false} JournalTaskHome(h: Home, task: Task, id: EventId, scope: Scope)
    requires HomeSound(h, scope) && Stored(h, task)
    ensures KeepsHome(h, JournalTask(h, task, id), scope)
    ensures var r := JournalTask(h, task, id);
            r.Success? ==> r.value == h.(sessions := r.value.sessions, events := r.value.events)
  {
    hide EventsNumbered, Gap, TurnsDense, CursorsBehind;
    var r := JournalTask(h, task, id);
    if r.Success? && task.sessionId.Some? {
      JournalMove(h, r.value, task.sessionId.value, scope);
    }
  }

  lemma {:induction false} JournalApprovalHome(h: Home, effects: map<Id, Effect>, a: Approval, kind: string, scope: Scope)
    requires HomeSound(h, scope)
    ensures KeepsHome(h, JournalApproval(h, effects, a, kind), scope)
    ensures var r := JournalApproval(h, effects, a, kind);
            r.Success? ==> r.value == h.(sessions := r.value.sessions, events := r.value.events)
  {
    hide Bound, ActiveHosted, ActiveLive, EventsNumbered, Gap, TurnsDense, CursorsBehind, TasksEvolve, JournalTask;
    var r := JournalApproval(h, effects, a, kind);
    if r.Success? {
      var t := effects[a.effectId].taskId;
      TaskKey(h, t, scope);
      JournalTaskHome(h, h.tasks[t], EventId(kind, a.id, Number(a.version)), scope);
    }
  }

  lemma {:induction false} PrepareEffectBatchHome(s: State, step: StepRow, batch: seq<Effect>, expected: nat,
                                                  guard: Option<Guard>, now: nat, scope: Scope)
    requires HomeSound(s.home, scope)
    ensures KeepsHomeOf(s, PrepareEffectBatch(s, step, batch, expected, guard, now), scope)
  {
    hide Bound, ActiveHosted, ActiveLive, EventsNumbered, Gap, TurnsDense, CursorsBehind, JournalTask, Known, InsertAll, CompatibleWith;
    var r := PrepareEffectBatch(s, step, batch, expected, guard, now);
    if r.Success? {
      TaskKey(s.home, step.taskId, scope);
      var task := s.home.tasks[step.taskId];
      var added := NewEffects(s.work.effects, batch);
      JournalTaskHome(s.home, task, EventId("effects.prepared", task.id, Ids(EffectIds(added))), scope);
    }
  }

  lemma {:induction false} YieldHome(h: Home, x: Execution, task: Task, scope: Scope)
    requires HomeSound(h, scope) && x.id in h.executions && h.executions[x.id] == x
    requires task.id in h.tasks && h.tasks[task.id] == task
    ensures HomeSound(Yield(h, x, task), scope) && HomeEvolves(h, Yield(h, x, task), scope)
  {
    hide EventsNumbered, Gap, TurnsDense, CursorsBehind;
    var waiting := task.(condition := WaitingForApproval, version := task.version + 1);
    TaskMove(h, task.id, waiting, scope);
    var tasked := h.(tasks := h.tasks[task.id := waiting]);
    ExecutionsMove(tasked, Yield(h, x, task).executions, scope);
    assert Yield(h, x, task) == tasked.(executions := Yield(h, x, task).executions);
  }

  lemma {:induction false} RequestEffectApprovalHome(s: State, effectId: Id, a: Approval, expected: nat, g: Guard, now: nat, scope: Scope)
    requires HomeSound(s.home, scope) && LeasesExclusive(s.home.executions)
    ensures KeepsHomeOf(s, RequestEffectApproval(s, effectId, a, expected, g, now), scope)
  {
    hide Bound, ActiveHosted, ActiveLive, EventsNumbered, Gap, TurnsDense, CursorsBehind, TasksEvolve, JournalApproval;
    var r := RequestEffectApproval(s, effectId, a, expected, g, now);
    if r.Success? {
      var x, t := s.home.executions[g.executionId], s.work.effects[effectId].taskId;
      TaskKey(s.home, t, scope);
      var task := s.home.tasks[t];
      YieldHome(s.home, x, task, scope);
      var yielded := Yield(s.home, x, task);
      JournalApprovalHome(yielded, r.value.work.effects, a, "approval.requested", scope);
      if !s.work.effects[effectId].status.EffectWaiting? {
        EvolvesThrough(s.home, yielded, r.value.home, scope);
      }
    }
  }

  /** Effect transactions rewrite at most the caller's own execution, and never revive one. */
  lemma {:induction false} RequestEffectApprovalLeases(s: State, effectId: Id, a: Approval, expected: nat, g: Guard, now: nat)
    requires LeasesExclusive(s.home.executions)
    ensures KeepsLeasesOf(s, RequestEffectApproval(s, effectId, a, expected, g, now))
  {
    hide ExecutionsEvolve;
    var r := RequestEffectApproval(s, effectId, a, expected, g, now);
    if r.Success? {
      var x := s.home.executions[g.executionId];
      RewriteKeepsLeases(s.home.executions, x.(status := ExecutionWaiting, version := x.version + 1));
    }
  }

  lemma {:induction false} ResolveEffectApprovalHome(s: State, approvalId: Id, approved: bool, source: string, expected: nat,
                                                     workspaceRef: string, policyVersion: string, configVersion: string, scope: Scope)
    requires HomeSound(s.home, scope)
    ensures KeepsHomeOf(s, ResolveEffectApproval(s, approvalId, approved, source, expected, workspaceRef, policyVersion, configVersion), scope)
  {
    hide Bound, ActiveHosted, ActiveLive, EventsNumbered, Gap, TurnsDense, CursorsBehind, JournalApproval, Binds;
    var r := ResolveEffectApproval(s, approvalId, approved, source, expected, workspaceRef, policyVersion, configVersion);
    if r.Success? {
      var a := s.work.approvals[approvalId];
      var t := s.work.effects[a.effectId].taskId;
      TaskKey(s.home, t, scope);
      var task := s.home.tasks[t];
      if a.status.Pending? {
        TaskMove(s.home, t, Unblocked(task), scope);
        var unblocked := s.home.(tasks := s.home.tasks[t := Unblocked(task)]);
        var decided := r.value.work.approvals[approvalId];
        JournalApprovalHome(unblocked, r.value.work.effects, decided, "approval.decided", scope);
        JournalApprovalHome(unblocked, r.value.work.effects, decided, "approval.expired", scope);
        EvolvesThrough(s.home, unblocked, r.value.home, scope);
      }
    }
  }

  lemma {:induction false} DecideApprovalHome(s: State, a: Approval, expected: Option<nat>, scope: Scope)
    requires HomeSound(s.home, scope)
    ensures KeepsHomeOf(s, DecideApproval(s, a, expected), scope)
  {
    hide Bound, ActiveHosted, ActiveLive, EventsNumbered, Gap, TurnsDense, CursorsBehind, JournalApproval;
    JournalApprovalHome(s.home, s.work.effects, a, "approval.requested", scope);
    JournalApprovalHome(s.home, s.work.effects, a, "approval.decided", scope);
  }

  lemma {:induction false} ClaimEffectHome(s: State, effectId: Id, expected: nat, g: Guard, terms: ClaimTerms, now: nat, scope: Scope)
    requires HomeSound(s.home, scope)
    ensures KeepsHomeOf(s, ClaimEffect(s, effectId, expected, g, terms, now), scope)
  {
    hide Bound, ActiveHosted, ActiveLive, EventsNumbered, Gap, TurnsDense, CursorsBehind, JournalApproval, JournalTask, Binds, ControlPending, MaxTurn;
    var r := ClaimEffect(s, effectId, expected, g, terms, now);
    if r.Success? {
      var e := s.work.effects[effectId];
      TaskKey(s.home, e.taskId, scope);
      var task := s.home.tasks[e.taskId];
      var consumed := ApprovalToConsume(s.work.approvals, e, task, ActualConfig(s.home.sessions, task, terms), terms).value;
      var noted := s.home;
      if consumed.Some? {
        JournalApprovalHome(s.home, r.value.work.effects, consumed.value, "approval.consumed", scope);
        noted := JournalApproval(s.home, r.value.work.effects, consumed.value, "approval.consumed").value;
      }
      JournalTaskHome(noted, task, EventId("effect.claimed", effectId, Number(e.version + 1)), scope);
      EvolvesThrough(s.home, noted, r.value.home, scope);
    }
  }

  /** Journal one event for the task, then move its cursor to it. */
  lemma {:induction false} JournalAndAdvanceHome(h: Home, task: Task, id: EventId, completed: Option<Id>, scope: Scope)
    requires HomeSound(h, scope) && Stored(h, task)
    ensures var r := JournalTask(h, task, id);
            r.Success? ==> && HomeSound(AdvanceCursor(r.value, task, completed), scope)
                           && HomeEvolves(h, AdvanceCursor(r.value, task, completed), scope)
  {
    hide Bound, ActiveHosted, ActiveLive, EventsNumbered, Gap, TurnsDense, CursorsBehind, TasksEvolve, JournalTask, AdvanceCursor;
    JournalTaskHome(h, task, id, scope);
    var r := JournalTask(h, task, id);
    if r.Success? {
      CursorMove(r.value, task, completed, scope);
      EvolvesThrough(h, r.value, AdvanceCursor(r.value, task, completed), scope);
    }
  }

  lemma {:induction false} CommitEffectHome(s: State, effect: Effect, expected: nat, call: Option<ToolCall>,
                                            result: Option<ToolResult>, g: Guard, now: nat, scope: Scope)
    requires HomeSound(s.home, scope)
    ensures KeepsHomeOf(s, CommitEffect(s, effect, expected, call, result, g, now), scope)
  {
    hide Bound, ActiveHosted, ActiveLive, EventsNumbered, Gap, TurnsDense, CursorsBehind, TasksEvolve, JournalTask, AdvanceCursor;
    var r := CommitEffect(s, effect, expected, call, result, g, now);
    if r.Success? {
      TaskKey(s.home, effect.taskId, scope);
      JournalAndAdvanceHome(s.home, s.home.tasks[effect.taskId],
                            EventId("effect.committed", effect.id, Number(s.work.effects[effect.id].version + 1)), Some(effect.id), scope);
    }
  }

  lemma {:induction false} MarkEffectUnknownHome(s: State, effectId: Id, expected: nat, g: Guard, now: nat, scope: Scope)
    requires HomeSound(s.home, scope)
    ensures KeepsHomeOf(s, MarkEffectUnknown(s, effectId, expected, g, now), scope)
  {
    hide Bound, ActiveHosted, ActiveLive, EventsNumbered, Gap, TurnsDense, CursorsBehind, JournalTask, AdvanceCursor;
    var r := MarkEffectUnknown(s, effectId, expected, g, now);
    if r.Success? {
      var e := s.work.effects[effectId];
      TaskKey(s.home, e.taskId, scope);
      var task, unknown := s.home.tasks[e.taskId], r.value.work.effects[effectId];
      var stopped := if task.condition.RecoveryRequired? then task
                     else task.(condition := RecoveryRequired, version := task.version + 1);
      TaskMove(s.home, task.id, stopped, scope);
      var written := s.home.(tasks := s.home.tasks[task.id := stopped]);
      JournalAndAdvanceHome(written, task, EventId("effect.recovery_required", unknown.id, Number(unknown.version)), Some(effectId), scope);
      EvolvesThrough(s.home, written, r.value.home, scope);
    }
  }

  lemma {:induction false} SettleUnexecutedEffectHome(s: State, effectId: Id, status: EffectStatus, expected: nat,
                                                      call: ToolCall, result: ToolResult, g: Guard, now: nat, scope: Scope)
    requires HomeSound(s.home, scope)
    ensures KeepsHomeOf(s, SettleUnexecutedEffect(s, effectId, status, expected, call, result, g, now), scope)
  {
    hide Bound, ActiveHosted, ActiveLive, EventsNumbered, Gap, TurnsDense, CursorsBehind, JournalTask, AdvanceCursor;
    var r := SettleUnexecutedEffect(s, effectId, status, expected, call, result, g, now);
    if r.Success? && r != Success(s) {
      var e := s.work.effects[effectId];
      TaskKey(s.home, e.taskId, scope);
      JournalAndAdvanceHome(s.home, s.home.tasks[e.taskId],
                            EventId("effect.settled", e.id, Number(e.version + 1)), Some(effectId), scope);
    }
  }

  lemma {:induction false} ResolveRecoveryHome(s: State, d: Disposition, taskId: Id, expected: nat, r: Remedy, scope: Scope)
    requires HomeSound(s.home, scope)
    ensures KeepsHomeOf(s, ResolveRecovery(s, d, taskId, expected, r), scope)
  {
    hide Bound, ActiveHosted, ActiveLive, EventsNumbered, Gap, TurnsDense, CursorsBehind, LeaveRecovery, ApplyRemedy, ValidateResolution;
    var x := ResolveRecovery(s, d, taskId, expected, r);
    if x.Success? && !Disposed(s.work.dispositions, d) {
      TaskKey(s.home, taskId, scope);
      var task := s.home.tasks[taskId];
      LeaveRecoveryHome(s.home, task, d, ValidateResolution(task, s.work.effects[d.unknownEffectId], d, r).value, scope);
    }
  }

  lemma {:induction false} LeaveRecoveryHome(h: Home, task: Task, d: Disposition, target: Condition, scope: Scope)
    requires HomeSound(h, scope) && task.id in h.tasks && h.tasks[task.id] == task
    ensures KeepsHome(h, LeaveRecovery(h, task, d, target), scope)
  {
    hide EventsNumbered, Gap, TurnsDense, CursorsBehind, AdvanceCursor;
    var r := LeaveRecovery(h, task, d, target);
    if r.Success? {
      var updated := task.(condition := target, version := task.version + 1,
                           outcome := if d.kind.Abandon? then Cancelled else task.outcome);
      if task.sessionId.None? {
        TaskMove(h, task.id, updated, scope);
      } else {
        LeaveBoundHome(h, task, updated, d, scope);
      }
    }
  }

  /** The session is told first, so that no session has the task active when it ends. */
  lemma {:induction false} LeaveBoundHome(h: Home, task: Task, updated: Task, d: Disposition, scope: Scope)
    requires HomeSound(h, scope) && task.id in h.tasks && h.tasks[task.id] == task && task.sessionId.Some?
    requires task.sessionId.value in h.sessions && updated.id == task.id && updated.version == task.version + 1
    requires updated.sessionId == task.sessionId && updated.outcome == (if d.kind.Abandon? then Cancelled else task.outcome)
    ensures var session := h.sessions[task.sessionId.value];
            var owner := if d.kind.Abandon? then Deactivate(session, task.id) else session;
            var told := Journal(h.(tasks := h.tasks[task.id := updated]), owner,
                                EventId("recovery.resolved", d.id, Text(KindName(d.kind))), Some(task.id), "");
            told.Success? ==> && HomeSound(AdvanceCursor(told.value, task, None), scope)
                              && HomeEvolves(h, AdvanceCursor(told.value, task, None), scope)
  {
    hide EventsNumbered, Gap, TurnsDense, CursorsBehind, AdvanceCursor;
    var k := task.sessionId.value;
    var owner := if d.kind.Abandon? then Deactivate(h.sessions[k], task.id) else h.sessions[k];
    var told := Journal(h.(tasks := h.tasks[task.id := updated]), owner,
                        EventId("recovery.resolved", d.id, Text(KindName(d.kind))), Some(task.id), "");
    if told.Success? {
      var first := h.(sessions := told.value.sessions, events := told.value.events);
      JournalMove(h, first, k, scope);
      TaskMove(first, task.id, updated, scope);
      assert told.value == first.(tasks := first.tasks[task.id := updated]);
      EvolvesThrough(h, first, told.value, scope);
      CursorMove(told.value, task, None, scope);
      EvolvesThrough(h, told.value, AdvanceCursor(told.value, task, None), scope);
    }
  }
}
