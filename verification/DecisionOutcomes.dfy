/**
 What preparing effects, asking for an approval, deciding it and resolving a recovery
 leave in the tables, row by row.
 */
module DecisionOutcomes {
  import opened Wrappers
  import opened StoreModel
  import opened StoreInvariants
  import opened SessionSpec
  import opened EffectSpec
  import opened StoreRuns
  import opened StoreLimits
  import opened StoreGuarantees
  import opened RowChanges
  import opened EffectOutcomes

  // ------------------------------------------------------------------ preparing

  /** The effect is stored as handed in, or an effect of the same id or place was there with this content. */
  ghost predicate Kept(before: map<Id, Effect>, after: map<Id, Effect>, e: Effect) {
    || (e.id in after && after[e.id] == e)
    || (e.id in before && SameCall(before[e.id], e))
    || (exists k :: k in before && SameCall(before[k], e))
  }

  lemma {:induction false} CompatibleKept(before: map<Id, Effect>, e: Effect)
    requires Known(before, e) && CompatibleWith(before, e) && forall k :: k in before ==> before[k].id == k
    ensures exists k :: k in before && SameCall(before[k], e)
  {
    if e.id in before {
      assert SameCall(before[e.id], e);
    } else {
      var k :| k in before && SameIdentity(before[k], e);
      assert SameCall(before[k], e);
    }
  }

  lemma {:induction false} NewComeFromBatch(effects: map<Id, Effect>, batch: seq<Effect>)
    ensures forall e :: e in NewEffects(effects, batch) ==> e in batch && !Known(effects, e)
  {
    hide Known;
    if |batch| > 0 {
      NewComeFromBatch(effects, batch[..|batch| - 1]);
      assert batch == batch[..|batch| - 1] + [batch[|batch| - 1]];
    }
  }

  lemma {:induction false} InsertedOnly(effects: map<Id, Effect>, batch: seq<Effect>)
    requires InsertAll(effects, batch).Success?
    ensures forall k :: k in InsertAll(effects, batch).value && k !in effects ==> InsertAll(effects, batch).value[k] in batch
  {
    if |batch| > 0 {
      InsertedOnly(effects, batch[..|batch| - 1]);
      InsertedIsThere(effects, batch[..|batch| - 1]);
      assert batch == batch[..|batch| - 1] + [batch[|batch| - 1]];
    }
  }

  /**
   A prepared batch lists the effects of the step in order; each of them is stored or was
   known with this content, no stored effect changes, and nothing but the batch is added.
   */
  lemma {:induction false} PrepareEffectBatchOutcome(s: State, step: StepRow, batch: seq<Effect>, expected: nat,
                                                     guard: Option<Guard>, now: nat)
    requires Inv(s, ALWAYS) && PrepareEffectBatch(s, step, batch, expected, guard, now).Success?
    ensures var s' := PrepareEffectBatch(s, step, batch, expected, guard, now).value;
            && step.taskId in s.home.tasks && s.home.tasks[step.taskId].version == expected
            && (s.home.tasks[step.taskId].sessionId.Some? ==>
                  guard.Some? && guard.value.taskId == step.taskId && Owner(s.home, guard.value, now))
            && |step.effectIds| == |batch| && step.response.Some?
            && (forall i :: 0 <= i < |batch| ==>
                  && step.effectIds[i] == batch[i].id && batch[i].taskId == step.taskId && batch[i].stepId == step.id
                  && batch[i].position == i)
            && s'.work == s.work.(effects := s'.work.effects, steps := s.work.steps[(step.taskId, step.index) := step])
            && ((step.taskId, step.index) in s.work.steps ==>
                  var was := s.work.steps[(step.taskId, step.index)];
                  && was.id == step.id && (was.response.Some? ==> was.response == step.response)
                  && (was.effectIds != [] ==> was.effectIds == step.effectIds))
  {
    hide Inv, JournalTask, Known, CompatibleWith, InsertAll, NewEffects, Readable;
    InvTask(s, step.taskId);
    if guard.Some? {
      OwnerIff(s.home, guard.value, now);
    }
  }

  lemma {:induction false} PreparedEffects(s: State, step: StepRow, batch: seq<Effect>, expected: nat,
                                           guard: Option<Guard>, now: nat)
    requires Inv(s, ALWAYS) && PrepareEffectBatch(s, step, batch, expected, guard, now).Success?
    ensures var s' := PrepareEffectBatch(s, step, batch, expected, guard, now).value;
            && RowsKept(s.work.effects, s'.work.effects)
            && (forall i :: 0 <= i < |batch| ==> Kept(s.work.effects, s'.work.effects, batch[i]))
            && (forall k :: k in s'.work.effects && k !in s.work.effects ==> s'.work.effects[k] in batch)
  {
    hide Inv, JournalTask, Known, CompatibleWith, StepAccepts, OwnsTask, InsertAll, NewEffects, Kept, Readable, BatchMatchesStep;
    var s' := PrepareEffectBatch(s, step, batch, expected, guard, now).value;
    var added := NewEffects(s.work.effects, batch);
    assert InsertAll(s.work.effects, added) == Success(s'.work.effects);
    InsertedIsThere(s.work.effects, added);
    InsertedOnly(s.work.effects, added);
    NewComeFromBatch(s.work.effects, batch);
    InvKeys(s);
    forall i | 0 <= i < |batch|
      ensures Kept(s.work.effects, s'.work.effects, batch[i])
    {
      NewOrKnown(s.work.effects, batch, i);
      if Known(s.work.effects, batch[i]) {
        CompatibleKept(s.work.effects, batch[i]);
        ShowKept(s.work.effects, s'.work.effects, batch[i]);
      } else {
        var k :| 0 <= k < |added| && added[k] == batch[i];
        ShowKept(s.work.effects, s'.work.effects, batch[i]);
      }
    }
  }

  lemma {:induction false} ShowKept(before: map<Id, Effect>, after: map<Id, Effect>, e: Effect)
    requires (e.id in after && after[e.id] == e) || exists k :: k in before && SameCall(before[k], e)
    ensures Kept(before, after, e)
  {
  }

  lemma {:induction false} InvKeys(s: State)
    requires Inv(s, ALWAYS)
    ensures forall k :: k in s.work.effects ==> s.work.effects[k].id == k
  {
    hide DispositionsSound, PendingBacked, LeasesExclusive, HomeSound;
  }

  // ------------------------------------------------------------------ approvals

  /** The approval asks for the very thing that the stored one asks for, both undecided. */
  predicate AsksTheSame(a: Approval, b: Approval) {
    a.status.Pending? && b.status.Pending?
    && a == b.(source := a.source, version := a.version)
  }

  /** Execution and task wait; the effect waits on the request, which is stored unless it was there already. */
  lemma {:induction false} RequestEffectApprovalOutcome(s: State, id: Id, a: Approval, expected: nat, g: Guard, now: nat)
    requires Inv(s, ALWAYS) && RequestEffectApproval(s, id, a, expected, g, now).Success?
    ensures var s' := RequestEffectApproval(s, id, a, expected, g, now).value;
            && Owner(s.home, g, now) && id in s.work.effects && a.effectId == id && a.status.Pending?
            && var e, x := s.work.effects[id], s.home.executions[g.executionId];
               && e.version == expected && e.taskId == g.taskId && e.taskId in s.home.tasks
               && var task := s.home.tasks[e.taskId];
                  && s'.home.executions == s.home.executions[g.executionId := x.(status := ExecutionWaiting, version := x.version + 1)]
                  && s'.home.tasks == s.home.tasks[e.taskId := task.(condition := WaitingForApproval, version := task.version + 1)]
                  && s'.home == s.home.(sessions := s'.home.sessions, events := s'.home.events,
                                        executions := s'.home.executions, tasks := s'.home.tasks)
                  && if e.status.EffectWaiting? then
                       && s'.work == s.work && e.approvalId.Some? && e.approvalId.value in s.work.approvals
                       && AsksTheSame(s.work.approvals[e.approvalId.value], a)
                       && s'.home.events == s.home.events && s'.home.sessions == s.home.sessions
                     else
                       && e.status.Prepared? && task.condition.Running? && a.id !in s.work.approvals
                       && (forall p :: p in s.work.approvals ==> s.work.approvals[p].effectId != id)
                       && s'.work == s.work.(effects := s.work.effects[id := e.(status := EffectWaiting, approvalId := Some(a.id),
                                                                                version := e.version + 1)],
                                             approvals := s.work.approvals[a.id := a])
  {
    hide Inv, GuardLive, JournalTask, Readable;
    OwnerIff(s.home, g, now);
    OwnedTask(s, g, now);
    InvOwned(s, g);
    InvRows(s, id);
    InvTask(s, s.work.effects[id].taskId);
  }

  /** The conditions the approval was asked under still hold and are the ones it is decided under. */
  predicate Unchanged(h: Home, task: Task, e: Effect, a: Approval, workspaceRef: string, policyVersion: string, configVersion: string)
    requires task.sessionId.Some? ==> task.sessionId.value in h.sessions
  {
    && a.fingerprint == e.content && a.arguments == e.content.arguments
    && a.workspaceRef == workspaceRef == task.repository && a.policyVersion == policyVersion
    && a.configVersion == configVersion
    && (task.sessionId.Some? ==> h.sessions[task.sessionId.value].configVersion == configVersion)
  }

  /**
   A decision on an open request: approved or denied if nothing changed since it was asked,
   expired otherwise. The effect is free again, or closed when denied; an expired request is
   taken off it. The task stops waiting. A repeated decision changes nothing.
   */
  lemma {:induction false} ResolveEffectApprovalOutcome(s: State, id: Id, approved: bool, source: string, expected: nat,
                                                        workspaceRef: string, policyVersion: string, configVersion: string)
    requires Inv(s, ALWAYS)
    requires ResolveEffectApproval(s, id, approved, source, expected, workspaceRef, policyVersion, configVersion).Success?
    ensures var s' := ResolveEffectApproval(s, id, approved, source, expected, workspaceRef, policyVersion, configVersion).value;
            && id in s.work.approvals
            && var a := s.work.approvals[id];
               && a.effectId in s.work.effects && s.work.effects[a.effectId].taskId in s.home.tasks
               && var e, task := s.work.effects[a.effectId], s.home.tasks[s.work.effects[a.effectId].taskId];
                  && (task.sessionId.Some? ==> task.sessionId.value in s.home.sessions)
                  && if !a.status.Pending? then
                       && s' == s && a.source == Some(source)
                       && (if approved then a.status.Approved? || a.status.Consumed? else a.status.ApprovalDenied?)
                     else
                       var same := Unchanged(s.home, task, e, a, workspaceRef, policyVersion, configVersion);
                       && a.version == expected
                       && s'.work == s.work.(approvals := s'.work.approvals, effects := s'.work.effects)
                       && s'.work.approvals == s.work.approvals[id := a.(
                            status := if same && approved then Approved else if same then ApprovalDenied else Expired,
                            source := Some(source), version := a.version + 1)]
                       && s'.work.effects == s.work.effects[a.effectId := e.(
                            status := if same && !approved then Denied else Prepared,
                            approvalId := if same then e.approvalId else None, version := e.version + 1)]
                       && s'.home == s.home.(sessions := s'.home.sessions, events := s'.home.events, tasks := s'.home.tasks)
                       && s'.home.tasks == s.home.tasks[task.id := if task.condition.WaitingForApproval?
                                                                  then task.(condition := Idle, version := task.version + 1) else task]
                       && Logs(s.home, s'.home, task, [EventId(if same then "approval.decided" else "approval.expired", id,
                                                               Number(a.version + 1))])
  {
    hide Inv, JournalTask, Logs, Readable;
    var a := s.work.approvals[id];
    InvRows(s, a.effectId);
    var e := s.work.effects[a.effectId];
    InvTask(s, e.taskId);
    var task := s.home.tasks[e.taskId];
    if a.status.Pending? {
      ResolvedWhilePending(s, id, approved, source, expected, workspaceRef, policyVersion, configVersion);
    }
  }

  lemma {:induction false} ResolvedWhilePending(s: State, id: Id, approved: bool, source: string, expected: nat,
                                                workspaceRef: string, policyVersion: string, configVersion: string)
    requires ResolveEffectApproval(s, id, approved, source, expected, workspaceRef, policyVersion, configVersion).Success?
    requires id in s.work.approvals && s.work.approvals[id].status.Pending? && s.work.approvals[id].id == id
    requires var a := s.work.approvals[id]; a.effectId in s.work.effects && s.work.effects[a.effectId].id == a.effectId
    requires var t := s.work.effects[s.work.approvals[id].effectId].taskId;
             t in s.home.tasks && s.home.tasks[t].id == t && Keyed(s.home, s.home.tasks[t])
    ensures var s' := ResolveEffectApproval(s, id, approved, source, expected, workspaceRef, policyVersion, configVersion).value;
            var a := s.work.approvals[id];
            var e := s.work.effects[a.effectId];
            var task := s.home.tasks[e.taskId];
            var matched := Unchanged(s.home, task, e, a, workspaceRef, policyVersion, configVersion);
            && a.version == expected
            && s'.work == s.work.(approvals := s.work.approvals[id := Verdict(a, matched, approved, source)],
                                  effects := s.work.effects[e.id := Resumed(e, matched, approved)])
            && s'.home == s.home.(sessions := s'.home.sessions, events := s'.home.events,
                                  tasks := s.home.tasks[task.id := Unblocked(task)])
            && Logs(s.home, s'.home, task, [EventId(if matched then "approval.decided" else "approval.expired", id,
                                                    Number(a.version + 1))])
  {
    hide JournalTask, JournalApproval, Logs, Readable, Unblocked, Verdict, Resumed, InForce, Unchanged;
    var a := s.work.approvals[id];
    var e := s.work.effects[a.effectId];
    var task := s.home.tasks[e.taskId];
    UnchangedIff(s.home, task, e, a, workspaceRef, policyVersion, configVersion);
    var matched := Unchanged(s.home, task, e, a, workspaceRef, policyVersion, configVersion);
    var h := s.home.(tasks := s.home.tasks[task.id := Unblocked(task)]);
    var kind := if matched then "approval.decided" else "approval.expired";
    ResumedIdentity(task, e, matched, approved, a, source);
    DecisionIsJournaled(s, h, e, Resumed(e, matched, approved), a, Verdict(a, matched, approved, source), kind, task);
  }

  lemma {:induction false} UnchangedIff(h: Home, task: Task, e: Effect, a: Approval, workspaceRef: string, policyVersion: string,
                                        configVersion: string)
    requires Keyed(h, task) && a.effectId == e.id
    ensures Unchanged(h, task, e, a, workspaceRef, policyVersion, configVersion)
            <==> InForce(h.sessions, task, e, a, workspaceRef, policyVersion, configVersion)
  {
  }

  lemma {:induction false} ResumedIdentity(task: Task, e: Effect, matched: bool, approved: bool, a: Approval, source: string)
    ensures var f, b, t := Resumed(e, matched, approved), Verdict(a, matched, approved, source), Unblocked(task);
            f.id == e.id && f.taskId == e.taskId && b.id == a.id && b.effectId == a.effectId && b.version == a.version + 1
            && t.id == task.id && t.sessionId == task.sessionId
  {
  }

  lemma {:induction false} DecisionIsJournaled(s: State, h: Home, e: Effect, f: Effect, a: Approval, b: Approval, kind: string, task: Task)
    requires f.id == e.id && f.taskId == e.taskId == task.id && b.effectId == e.id && b.id == a.id && b.version == a.version + 1
    requires Keyed(s.home, task) && task.id in h.tasks && h.tasks[task.id].id == task.id && h.tasks[task.id].sessionId == task.sessionId
    requires h == s.home.(tasks := h.tasks)
    ensures var r := JournalApproval(h, s.work.effects[e.id := f], b, kind);
            r.Success? ==>
              && r.value == s.home.(tasks := h.tasks, sessions := r.value.sessions, events := r.value.events)
              && Logs(s.home, r.value, task, [EventId(kind, a.id, Number(a.version + 1))])
  {
    hide JournalTask, Logs, Readable;
    var id := EventId(kind, a.id, Number(a.version + 1));
    SameKeyed(s.home, h, task);
    SameSession(h, task, h.tasks[task.id], id);
    if JournalTask(h, task, id).Success? {
      JournalLogs(h, task, id);
      LogsFrom(s.home, h, JournalTask(h, task, id).value, task, [id], None);
    }
  }

  /** The journal looks only at the id and the session of a task. */
  lemma {:induction false} SameSession(h: Home, a: Task, b: Task, id: EventId)
    requires a.id == b.id && a.sessionId == b.sessionId
    ensures JournalTask(h, a, id) == JournalTask(h, b, id)
  {
  }

  /** A recorded decision stores the row as given: the first one of its effect, or the next version of an open one. */
  lemma {:induction false} DecideApprovalOutcome(s: State, a: Approval, expected: Option<nat>)
    requires Inv(s, ALWAYS) && DecideApproval(s, a, expected).Success?
    ensures var s' := DecideApproval(s, a, expected).value;
            && a.effectId in s.work.effects
            && s'.work == s.work.(approvals := s.work.approvals[a.id := a])
            && s'.home == s.home.(sessions := s'.home.sessions, events := s'.home.events)
            && if a.id in s.work.approvals then
                 && s.work.approvals[a.id].effectId == a.effectId
                 && (s.work.approvals[a.id] == a ==> s' == s)
                 && (s.work.approvals[a.id] != a ==>
                       && s.work.approvals[a.id].status.Pending? && a.version == s.work.approvals[a.id].version + 1
                       && (expected.Some? ==> expected.value == s.work.approvals[a.id].version)
                       && (a.status.Approved? || a.status.ApprovalDenied? || a.status.Expired?))
               else forall p :: p in s.work.approvals ==> s.work.approvals[p].effectId != a.effectId
  {
    hide Inv, JournalTask, Readable;
    if a.id in s.work.approvals && s.work.approvals[a.id] == a {
      assert s.work.approvals[a.id := a] == s.work.approvals;
    }
  }

  // ------------------------------------------------------------------- recovery

  /** What every first decision on an unknown effect finds and does besides its remedy. */
  ghost predicate Decides(s: State, s': State, d: Disposition, taskId: Id, expected: nat, condition: Condition, outcome: TaskOutcome) {
    && taskId in s.home.tasks && d.unknownEffectId in s.work.effects && d.evidence != ""
    && var task, u := s.home.tasks[taskId], s.work.effects[d.unknownEffectId];
       && task.version == expected && task.condition.RecoveryRequired? && u.taskId == taskId && u.status.Unknown?
       && s'.work.dispositions == s.work.dispositions[d.id := d] && s'.work.steps == s.work.steps
       && s'.home.tasks == s.home.tasks[taskId := task.(condition := condition, outcome := outcome, version := task.version + 1)]
       && s'.home == s.home.(sessions := s'.home.sessions, events := s'.home.events, checkpoints := s'.home.checkpoints,
                             tasks := s'.home.tasks)
  }

  /** Nothing was decided under this id or about this effect. */
  ghost predicate FirstDecision(s: State, d: Disposition) {
    forall k :: k in s.work.dispositions ==> k != d.id && s.work.dispositions[k].unknownEffectId != d.unknownEffectId
  }

  lemma {:induction false} FirstIff(s: State, d: Disposition)
    ensures FirstDecision(s, d) <==> !Disposed(s.work.dispositions, d)
  {
  }

  lemma {:induction false} LeavesRecovery(h: Home, task: Task, d: Disposition, target: Condition)
    requires LeaveRecovery(h, task, d, target).Success?
    ensures var h' := LeaveRecovery(h, task, d, target).value;
            && h'.tasks == h.tasks[task.id := task.(condition := target, version := task.version + 1,
                                                    outcome := if d.kind.Abandon? then Cancelled else task.outcome)]
            && h' == h.(sessions := h'.sessions, events := h'.events, checkpoints := h'.checkpoints, tasks := h'.tasks)
  {
    hide AdvanceCursor, Journal;
  }

  /** What the transaction is made of, once nothing was decided before. */
  lemma {:induction false} FirstResolution(s: State, d: Disposition, taskId: Id, expected: nat, remedy: Remedy)
    requires Inv(s, ALWAYS) && FirstDecision(s, d) && ResolveRecovery(s, d, taskId, expected, remedy).Success?
    ensures taskId in s.home.tasks && d.unknownEffectId in s.work.effects
    ensures var s' := ResolveRecovery(s, d, taskId, expected, remedy).value;
            var task, u := s.home.tasks[taskId], s.work.effects[d.unknownEffectId];
            var target, mended := ValidateResolution(task, u, d, remedy), ApplyRemedy(s.work, task, u, remedy);
            && target.Success? && mended.Success? && u.id == d.unknownEffectId && task.id == taskId
            && s'.work == mended.value.(dispositions := s.work.dispositions[d.id := d])
            && (d.evidence != "" && mended.value.steps == s.work.steps ==>
                  Decides(s, s', d, taskId, expected, target.value, if d.kind.Abandon? then Cancelled else task.outcome))
  {
    hide Inv, ValidateResolution, ApplyRemedy, LeaveRecovery, Disposed, FirstDecision, Readable;
    FirstIff(s, d);
    InvTask(s, taskId);
    InvRows(s, d.unknownEffectId);
    var task, u := s.home.tasks[taskId], s.work.effects[d.unknownEffectId];
    LeavesRecovery(s.home, task, d, ValidateResolution(task, u, d, remedy).value);
  }

  /** Confirming: the effect takes the result of its own call, which is stored, and the task goes on or stays ended. */
  lemma {:induction false} ConfirmOutcome(s: State, d: Disposition, taskId: Id, expected: nat, remedy: Remedy)
    requires Inv(s, ALWAYS) && FirstDecision(s, d) && d.kind.ConfirmResult?
    requires ResolveRecovery(s, d, taskId, expected, remedy).Success?
    ensures var s' := ResolveRecovery(s, d, taskId, expected, remedy).value;
            && taskId in s.home.tasks && d.unknownEffectId in s.work.effects
            && var task, u := s.home.tasks[taskId], s.work.effects[d.unknownEffectId];
               && Decides(s, s', d, taskId, expected, if task.outcome.Active? then Idle else Ended, task.outcome)
               && remedy.call.Some? && remedy.result.Some? && remedy.retry.None? && remedy.approval.None?
               && remedy.call.value == ToolCall(u.callId, u.content.tool, u.content.arguments)
               && remedy.result.value.callId == u.callId && remedy.result.value.toolName == u.content.tool
               && s'.work.effects == s.work.effects[d.unknownEffectId := u.(
                    status := if remedy.result.value.success then Succeeded else EffectFailed, version := u.version + 1)]
               && s'.work.approvals == s.work.approvals
               && Records(s, u, remedy.call, remedy.result)
               && s'.work.observations
                  == s.work.observations[(taskId, u.callId) := Observation(remedy.call.value, remedy.result.value)]
  {
    hide Inv, FirstDecision, ResolveRecovery, Observe, Decides;
    FirstResolution(s, d, taskId, expected, remedy);
    var task, u := s.home.tasks[taskId], s.work.effects[d.unknownEffectId];
    var confirmed := Confirms(u, remedy.call.value, remedy.result.value);
    assert confirmed;
    UnknownTask(s, d, taskId, expected, remedy);
    ObserveIff(s, u, remedy.call.value, remedy.result.value);
  }

  lemma {:induction false} UnknownTask(s: State, d: Disposition, taskId: Id, expected: nat, remedy: Remedy)
    requires FirstDecision(s, d) && ResolveRecovery(s, d, taskId, expected, remedy).Success?
    ensures d.unknownEffectId in s.work.effects && s.work.effects[d.unknownEffectId].taskId == taskId
    ensures s.work.effects[d.unknownEffectId].status.Unknown?
  {
    hide ValidateResolution, ApplyRemedy, LeaveRecovery, Disposed, FirstDecision, Readable;
    FirstIff(s, d);
  }

  /**
   Retrying: a new effect that makes the very same call, gated, waiting on a new open approval of exactly
   that call in this place; the unknown effect stays as it is and its call is answered as not successful.
   */
  lemma {:induction false} RetryOutcome(s: State, d: Disposition, taskId: Id, expected: nat, remedy: Remedy)
    requires Inv(s, ALWAYS) && FirstDecision(s, d) && d.kind.CreateRetry?
    requires ResolveRecovery(s, d, taskId, expected, remedy).Success?
    ensures var s' := ResolveRecovery(s, d, taskId, expected, remedy).value;
            && taskId in s.home.tasks && d.unknownEffectId in s.work.effects
            && var task, u := s.home.tasks[taskId], s.work.effects[d.unknownEffectId];
               && Decides(s, s', d, taskId, expected, WaitingForApproval, task.outcome) && task.outcome.Active? && d.riskAcknowledged
               && remedy.call.None? && remedy.result.None? && remedy.retry.Some? && remedy.approval.Some?
               && var f, a := remedy.retry.value, remedy.approval.value;
                  && d.retryEffectId == Some(f.id) && f.id !in s.work.effects && f.taskId == taskId && f.retryOf == Some(d.unknownEffectId)
                  && f.content.tool == u.content.tool && f.content.arguments == u.content.arguments
                  && f.content.decision.RequireApproval? && f.content.approvalRequired && f.content.preparationError.None?
                  && a.id !in s.work.approvals && a.status.Pending? && a.effectId == f.id && a.fingerprint == f.content
                  && a.arguments == f.content.arguments && a.workspaceRef == task.repository
                  && s'.work.effects == s.work.effects[f.id := f.(status := EffectWaiting, approvalId := Some(a.id))]
                  && s'.work.approvals == s.work.approvals[a.id := a]
                  && (taskId, u.callId) !in s.work.observations
                  && s'.work.observations.Keys == s.work.observations.Keys + {(taskId, u.callId)}
                  && RowsKept(s.work.observations, s'.work.observations)
                  && s'.work.observations[(taskId, u.callId)].call == ToolCall(u.callId, u.content.tool, u.content.arguments)
                  && !s'.work.observations[(taskId, u.callId)].result.success
  {
    hide Inv, FirstDecision, ResolveRecovery, Observe, Decides, ApprovalExistsFor;
    FirstResolution(s, d, taskId, expected, remedy);
  }

  /** Abandoning: the effects stay as they are, the task is cancelled and its session lets it go. */
  lemma {:induction false} AbandonOutcome(s: State, d: Disposition, taskId: Id, expected: nat, remedy: Remedy)
    requires Inv(s, ALWAYS) && FirstDecision(s, d) && d.kind.Abandon?
    requires ResolveRecovery(s, d, taskId, expected, remedy).Success?
    ensures var s' := ResolveRecovery(s, d, taskId, expected, remedy).value;
            && Decides(s, s', d, taskId, expected, Ended, Cancelled)
            && s'.work == s.work.(dispositions := s.work.dispositions[d.id := d])
            && remedy == Remedy(None, None, None, None) && d.retryEffectId.None?
  {
    hide Inv, FirstDecision, ResolveRecovery, Observe, Decides;
    FirstResolution(s, d, taskId, expected, remedy);
  }

  /** An abandoned task is no session's active task. */
  lemma {:induction false} AbandonedLetGo(s: State, d: Disposition, taskId: Id, expected: nat, remedy: Remedy)
    requires Inv(s, ALWAYS) && FirstDecision(s, d) && d.kind.Abandon?
    requires ResolveRecovery(s, d, taskId, expected, remedy).Success?
    ensures var sessions := ResolveRecovery(s, d, taskId, expected, remedy).value.home.sessions;
            forall k :: k in sessions && s.home.tasks[taskId].sessionId == Some(k) ==> sessions[k].activeTask != Some(taskId)
  {
    hide Inv, FirstDecision, ValidateResolution, ApplyRemedy, Disposed, Readable, EventClash;
    FirstIff(s, d);
    InvTask(s, taskId);
  }
}
