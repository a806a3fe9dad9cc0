/**
 What one transaction guarantees to the others: owners are not disturbed while their
 lease runs, one writer wins per version, decisions on approvals are honoured, stored
 results are replayed, and repeating a call changes nothing.
 */
module StoreGuarantees {
  import opened Wrappers
  import opened StoreModel
  import opened StoreInvariants
  import opened SessionSpec
  import opened LeaseSpec
  import opened EffectSpec
  import opened StoreRuns
  import opened EffectHistory
  import opened LeaseHistory
  import opened StoreTheorems

  // -------------------------------------------------------------------- owners

  /** The transaction takes the lease away on purpose. */
  predicate EndsLease(op: Op, executionId: Id) {
    op.Leases? && match op.lease
                  case ReleaseExecutionOp(g, _) => g.executionId == executionId
                  case MarkCommandRecoveryRequiredOp(x, _) => x == executionId
                  case _ => false
  }

  lemma {:induction false} ClaimSparesLive(h: Home, x: Execution, expected: Option<nat>, now: nat, g: Guard)
    requires GuardLive(h.executions, g, now) && ClaimExecution(h, x, expected, now).Success?
    ensures GuardLive(ClaimExecution(h, x, expected, now).value.executions, g, now)
  {
    hide MaxGeneration, Journal;
    var k := g.executionId;
    assert !Displaced(h.executions[k], x.sessionId, x.taskId);
    assert ClaimExecution(h, x, expected, now).value.executions[k] == h.executions[k];
  }

  lemma {:induction false} LeaseStepSparesLive(h: Home, op: LeaseOp, g: Guard, now: nat)
    requires GuardLive(h.executions, g, now) && LeasesExclusive(h.executions) && !EndsLease(Leases(op), g.executionId)
    requires ClockOf(Leases(op)).None? || ClockOf(Leases(op)) == Some(now)
    ensures var r := LeaseStep(h, op); r.Success? ==> GuardLive(r.value.executions, g, now)
  {
    hide ClaimExecution, LeasesExclusive, JournalTask, Journal;
    match op
    case ClaimExecutionOp(x, expected, t) =>
      if LeaseStep(h, op).Success? {
        ClaimSparesLive(h, x, expected, now, g);
      }
    case _ =>
  }

  lemma {:induction false} RequestSparesLive(s: State, op: EffectOp, g: Guard, now: nat)
    requires op.RequestEffectApprovalOp? && GuardLive(s.home.executions, g, now) && LeasesExclusive(s.home.executions)
    ensures var r := EffectStep(s, op); r.Success? ==> GuardLive(r.value.home.executions, g, now)
  {
    hide LeasesExclusive, JournalTask, Journal, ApprovalExistsFor, SameRequest;
    LeaseKeys(s.home.executions, op.guard.executionId);
  }

  lemma {:induction false} LeaseKeys(executions: map<Id, Execution>, k: Id)
    requires LeasesExclusive(executions)
    ensures k in executions ==> executions[k].id == k
  {
  }

  /** While its lease runs, no transaction at that time but its own release or a recovery mark stops an owner. */
  lemma {:induction false} LiveOwnerUndisturbed(s: State, op: Op, g: Guard, now: nat)
    requires LeasesExclusive(s.home.executions) && GuardLive(s.home.executions, g, now) && !EndsLease(op, g.executionId)
    requires ClockOf(op).None? || ClockOf(op) == Some(now)
    ensures GuardLive(Next(s, op).home.executions, g, now)
  {
    hide LeasesExclusive, GuardLive, SessionStep, LeaseStep;
    hide PrepareEffectBatch, RequestEffectApproval, ResolveEffectApproval, DecideApproval, ClaimEffect, CommitEffect;
    hide MarkEffectUnknown, SettleUnexecutedEffect, ResolveRecovery;
    match op
    case Sessions(o) => SessionStepLeavesLeases(s.home, s.work.effects, o);
    case Leases(o) => LeaseStepSparesLive(s.home, o, g, now);
    case Effects(o) =>
      if o.RequestEffectApprovalOp? {
        RequestSparesLive(s, o, g, now);
      }
  }

  // ------------------------------------------------------------------ versions

  /** Of all the updates of a task that expect one version, at most one in a run succeeds. */
  lemma {:induction false} OneWinnerPerVersion(ops: seq<Op>, i: nat, j: nat, a: Task, b: Task, v: nat,
                                               ga: Option<Guard>, gb: Option<Guard>, ta: nat, tb: nat)
    requires i < j < |ops| && a.id == b.id
    requires ops[i] == Sessions(UpdateTaskOp(a, v, ga, ta)) && ops[j] == Sessions(UpdateTaskOp(b, v, gb, tb))
    requires Apply(At(ops, i), ops[i]).Success?
    ensures Apply(At(ops, j), ops[j]).Failure? && At(ops, j + 1) == At(ops, j)
  {
    hide After, UpdateTask;
    AtStep(ops, i);
    AtStep(ops, j);
    UpdateRaises(At(ops, i).home, a, v, ga, ta);
    HomeBetween(ops, i + 1, j);
    UpdateChecks(At(ops, j).home, b, v, gb, tb);
  }

  lemma {:induction false} UpdateRaises(h: Home, task: Task, v: nat, guard: Option<Guard>, now: nat)
    requires UpdateTask(h, task, v, guard, now).Success?
    ensures var h' := UpdateTask(h, task, v, guard, now).value; task.id in h'.tasks && h'.tasks[task.id].version == v + 1
  {
    hide Journal, GuardLive;
  }

  lemma {:induction false} UpdateChecks(h: Home, task: Task, v: nat, guard: Option<Guard>, now: nat)
    ensures UpdateTask(h, task, v, guard, now).Success? ==> task.id in h.tasks && h.tasks[task.id].version == v
  {
    hide Journal, GuardLive;
  }

  // ----------------------------------------------------------------- approvals

  /** Once the approval of a gated effect is denied or expired the effect never starts. */
  lemma {:induction false} ClosedApprovalNeverRuns(ws: seq<Work>, i: nat, j: nat, a: Id)
    requires History(ws) && i <= j < |ws| - 1 && a in ws[i].approvals
    requires ws[i].approvals[a].status.ApprovalDenied? || ws[i].approvals[a].status.Expired?
    requires var e := ws[i].approvals[a].effectId; e in ws[i].effects && ws[i].effects[e].content.decision.RequireApproval?
    ensures !Enters(ws[j].effects, ws[j + 1].effects, ws[i].approvals[a].effectId)
  {
    hide WorkSound;
    EvolvesBetween(ws, i, j);
    assert WorkSound(ws[j]) && WorkEvolves(ws[j], ws[j + 1]);
    OneApproval(ws[j], a);
  }

  lemma {:induction false} OneApproval(w: Work, a: Id)
    requires WorkSound(w) && a in w.approvals
    ensures forall b :: b in w.approvals && w.approvals[b].effectId == w.approvals[a].effectId ==> b == a
  {
  }

  /**
   A decision is honoured by the claim that follows it: approved under matching conditions,
   the approval can be consumed under those; in every other case a gated effect is refused.
   */
  lemma {:induction false} ResolutionDecidesClaim(s: State, id: Id, approved: bool, source: string, expected: nat,
                                                  workspaceRef: string, policyVersion: string, configVersion: string,
                                                  terms: ClaimTerms)
    requires WorkSound(s.work) && id in s.work.approvals && s.work.approvals[id].status.Pending?
    requires workspaceRef != "" && policyVersion != "" && configVersion != ""
    requires ResolveEffectApproval(s, id, approved, source, expected, workspaceRef, policyVersion, configVersion).Success?
    ensures var a := s.work.approvals[id];
            var w := ResolveEffectApproval(s, id, approved, source, expected, workspaceRef, policyVersion, configVersion).value.work;
            && a.effectId in s.work.effects && s.work.effects[a.effectId].taskId in s.home.tasks && a.effectId in w.effects
            && var e, t := w.effects[a.effectId], s.home.tasks[s.work.effects[a.effectId].taskId];
               if approved && InForce(s.home.sessions, t, s.work.effects[a.effectId], a, workspaceRef, policyVersion, configVersion) then
                 && e.status.Prepared?
                 && var same := terms.(workspaceRef := Some(workspaceRef), policyVersion := Some(policyVersion),
                                       configVersion := Some(configVersion));
                    var consumed := ApprovalToConsume(w.approvals, e, t, configVersion, same);
                    consumed.Success? && consumed.value.Some? && consumed.value.value.id == id
               else
                 e.status.Denied? || (e.content.decision.RequireApproval?
                                      ==> ApprovalToConsume(w.approvals, e, t, configVersion, terms).Failure?)
  {
    hide DispositionsSound, JournalApproval;
    var a := s.work.approvals[id];
    assert s.work.effects[a.effectId].approvalId == Some(id) && s.work.effects[a.effectId].id == a.effectId && a.id == id;
  }

  // --------------------------------------------------------------- replay

  /** A committed result is what every later look at that call finds. */
  lemma {:induction false} ResultIsReplayable(ops: seq<Op>, i: nat, j: nat, e: Effect, expected: nat, call: ToolCall,
                                              result: ToolResult, g: Guard, now: nat)
    requires Deciding(ops) && i < j <= |ops|
    requires ops[i] == Effects(CommitEffectOp(e, expected, Some(call), Some(result), g, now)) && Apply(At(ops, i), ops[i]).Success?
    ensures var found := At(ops, j).work.observations;
            (e.taskId, call.id) in found && found[(e.taskId, call.id)] == Observation(call, result)
  {
    hide After, History, CommitEffect, Deciding;
    AtStep(ops, i);
    CommitObserves(At(ops, i), e, expected, call, result, g, now);
    RunIsHistory(ops);
    EvolvesBetween(Works(ops), i + 1, j);
  }

  lemma {:induction false} CommitObserves(s: State, e: Effect, expected: nat, call: ToolCall, result: ToolResult, g: Guard, now: nat)
    requires CommitEffect(s, e, expected, Some(call), Some(result), g, now).Success?
    ensures var found := CommitEffect(s, e, expected, Some(call), Some(result), g, now).value.work.observations;
            (e.taskId, call.id) in found && found[(e.taskId, call.id)] == Observation(call, result)
  {
    hide JournalTask, AdvanceCursor, GuardLive;
  }

  lemma {:induction false} InsertedIsThere(effects: map<Id, Effect>, batch: seq<Effect>)
    requires InsertAll(effects, batch).Success?
    ensures var after := InsertAll(effects, batch).value;
            && RowsKept(effects, after)
            && forall i :: 0 <= i < |batch| ==> batch[i].id in after && after[batch[i].id] == batch[i]
  {
    if |batch| > 0 {
      InsertedIsThere(effects, batch[..|batch| - 1]);
    }
  }

  lemma {:induction false} NewOrKnown(effects: map<Id, Effect>, batch: seq<Effect>, i: nat)
    requires i < |batch|
    ensures Known(effects, batch[i]) || batch[i] in NewEffects(effects, batch)
    decreases |batch|
  {
    hide Known;
    if i < |batch| - 1 {
      NewOrKnown(effects, batch[..|batch| - 1], i);
    }
  }

  lemma {:induction false} KnownStays(effects: map<Id, Effect>, after: map<Id, Effect>, e: Effect)
    requires RowsKept(effects, after) && Known(effects, e)
    ensures Known(after, e)
  {
    if e.id !in effects {
      var k :| k in effects && SameIdentity(effects[k], e);
      assert k in after && SameIdentity(after[k], e);
    }
  }

  /** After a batch is prepared every member of it is known, so preparing it again would add nothing. */
  lemma {:induction false} PreparingAgainAddsNothing(s: State, step: StepRow, batch: seq<Effect>, expected: nat,
                                                     guard: Option<Guard>, now: nat)
    requires PrepareEffectBatch(s, step, batch, expected, guard, now).Success?
    ensures var w := PrepareEffectBatch(s, step, batch, expected, guard, now).value.work;
            RowsKept(s.work.effects, w.effects) && NewEffects(w.effects, batch) == [] && w.steps[(step.taskId, step.index)] == step
  {
    hide JournalTask, Known, CompatibleWith, StepAccepts, OwnsTask, InsertAll, NewEffects;
    var w := PrepareEffectBatch(s, step, batch, expected, guard, now).value.work;
    var added := NewEffects(s.work.effects, batch);
    assert InsertAll(s.work.effects, added) == Success(w.effects);
    InsertedIsThere(s.work.effects, added);
    forall i | 0 <= i < |batch|
      ensures Known(w.effects, batch[i])
    {
      NewOrKnown(s.work.effects, batch, i);
      if Known(s.work.effects, batch[i]) {
        KnownStays(s.work.effects, w.effects, batch[i]);
      } else {
        var k :| 0 <= k < |added| && added[k] == batch[i];
        StoredIsKnown(w.effects, batch[i]);
      }
    }
    AllKnown(w.effects, batch);
  }

  lemma {:induction false} StoredIsKnown(effects: map<Id, Effect>, e: Effect)
    requires e.id in effects
    ensures Known(effects, e)
  {
  }

  lemma {:induction false} AllKnown(effects: map<Id, Effect>, batch: seq<Effect>)
    requires forall i :: 0 <= i < |batch| ==> Known(effects, batch[i])
    ensures NewEffects(effects, batch) == []
  {
    hide Known;
    if |batch| > 0 {
      AllKnown(effects, batch[..|batch| - 1]);
    }
  }

  /** Repeating a recovery decision changes nothing, and no second decision on its effect is accepted. */
  lemma {:induction false} RecoveryDecidedForGood(s: State, d: Disposition, taskId: Id, expected: nat, remedy: Remedy,
                                                  other: Disposition, again: nat, another: Remedy)
    requires WorkSound(s.work) && ResolveRecovery(s, d, taskId, expected, remedy).Success?
    requires other.unknownEffectId == d.unknownEffectId
    ensures var s' := ResolveRecovery(s, d, taskId, expected, remedy).value;
            && d.id in s'.work.dispositions && s'.work.dispositions[d.id] == d
            && var r := ResolveRecovery(s', other, taskId, again, another);
               (r.Success? ==> other == d && r.value == s')
  {
    hide LeaveRecovery, ApplyRemedy, ValidateResolution;
    var s' := ResolveRecovery(s, d, taskId, expected, remedy).value;
    assert d.id in s'.work.dispositions && s'.work.dispositions[d.id] == d;
    if s' == s {
      assert Disposed(s.work.dispositions, d);
    }
    assert Disposed(s'.work.dispositions, other) by {
      assert s'.work.dispositions[d.id].unknownEffectId == other.unknownEffectId;
    }
  }
}
