/** Every effect, approval and recovery transaction keeps the effect-side invariants. */
module EffectProofs {
  import opened Wrappers
  import opened StoreModel
  import opened StoreInvariants
  import opened WorkMoves
  import opened EffectSpec

  /** Inserting a batch disturbs no stored row. */
  lemma {:induction false} InsertAllGrows(effects: map<Id, Effect>, batch: seq<Effect>)
    requires InsertAll(effects, batch).Success?
    ensures RowsKept(effects, InsertAll(effects, batch).value)
    ensures var after := InsertAll(effects, batch).value; forall e :: e in after && e !in effects ==> after[e].id == e
  {
    if |batch| > 0 {
      InsertAllGrows(effects, batch[..|batch| - 1]);
    }
  }

  lemma {:induction false} EffectKey(w: Work, e: Id)
    requires WorkSound(w) && e in w.effects
    ensures w.effects[e].id == e
  {
  }

  lemma {:induction false} ApprovalKey(w: Work, a: Id)
    requires WorkSound(w) && a in w.approvals
    ensures w.approvals[a].id == a && w.approvals[a].effectId in w.effects
    ensures w.approvals[a].status.Pending? ==> w.effects[w.approvals[a].effectId].status.EffectWaiting?
  {
  }

  lemma {:induction false} PrepareEffectBatchWork(s: State, step: StepRow, batch: seq<Effect>, expected: nat,
                                                  guard: Option<Guard>, now: nat)
    requires WorkSound(s.work)
    ensures KeepsWork(s, PrepareEffectBatch(s, step, batch, expected, guard, now))
  {
    hide ApprovalsUnique, PendingBacked, DispositionsSound, EffectsEvolve, ApprovalsEvolve, EntriesPaid;
    hide JournalTask, JournalApproval, AdvanceCursor, ControlPending, MaxTurn, Binds;
    hide Known, CompatibleWith, StepAccepts, BatchMatchesStep, InsertAll;
    var r := PrepareEffectBatch(s, step, batch, expected, guard, now);
    if r.Success? {
      InsertAllGrows(s.work.effects, NewEffects(s.work.effects, batch));
      GrowthMove(s.work, r.value.work);
    }
  }

  lemma {:induction false} RequestEffectApprovalWork(s: State, effectId: Id, a: Approval, expected: nat, g: Guard, now: nat)
    requires WorkSound(s.work)
    ensures KeepsWork(s, RequestEffectApproval(s, effectId, a, expected, g, now))
  {
    hide ApprovalsUnique, PendingBacked, DispositionsSound, EffectsEvolve, ApprovalsEvolve, EntriesPaid;
    hide JournalTask, JournalApproval, AdvanceCursor, ControlPending, MaxTurn, Binds;
    var r := RequestEffectApproval(s, effectId, a, expected, g, now);
    if r.Success? {
      EffectKey(s.work, effectId);
      if s.work.effects[effectId].status.EffectWaiting? {
        GrowthMove(s.work, r.value.work);
      } else {
        RequestMove(s.work, r.value.work, effectId, a);
      }
    }
  }

  lemma {:induction false} ResolveEffectApprovalWork(s: State, approvalId: Id, approved: bool, source: string, expected: nat,
                                                     workspaceRef: string, policyVersion: string, configVersion: string)
    requires WorkSound(s.work)
    ensures KeepsWork(s, ResolveEffectApproval(s, approvalId, approved, source, expected, workspaceRef, policyVersion, configVersion))
  {
    hide ApprovalsUnique, PendingBacked, DispositionsSound, EffectsEvolve, ApprovalsEvolve, EntriesPaid;
    hide JournalTask, JournalApproval, AdvanceCursor, ControlPending, MaxTurn, Binds;
    var r := ResolveEffectApproval(s, approvalId, approved, source, expected, workspaceRef, policyVersion, configVersion);
    if r.Success? {
      ApprovalKey(s.work, approvalId);
      EffectKey(s.work, s.work.approvals[approvalId].effectId);
      if s.work.approvals[approvalId].status.Pending? {
        DecisionMove(s.work, r.value.work, approvalId);
      } else {
        GrowthMove(s.work, r.value.work);
      }
    }
  }

  /** The call decides a stored request, or opens one safely. */
  predicate DecidesSafely(w: Work, a: Approval) {
    ApprovalExistsFor(w.approvals, a.effectId) || OpensSafely(w.effects, a)
  }

  lemma {:induction false} DecideApprovalWork(s: State, a: Approval, expected: Option<nat>)
    requires WorkSound(s.work) && DecidesSafely(s.work, a)
    ensures KeepsWork(s, DecideApproval(s, a, expected))
  {
    hide ApprovalsUnique, PendingBacked, DispositionsSound, EffectsEvolve, ApprovalsEvolve, EntriesPaid;
    hide JournalTask, JournalApproval, AdvanceCursor, ControlPending, MaxTurn, Binds, ApprovalExistsFor, OpensSafely;
    var r := DecideApproval(s, a, expected);
    if r.Success? {
      if !ApprovalExistsFor(s.work.approvals, a.effectId) {
        OpenMove(s.work, a);
      } else if s.work.approvals[a.id] == a {
        GrowthMove(s.work, r.value.work);
      } else {
        ApprovalKey(s.work, a.id);
        DecisionMove(s.work, r.value.work, a.id);
      }
    }
  }

  /** Opened otherwise, an approval breaks the invariants or the history. */
  lemma {:induction false} UnsafeOpeningBreaks(s: State, a: Approval, expected: Option<nat>)
    requires WorkSound(s.work) && !DecidesSafely(s.work, a) && DecideApproval(s, a, expected).Success?
    ensures !KeepsWork(s, DecideApproval(s, a, expected))
  {
    hide DispositionsSound, JournalApproval, ApprovalExistsFor;
    var w := DecideApproval(s, a, expected).value.work;
    assert w.approvals[a.id] == a && a.id !in s.work.approvals && w.effects == s.work.effects;
    if a.status.Consumed? {
      assert Consumes(s.work.approvals, w.approvals, a.id);
      assert !Enters(s.work.effects, w.effects, a.effectId);
    } else {
      assert !PendingBacked(w.effects, w.approvals);
    }
  }

  lemma {:induction false} ClaimEffectWork(s: State, effectId: Id, expected: nat, g: Guard, terms: ClaimTerms, now: nat)
    requires WorkSound(s.work)
    ensures KeepsWork(s, ClaimEffect(s, effectId, expected, g, terms, now))
  {
    hide ApprovalsUnique, PendingBacked, DispositionsSound, EffectsEvolve, ApprovalsEvolve, EntriesPaid;
    hide JournalTask, JournalApproval, AdvanceCursor, ControlPending, MaxTurn, Binds;
    var r := ClaimEffect(s, effectId, expected, g, terms, now);
    if r.Success? {
      ClaimFacts(s, effectId, expected, g, terms, now);
      var e := s.work.effects[effectId];
      EffectKey(s.work, effectId);
      if e.approvalId.Some? {
        ApprovalKey(s.work, e.approvalId.value);
      }
      ClaimMove(s.work, r.value.work, effectId);
    }
  }

  /** The rows a successful claim writes. */
  lemma {:induction false} ClaimFacts(s: State, effectId: Id, expected: nat, g: Guard, terms: ClaimTerms, now: nat)
    requires ClaimEffect(s, effectId, expected, g, terms, now).Success?
    ensures var w, w' := s.work, ClaimEffect(s, effectId, expected, g, terms, now).value.work;
      && effectId in w.effects && w.effects[effectId].status.Prepared? && !w.effects[effectId].content.decision.Deny?
      && (w.effects[effectId].content.decision.RequireApproval? ==> w.effects[effectId].approvalId.Some?)
      && var e := w.effects[effectId];
         && w'.effects == w.effects[effectId := Started(e, e.approvalId.Some?)]
         && w'.dispositions == w.dispositions && w'.observations == w.observations
         && (e.approvalId.None? ==> w'.approvals == w.approvals)
         && (e.approvalId.Some? ==>
               && e.approvalId.value in w.approvals && w.approvals[e.approvalId.value].status.Approved?
               && w.approvals[e.approvalId.value].effectId == e.id
               && var a := w.approvals[e.approvalId.value];
                  w'.approvals == w.approvals[a.id := a.(status := Consumed, version := a.version + 1)])
  {
    hide JournalTask, JournalApproval, ControlPending, MaxTurn, GuardLive;
  }

  lemma {:induction false} CommitEffectWork(s: State, effect: Effect, expected: nat, call: Option<ToolCall>,
                                            result: Option<ToolResult>, g: Guard, now: nat)
    requires WorkSound(s.work)
    ensures KeepsWork(s, CommitEffect(s, effect, expected, call, result, g, now))
  {
    hide ApprovalsUnique, PendingBacked, DispositionsSound, EffectsEvolve, ApprovalsEvolve, EntriesPaid;
    hide JournalTask, JournalApproval, AdvanceCursor, ControlPending, MaxTurn, Binds;
    var r := CommitEffect(s, effect, expected, call, result, g, now);
    if r.Success? {
      EffectKey(s.work, effect.id);
      PendingOnlyWhileWaiting(s.work, effect.id);
      EffectMove(s.work, r.value.work, effect.id);
    }
  }

  lemma {:induction false} MarkEffectUnknownWork(s: State, effectId: Id, expected: nat, g: Guard, now: nat)
    requires WorkSound(s.work)
    ensures KeepsWork(s, MarkEffectUnknown(s, effectId, expected, g, now))
  {
    hide ApprovalsUnique, PendingBacked, DispositionsSound, EffectsEvolve, ApprovalsEvolve, EntriesPaid;
    hide JournalTask, JournalApproval, AdvanceCursor, ControlPending, MaxTurn, Binds;
    var r := MarkEffectUnknown(s, effectId, expected, g, now);
    if r.Success? {
      EffectKey(s.work, effectId);
      PendingOnlyWhileWaiting(s.work, effectId);
      EffectMove(s.work, r.value.work, effectId);
    }
  }

  lemma {:induction false} SettleUnexecutedEffectWork(s: State, effectId: Id, status: EffectStatus, expected: nat,
                                                      call: ToolCall, result: ToolResult, g: Guard, now: nat)
    requires WorkSound(s.work)
    ensures KeepsWork(s, SettleUnexecutedEffect(s, effectId, status, expected, call, result, g, now))
  {
    hide ApprovalsUnique, PendingBacked, DispositionsSound, EffectsEvolve, ApprovalsEvolve, EntriesPaid;
    hide JournalTask, JournalApproval, AdvanceCursor, ControlPending, MaxTurn, Binds;
    var r := SettleUnexecutedEffect(s, effectId, status, expected, call, result, g, now);
    if r.Success? {
      var e := s.work.effects[effectId];
      EffectKey(s.work, effectId);
      if (e.taskId, call.id) in s.work.observations {
        GrowthMove(s.work, r.value.work);
      } else if e.approvalId.Some? && e.approvalId.value in s.work.approvals
                && s.work.approvals[e.approvalId.value].status.Pending? {
        ApprovalKey(s.work, e.approvalId.value);
        SettleMove(s.work, r.value.work, effectId);
      } else {
        PendingOnlyWhileWaiting(s.work, effectId);
        EffectMove(s.work, r.value.work, effectId);
      }
    }
  }

  lemma {:induction false} ResolveRecoveryWork(s: State, d: Disposition, taskId: Id, expected: nat, r: Remedy)
    requires WorkSound(s.work)
    ensures KeepsWork(s, ResolveRecovery(s, d, taskId, expected, r))
  {
    hide ApprovalsUnique, PendingBacked, DispositionsSound, EffectsEvolve, ApprovalsEvolve, EntriesPaid;
    hide JournalTask, JournalApproval, AdvanceCursor, ControlPending, MaxTurn, Binds;
    hide LeaveRecovery, Known;
    var x := ResolveRecovery(s, d, taskId, expected, r);
    if x.Success? {
      if Disposed(s.work.dispositions, d) {
        GrowthMove(s.work, x.value.work);
      } else {
        EffectKey(s.work, d.unknownEffectId);
        RemedyWork(s.work, s.home.tasks[taskId], d, r);
      }
    }
  }

  /** The remedy together with the disposition that asked for it. */
  lemma {:induction false} RemedyWork(w: Work, task: Task, d: Disposition, r: Remedy)
    requires WorkSound(w) && !Disposed(w.dispositions, d)
    requires d.unknownEffectId in w.effects && w.effects[d.unknownEffectId].status.Unknown?
    requires ValidateResolution(task, w.effects[d.unknownEffectId], d, r).Success?
    requires ApplyRemedy(w, task, w.effects[d.unknownEffectId], r).Success?
    ensures var w' := ApplyRemedy(w, task, w.effects[d.unknownEffectId], r).value.(dispositions := w.dispositions[d.id := d]);
            WorkSound(w') && WorkEvolves(w, w')
  {
    hide WorkSound, WorkEvolves, ApplyRemedy, ValidateResolution, Disposed;
    match d.kind
    case ConfirmResult => ConfirmWork(w, task, d, r);
    case CreateRetry => RetryWork(w, task, d, r);
    case Abandon => AbandonWork(w, task, d, r);
  }

  /** The disposition is new, concerns an unknown effect, and was validated. */
  ghost predicate RemedyReady(w: Work, task: Task, d: Disposition, r: Remedy) {
    && WorkSound(w) && !Disposed(w.dispositions, d)
    && d.unknownEffectId in w.effects && w.effects[d.unknownEffectId].status.Unknown?
    && ValidateResolution(task, w.effects[d.unknownEffectId], d, r).Success?
    && ApplyRemedy(w, task, w.effects[d.unknownEffectId], r).Success?
  }

  ghost predicate RemedySound(w: Work, task: Task, d: Disposition, r: Remedy)
    requires RemedyReady(w, task, d, r)
  {
    var w' := ApplyRemedy(w, task, w.effects[d.unknownEffectId], r).value.(dispositions := w.dispositions[d.id := d]);
    WorkSound(w') && WorkEvolves(w, w')
  }

  lemma {:induction false} ConfirmWork(w: Work, task: Task, d: Disposition, r: Remedy)
    requires RemedyReady(w, task, d, r) && d.kind.ConfirmResult?
    ensures RemedySound(w, task, d, r)
  {
    hide ApprovalsUnique, PendingBacked, DispositionsSound, EffectsEvolve, ApprovalsEvolve, EntriesPaid;
    var e := d.unknownEffectId;
    EffectKey(w, e);
    var mended := ApplyRemedy(w, task, w.effects[e], r).value;
    PendingOnlyWhileWaiting(w, e);
    EffectMove(w, mended, e);
    DispositionMove(mended, d);
  }

  lemma {:induction false} RetryWork(w: Work, task: Task, d: Disposition, r: Remedy)
    requires RemedyReady(w, task, d, r) && d.kind.CreateRetry?
    ensures RemedySound(w, task, d, r)
  {
    hide ApprovalsUnique, PendingBacked, DispositionsSound, EffectsEvolve, ApprovalsEvolve, EntriesPaid;
    var e := d.unknownEffectId;
    EffectKey(w, e);
    var mended := ApplyRemedy(w, task, w.effects[e], r).value;
    RetryMove(w, mended, r.retry.value.id, r.approval.value);
    RetryIsNew(w, r.retry.value.id);
    DispositionMove(mended, d);
  }

  lemma {:induction false} AbandonWork(w: Work, task: Task, d: Disposition, r: Remedy)
    requires RemedyReady(w, task, d, r) && d.kind.Abandon?
    ensures RemedySound(w, task, d, r)
  {
    hide ApprovalsUnique, PendingBacked, DispositionsSound, EffectsEvolve, ApprovalsEvolve, EntriesPaid;
    var e := d.unknownEffectId;
    EffectKey(w, e);
    var mended := ApplyRemedy(w, task, w.effects[e], r).value;
    GrowthMove(w, mended);
    DispositionMove(mended, d);
  }

  lemma {:induction false} RetryIsNew(w: Work, retry: Id)
    requires WorkSound(w) && retry !in w.effects
    ensures forall k :: k in w.dispositions && w.dispositions[k].kind.CreateRetry? ==>
              w.dispositions[k].retryEffectId != Some(retry)
  {
  }
}
