/**
 What callers find at any later time: a tool was started only on the latest input and
 with a matching approval, a committed result is what everyone sees, an unknown effect
 waits for a confirmation, and of two writers that expect one version one wins.
 */
module StoreOutcomes {
  import opened Wrappers
  import opened StoreModel
  import opened StoreInvariants
  import opened EffectSpec
  import opened StoreRuns
  import opened EffectHistory
  import opened StoreTheorems
  import opened StoreLimits
  import opened RowChanges
  import opened EffectOutcomes
  import opened DecisionOutcomes

  // --------------------------------------------------------------------- claims

  /**
   In every run: a tool is started only by the current owner, after every turn of the session that
   it was told of and no other, with no pause or cancellation asked for, and with an approval, if
   any, of exactly this call, place, policy and configuration.
   */
  lemma {:induction false} ClaimSawLatestInput(ops: seq<Op>, i: nat, id: Id, expected: nat, g: Guard, terms: ClaimTerms, now: nat)
    requires i < |ops| && ops[i] == Effects(ClaimEffectOp(id, expected, g, terms, now)) && Apply(At(ops, i), ops[i]).Success?
    ensures var s := At(ops, i);
            && Owner(s.home, g, now) && id in s.work.effects && s.work.effects[id].taskId in s.home.tasks
            && var e := s.work.effects[id];
               var task := s.home.tasks[e.taskId];
               && e.status.Prepared? && e.version == expected
               && (task.sessionId.Some? && terms.inputSequence.Some? ==>
                     |SessionTurns(s.home.turns, task.sessionId.value)| == terms.inputSequence.value)
               && (forall c :: c in s.home.controls && s.home.controls[c].taskId == e.taskId ==>
                     !s.home.controls[c].status.Requested? && !s.home.controls[c].status.Acknowledged?)
               && (e.content.decision.RequireApproval? ==> e.approvalId.Some?)
               && (e.approvalId.Some? ==>
                     && e.approvalId.value in s.work.approvals
                     && var a := s.work.approvals[e.approvalId.value];
                        && a.status.Approved? && a.effectId == e.id && a.fingerprint == e.content
                        && a.arguments == e.content.arguments && a.workspaceRef == task.repository
                        && (terms.workspaceRef.Some? ==> a.workspaceRef == terms.workspaceRef.value)
                        && (terms.policyVersion.Some? && terms.policyVersion.value != "" ==>
                              a.policyVersion == terms.policyVersion.value)
                        && (terms.configVersion.Some? ==> a.configVersion == terms.configVersion.value))
  {
    hide After, ClaimEffect, HomeSound, SessionTurns;
    AlwaysClean(ops[..i]);
    HomeRun(ops[..i], ALWAYS);
    ClaimFinds(At(ops, i), id, expected, g, terms, now);
  }

  // -------------------------------------------------------------------- results

  lemma {:induction false} RunInv(ops: seq<Op>, i: nat)
    requires Deciding(ops) && i <= |ops|
    ensures Inv(At(ops, i), ALWAYS)
  {
    hide After, HomeSound, WorkSound, LeasesExclusive;
    AlwaysClean(ops[..i]);
    HomeRun(ops[..i], ALWAYS);
    LeaseRun(ops[..i]);
    DecidingPrefix(ops, i);
    WorkRun(ops[..i]);
  }

  lemma {:induction false} ClosedStays(ws: seq<Work>, i: nat, j: nat, e: Id)
    requires History(ws) && i <= j < |ws| && e in ws[i].effects
    requires ws[i].effects[e].status.Succeeded? || ws[i].effects[e].status.EffectFailed?
    ensures e in ws[j].effects && ws[j].effects[e].status == ws[i].effects[e].status
    decreases j - i
  {
    hide WorkSound, ApprovalsEvolve, EntriesPaid, RowsKept;
    if i < j {
      ClosedStays(ws, i, j - 1, e);
      assert WorkEvolves(ws[j - 1], ws[j - 1 + 1]);
    }
  }

  /**
   After a commit the effect has the committed status, its old content and the next version. From then
   on every state shows the same success or failure; an unknown one stays the same row until confirmed.
   */
  lemma {:induction false} CommittedIsShown(ops: seq<Op>, i: nat, j: nat, effect: Effect, expected: nat, call: Option<ToolCall>,
                                            result: Option<ToolResult>, g: Guard, now: nat)
    requires Deciding(ops) && i < j <= |ops|
    requires ops[i] == Effects(CommitEffectOp(effect, expected, call, result, g, now)) && Apply(At(ops, i), ops[i]).Success?
    ensures var before, after, later := At(ops, i).work, At(ops, i + 1).work, At(ops, j).work;
            && effect.id in before.effects && effect.id in later.effects
            && after.effects == before.effects[effect.id := effect.(version := expected + 1)]
            && before.effects[effect.id].content == effect.content == later.effects[effect.id].content
            && before.effects[effect.id].version == expected
            && after.approvals == before.approvals && after.dispositions == before.dispositions
            && (!effect.status.Unknown? ==> later.effects[effect.id].status == effect.status)
            && (effect.status.Unknown? ==>
                  later.effects[effect.id] == effect.(version := expected + 1) || Confirmed(later, effect.id))
  {
    hide After, CommitEffect, Inv, History, Deciding, Confirmed;
    AtStep(ops, i);
    RunInv(ops, i);
    RunIsHistory(ops);
    CommitEffectIff(At(ops, i), effect, expected, call, result, g, now);
    EvolvesBetween(Works(ops), i + 1, j);
    if effect.status.Unknown? {
      UnknownUntilConfirmed(ops, i + 1, j, effect.id);
    } else {
      ClosedStays(Works(ops), i + 1, j, effect.id);
    }
  }

  // -------------------------------------------------------------------- unknown

  /** The result of the effect was confirmed by a recovery decision. */
  ghost predicate Confirmed(w: Work, e: Id) {
    exists d :: d in w.dispositions && w.dispositions[d].kind.ConfirmResult? && w.dispositions[d].unknownEffectId == e
  }

  lemma {:induction false} ResolutionKeepsUnknown(s: State, d: Disposition, taskId: Id, expected: nat, remedy: Remedy, e: Id)
    requires Inv(s, ALWAYS) && e in s.work.effects && s.work.effects[e].status.Unknown?
    requires ResolveRecovery(s, d, taskId, expected, remedy).Success?
    ensures var w := ResolveRecovery(s, d, taskId, expected, remedy).value.work;
            e in w.effects && (w.effects[e] == s.work.effects[e] || Confirmed(w, e))
  {
    hide Inv, ResolveRecovery, FirstDecision, Decides, Confirmed;
    if FirstDecision(s, d) {
      match d.kind
      case ConfirmResult =>
        ConfirmOutcome(s, d, taskId, expected, remedy);
        ShowConfirmed(s, ResolveRecovery(s, d, taskId, expected, remedy).value, d, taskId, expected);
      case CreateRetry => RetryOutcome(s, d, taskId, expected, remedy);
      case Abandon => AbandonOutcome(s, d, taskId, expected, remedy);
    } else {
      RepeatedDecision(s, d, taskId, expected, remedy);
    }
  }

  lemma {:induction false} ShowConfirmed(s: State, s': State, d: Disposition, taskId: Id, expected: nat)
    requires d.kind.ConfirmResult? && taskId in s.home.tasks
    requires Decides(s, s', d, taskId, expected, if s.home.tasks[taskId].outcome.Active? then Idle else Ended, s.home.tasks[taskId].outcome)
    ensures Confirmed(s'.work, d.unknownEffectId)
  {
    assert d.id in s'.work.dispositions && s'.work.dispositions[d.id] == d;
  }

  lemma {:induction false} RepeatedDecision(s: State, d: Disposition, taskId: Id, expected: nat, remedy: Remedy)
    requires !FirstDecision(s, d) && ResolveRecovery(s, d, taskId, expected, remedy).Success?
    ensures ResolveRecovery(s, d, taskId, expected, remedy).value == s
  {
    hide FirstDecision, Disposed, ValidateResolution, ApplyRemedy, LeaveRecovery;
    FirstIff(s, d);
  }

  /** No transaction but a confirmation changes an unknown effect. */
  lemma {:induction false} StepKeepsUnknown(s: State, op: EffectOp, e: Id)
    requires Inv(s, ALWAYS) && e in s.work.effects && s.work.effects[e].status.Unknown? && EffectStep(s, op).Success?
    ensures var w := EffectStep(s, op).value.work;
            e in w.effects && (w.effects[e] == s.work.effects[e] || Confirmed(w, e))
  {
    hide Inv, Confirmed;
    hide PrepareEffectBatch, RequestEffectApproval, ResolveEffectApproval, DecideApproval, ClaimEffect, CommitEffect;
    hide MarkEffectUnknown, SettleUnexecutedEffect, ResolveRecovery;
    match op
    case PrepareEffectBatchOp(step, batch, expected, owner, now) => PreparedEffects(s, step, batch, expected, owner, now);
    case RequestEffectApprovalOp(id, a, expected, g, now) => RequestEffectApprovalOutcome(s, id, a, expected, g, now);
    case ResolveEffectApprovalOp(id, approved, source, expected, workspace, policy, config) =>
      ResolveEffectApprovalOutcome(s, id, approved, source, expected, workspace, policy, config);
      ResolvedWasWaiting(s, id, e);
    case DecideApprovalOp(a, current) => DecideApprovalOutcome(s, a, current);
    case ClaimEffectOp(id, expected, g, terms, now) => ClaimEffectIff(s, id, expected, g, terms, now);
    case CommitEffectOp(f, expected, call, result, g, now) => CommitEffectIff(s, f, expected, call, result, g, now);
    case MarkEffectUnknownOp(id, expected, g, now) => MarkEffectUnknownOutcome(s, id, expected, g, now);
    case SettleUnexecutedEffectOp(id, status, expected, o, g, now) =>
      SettleUnexecutedEffectOutcome(s, id, status, expected, o.call, o.result, g, now);
    case ResolveRecoveryOp(d, id, expected, remedy) => ResolutionKeepsUnknown(s, d, id, expected, remedy, e);
  }

  /** An open request belongs to a waiting effect. */
  lemma {:induction false} ResolvedWasWaiting(s: State, id: Id, e: Id)
    requires Inv(s, ALWAYS) && e in s.work.effects && s.work.effects[e].status.Unknown?
    ensures id in s.work.approvals && s.work.approvals[id].status.Pending? ==> s.work.approvals[id].effectId != e
  {
    hide HomeSound, LeasesExclusive, DispositionsSound;
  }

  lemma {:induction false} NextKeepsUnknown(s: State, op: Op, e: Id)
    requires Inv(s, ALWAYS) && e in s.work.effects && s.work.effects[e].status.Unknown?
    ensures var w := Next(s, op).work;
            e in w.effects && (w.effects[e] == s.work.effects[e] || Confirmed(w, e))
  {
    hide Inv, Confirmed, EffectStep, SessionStep, LeaseStep;
    if op.Effects? && EffectStep(s, op.effect).Success? {
      StepKeepsUnknown(s, op.effect, e);
    }
  }

  /** An unknown effect is left alone by everyone until a recovery decision confirms its result. */
  lemma {:induction false} UnknownUntilConfirmed(ops: seq<Op>, i: nat, j: nat, e: Id)
    requires Deciding(ops) && i <= j <= |ops| && e in At(ops, i).work.effects && At(ops, i).work.effects[e].status.Unknown?
    ensures var w := At(ops, j).work;
            e in w.effects && (w.effects[e] == At(ops, i).work.effects[e] || Confirmed(w, e))
    decreases j - i
  {
    hide After, Next, Inv, History, Deciding, Confirmed;
    if i < j {
      UnknownUntilConfirmed(ops, i, j - 1, e);
      RunIsHistory(ops);
      EvolvesBetween(Works(ops), j - 1, j);
      AtStep(ops, j - 1);
      if Confirmed(At(ops, j - 1).work, e) {
        ConfirmedStays(At(ops, j - 1).work, At(ops, j).work, e);
      } else {
        RunInv(ops, j - 1);
        NextKeepsUnknown(At(ops, j - 1), ops[j - 1], e);
      }
    }
  }

  lemma {:induction false} ConfirmedStays(w: Work, w': Work, e: Id)
    requires Confirmed(w, e) && RowsKept(w.dispositions, w'.dispositions)
    ensures Confirmed(w', e)
  {
    var d :| d in w.dispositions && w.dispositions[d].kind.ConfirmResult? && w.dispositions[d].unknownEffectId == e;
    assert d in w'.dispositions && w'.dispositions[d] == w.dispositions[d];
  }

  predicate Finished(w: Work, e: Id) {
    e in w.effects && (w.effects[e].status.Succeeded? || w.effects[e].status.EffectFailed?)
  }

  /** Only a recovery decision is stored as one. */
  lemma {:induction false} OthersDecideNothing(s: State, op: EffectOp)
    requires Inv(s, ALWAYS) && EffectStep(s, op).Success? && !op.ResolveRecoveryOp?
    ensures EffectStep(s, op).value.work.dispositions == s.work.dispositions
  {
    hide Inv;
    hide PrepareEffectBatch, RequestEffectApproval, ResolveEffectApproval, DecideApproval, ClaimEffect, CommitEffect;
    hide MarkEffectUnknown, SettleUnexecutedEffect, ResolveRecovery;
    match op
    case PrepareEffectBatchOp(step, batch, expected, owner, now) => PrepareEffectBatchOutcome(s, step, batch, expected, owner, now);
    case RequestEffectApprovalOp(id, a, expected, g, now) => RequestEffectApprovalOutcome(s, id, a, expected, g, now);
    case ResolveEffectApprovalOp(id, approved, source, expected, workspace, policy, config) =>
      ResolveEffectApprovalOutcome(s, id, approved, source, expected, workspace, policy, config);
    case DecideApprovalOp(a, current) => DecideApprovalOutcome(s, a, current);
    case ClaimEffectOp(id, expected, g, terms, now) => ClaimEffectIff(s, id, expected, g, terms, now);
    case CommitEffectOp(f, expected, call, result, g, now) => CommitEffectIff(s, f, expected, call, result, g, now);
    case MarkEffectUnknownOp(id, expected, g, now) => MarkEffectUnknownOutcome(s, id, expected, g, now);
    case SettleUnexecutedEffectOp(id, status, expected, o, g, now) =>
      SettleUnexecutedEffectOutcome(s, id, status, expected, o.call, o.result, g, now);
  }

  lemma {:induction false} ResolutionCloses(s: State, d: Disposition, taskId: Id, expected: nat, remedy: Remedy, e: Id)
    requires Inv(s, ALWAYS) && ResolveRecovery(s, d, taskId, expected, remedy).Success?
    requires !Confirmed(s.work, e) && Confirmed(ResolveRecovery(s, d, taskId, expected, remedy).value.work, e)
    ensures Finished(ResolveRecovery(s, d, taskId, expected, remedy).value.work, e)
  {
    hide Inv, ResolveRecovery, FirstDecision;
    if FirstDecision(s, d) {
      match d.kind
      case ConfirmResult => ConfirmOutcome(s, d, taskId, expected, remedy);
      case CreateRetry => RetryOutcome(s, d, taskId, expected, remedy);
      case Abandon => AbandonOutcome(s, d, taskId, expected, remedy);
    } else {
      RepeatedDecision(s, d, taskId, expected, remedy);
    }
  }

  lemma {:induction false} NextConfirms(s: State, op: Op, e: Id)
    requires Inv(s, ALWAYS) && !Confirmed(s.work, e) && Confirmed(Next(s, op).work, e)
    ensures Finished(Next(s, op).work, e)
  {
    hide Inv, SessionStep, LeaseStep, Finished, PrepareEffectBatch, RequestEffectApproval, ResolveEffectApproval, DecideApproval;
    hide ClaimEffect, CommitEffect, MarkEffectUnknown, SettleUnexecutedEffect, ResolveRecovery;
    if op.Effects? && EffectStep(s, op.effect).Success? {
      if op.effect.ResolveRecoveryOp? {
        ResolutionCloses(s, op.effect.disposition, op.effect.id, op.effect.expected, op.effect.remedy, e);
      } else {
        OthersDecideNothing(s, op.effect);
      }
    }
  }

  /** A confirmed effect has succeeded or failed: so an effect that was unknown is unknown until then, and no longer. */
  lemma {:induction false} ConfirmedIsClosed(ops: seq<Op>, j: nat, e: Id)
    requires Deciding(ops) && j <= |ops| && Confirmed(At(ops, j).work, e)
    ensures Finished(At(ops, j).work, e)
    decreases j
  {
    hide After, Next, Inv, History, Deciding;
    EmptyRun(ops);
    if j > 0 {
      RunIsHistory(ops);
      AtStep(ops, j - 1);
      if Confirmed(At(ops, j - 1).work, e) {
        ConfirmedIsClosed(ops, j - 1, e);
        ClosedStays(Works(ops), j - 1, j, e);
      } else {
        RunInv(ops, j - 1);
        NextConfirms(At(ops, j - 1), ops[j - 1], e);
      }
    }
  }

  /** For an effect that was unknown once: it still is exactly as long as nothing confirmed it. */
  lemma {:induction false} UnknownIffUnconfirmed(ops: seq<Op>, i: nat, j: nat, e: Id)
    requires Deciding(ops) && i <= j <= |ops| && e in At(ops, i).work.effects && At(ops, i).work.effects[e].status.Unknown?
    ensures e in At(ops, j).work.effects
    ensures At(ops, j).work.effects[e].status.Unknown? <==> !Confirmed(At(ops, j).work, e)
  {
    hide After, Confirmed, Deciding;
    UnknownUntilConfirmed(ops, i, j, e);
    if Confirmed(At(ops, j).work, e) {
      ConfirmedIsClosed(ops, j, e);
    }
  }

  // ------------------------------------------------------------------- versions

  /** The transaction writes the effect on condition that it is at this version. */
  predicate Expects(op: Op, e: Id, v: nat) {
    match op
    case Effects(RequestEffectApprovalOp(id, _, expected, _, _)) => id == e && expected == v
    case Effects(ClaimEffectOp(id, expected, _, _, _)) => id == e && expected == v
    case Effects(CommitEffectOp(effect, expected, _, _, _, _)) => effect.id == e && expected == v
    case Effects(MarkEffectUnknownOp(id, expected, _, _)) => id == e && expected == v
    case Effects(SettleUnexecutedEffectOp(id, _, expected, _, _, _)) => id == e && expected == v
    case _ => false
  }

  lemma {:induction false} ExpectedIsCurrent(s: State, op: Op, e: Id, v: nat)
    requires Expects(op, e, v) && Apply(s, op).Success?
    ensures e in s.work.effects && s.work.effects[e].version == v
  {
    hide GuardLive, JournalTask, JournalApproval, AdvanceCursor, Observe, ApprovalToConsume, ControlPending, MaxTurn, SameRequest;
    hide ApprovalExistsFor, CloseRequest, PrepareEffectBatch, ResolveEffectApproval, DecideApproval, ResolveRecovery;
    hide SessionStep, LeaseStep;
  }

  lemma {:induction false} VersionsGrow(ws: seq<Work>, i: nat, j: nat, e: Id)
    requires History(ws) && i <= j < |ws| && e in ws[i].effects
    ensures e in ws[j].effects && ws[i].effects[e].version <= ws[j].effects[e].version
    decreases j - i
  {
    hide WorkSound, ApprovalsEvolve, EntriesPaid, RowsKept;
    if i < j {
      VersionsGrow(ws, i, j - 1, e);
      assert WorkEvolves(ws[j - 1], ws[j - 1 + 1]);
    }
  }

  lemma {:induction false} ChangeRaises(ws: seq<Work>, i: nat, e: Id)
    requires History(ws) && i + 1 < |ws| && e in ws[i].effects
    ensures e in ws[i + 1].effects
    ensures ws[i + 1].effects[e] != ws[i].effects[e] ==> ws[i].effects[e].version < ws[i + 1].effects[e].version
  {
    hide WorkSound, ApprovalsEvolve, EntriesPaid, RowsKept;
    assert WorkEvolves(ws[i], ws[i + 1]);
  }

  /** Claims, commits, marks, settlements and requests of one effect: of those that expect one version, one writes. */
  lemma {:induction false} OneWriterPerVersion(ops: seq<Op>, i: nat, j: nat, e: Id, v: nat)
    requires Deciding(ops) && i < j < |ops| && Expects(ops[i], e, v) && Expects(ops[j], e, v)
    requires e in At(ops, i).work.effects && e in At(ops, i + 1).work.effects
    requires At(ops, i + 1).work.effects[e] != At(ops, i).work.effects[e]
    ensures Apply(At(ops, j), ops[j]).Failure? && At(ops, j + 1) == At(ops, j)
  {
    hide After, Apply, History, Deciding, Expects;
    AtStep(ops, i);
    AtStep(ops, j);
    RunIsHistory(ops);
    ChangeRaises(Works(ops), i, e);
    VersionsGrow(Works(ops), i + 1, j, e);
    if Apply(At(ops, i), ops[i]).Success? {
      ExpectedIsCurrent(At(ops, i), ops[i], e, v);
    }
    if Apply(At(ops, j), ops[j]).Success? {
      ExpectedIsCurrent(At(ops, j), ops[j], e, v);
    }
  }
}
