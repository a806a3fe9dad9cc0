/**
 The moves on the effect, approval and disposition tables that the transactions
 are composed of, each shown once to keep the effect-side invariants.
 */
module WorkMoves {
  import opened Wrappers
  import opened StoreModel
  import opened StoreInvariants

  /** The rewritten row keeps the effect's identity and content and follows an edge. */
  predicate Successor(o: Effect, e: Effect) {
    && o.id == e.id && SameIdentity(o, e) && o.content == e.content && EffectEdge(o.status, e.status)
    && (o == e || (o.version < e.version && !(o.status.Unknown? && e.status.Unknown?)))
  }

  ghost predicate NothingPending(approvals: map<Id, Approval>, effectId: Id) {
    forall a :: a in approvals && approvals[a].effectId == effectId ==> !approvals[a].status.Pending?
  }

  /** Exactly one effect row was rewritten. */
  ghost predicate RewritesEffect(w: Work, w': Work, e: Id) {
    e in w.effects && e in w'.effects && w'.effects == w.effects[e := w'.effects[e]] && Successor(w.effects[e], w'.effects[e])
  }

  lemma {:induction false} PendingOnlyWhileWaiting(w: Work, e: Id)
    requires WorkSound(w) && e in w.effects
    requires var o := w.effects[e];
      || !o.status.EffectWaiting? || o.approvalId.None? || o.approvalId.value !in w.approvals
      || !w.approvals[o.approvalId.value].status.Pending?
    ensures NothingPending(w.approvals, e)
  {
  }

  /** A rewrite of an effect that no undecided approval waits on, short of claiming it. */
  lemma {:induction false} EffectMove(w: Work, w': Work, e: Id)
    requires WorkSound(w) && NothingPending(w.approvals, e) && RewritesEffect(w, w', e)
    requires w'.effects[e].status.Executing? ==> w.effects[e].status.Executing?
    requires w'.effects[e].status == w.effects[e].status || !w.effects[e].status.Unknown?
             || (forall d :: d in w.dispositions ==> w.dispositions[d].unknownEffectId != e)
    requires w'.approvals == w.approvals && w'.dispositions == w.dispositions && RowsKept(w.observations, w'.observations)
    ensures WorkSound(w') && WorkEvolves(w, w')
  {
  }

  /** Effects inserted under new ids. */
  lemma {:induction false} GrowthMove(w: Work, w': Work)
    requires WorkSound(w) && RowsKept(w.effects, w'.effects)
    requires forall e :: e in w'.effects && e !in w.effects ==> w'.effects[e].id == e
    requires w'.approvals == w.approvals && w'.dispositions == w.dispositions && RowsKept(w.observations, w'.observations)
    ensures WorkSound(w') && WorkEvolves(w, w')
  {
  }

  /** A request: the prepared effect waits on a new undecided approval. */
  lemma {:induction false} RequestMove(w: Work, w': Work, e: Id, a: Approval)
    requires WorkSound(w) && RewritesEffect(w, w', e) && w.effects[e].status.Prepared?
    requires w'.effects[e].status.EffectWaiting? && w'.effects[e].approvalId == Some(a.id)
    requires a.effectId == e && a.status.Pending? && a.id !in w.approvals && !ApprovalExistsFor(w.approvals, e)
    requires w'.approvals == w.approvals[a.id := a] && w'.dispositions == w.dispositions
             && w'.observations == w.observations
    ensures WorkSound(w') && WorkEvolves(w, w')
  {
  }

  /** An approval opened for an effect that has none: not consumed, and undecided only if the effect waits on it. */
  predicate OpensSafely(effects: map<Id, Effect>, a: Approval) {
    && !a.status.Consumed?
    && (a.status.Pending? ==>
          a.effectId in effects && effects[a.effectId].status.EffectWaiting? && effects[a.effectId].approvalId == Some(a.id))
  }

  lemma {:induction false} OpenMove(w: Work, a: Approval)
    requires WorkSound(w) && a.effectId in w.effects && a.id !in w.approvals && !ApprovalExistsFor(w.approvals, a.effectId)
    requires OpensSafely(w.effects, a)
    ensures var w' := w.(approvals := w.approvals[a.id := a]); WorkSound(w') && WorkEvolves(w, w')
  {
  }

  /** A retry: a new effect arrives waiting on a new undecided approval of its own. */
  lemma {:induction false} RetryMove(w: Work, w': Work, e: Id, a: Approval)
    requires WorkSound(w) && e !in w.effects && e in w'.effects && w'.effects == w.effects[e := w'.effects[e]]
    requires w'.effects[e].id == e && w'.effects[e].status.EffectWaiting? && w'.effects[e].approvalId == Some(a.id)
    requires a.effectId == e && a.status.Pending? && a.id !in w.approvals && !ApprovalExistsFor(w.approvals, e)
    requires w'.approvals == w.approvals[a.id := a] && w'.dispositions == w.dispositions
             && RowsKept(w.observations, w'.observations)
    ensures WorkSound(w') && WorkEvolves(w, w')
  {
  }

  /** The approval was decided, and nothing else about it changed owner. */
  ghost predicate Decides(w: Work, w': Work, a: Id) {
    && a in w.approvals && a in w'.approvals && w.approvals[a].status.Pending?
    && w'.approvals == w.approvals[a := w'.approvals[a]] && w'.approvals[a].id == a
    && w'.approvals[a].effectId == w.approvals[a].effectId
    && (w'.approvals[a].status.Approved? || w'.approvals[a].status.ApprovalDenied? || w'.approvals[a].status.Expired?)
  }

  /** A decision: the approval leaves PENDING, and so may the effect that waits on it. */
  lemma {:induction false} DecisionMove(w: Work, w': Work, a: Id)
    requires WorkSound(w) && Decides(w, w', a)
    requires w'.effects == w.effects || (RewritesEffect(w, w', w.approvals[a].effectId)
                                         && !w'.effects[w.approvals[a].effectId].status.EffectWaiting?)
    requires w'.dispositions == w.dispositions && w'.observations == w.observations
    ensures WorkSound(w') && WorkEvolves(w, w')
  {
  }

  /**
   Settling an effect expires the undecided approval it names; under another
   effect's name that approval still leaves PENDING, so nothing can revive it.
   */
  lemma {:induction false} SettleMove(w: Work, w': Work, e: Id)
    requires WorkSound(w) && RewritesEffect(w, w', e) && !Spent(w.effects[e].status)
    requires w'.effects[e].status.Denied? || w'.effects[e].status.EffectCancelled?
    requires w.effects[e].approvalId.Some? && Decides(w, w', w.effects[e].approvalId.value)
    requires w'.dispositions == w.dispositions && RowsKept(w.observations, w'.observations)
    ensures WorkSound(w') && WorkEvolves(w, w')
  {
  }

  /** A claim: the prepared effect starts and its approval, if it has one, is consumed. */
  lemma {:induction false} ClaimMove(w: Work, w': Work, e: Id)
    requires WorkSound(w) && RewritesEffect(w, w', e)
    requires var o := w.effects[e];
      && o.status.Prepared? && w'.effects[e].status.Executing? && !o.content.decision.Deny?
      && (o.approvalId.None? ==> !o.content.decision.RequireApproval? && w'.approvals == w.approvals)
      && (o.approvalId.Some? ==>
            && var a := o.approvalId.value;
               && a in w.approvals && w.approvals[a].status.Approved? && w.approvals[a].effectId == e
               && a in w'.approvals && w'.approvals == w.approvals[a := w'.approvals[a]] && w'.approvals[a].id == a
               && w'.approvals[a].effectId == e && w'.approvals[a].status.Consumed?)
    requires w'.dispositions == w.dispositions && w'.observations == w.observations
    ensures WorkSound(w') && WorkEvolves(w, w')
  {
    if w.effects[e].approvalId.Some? {
      assert Pays(w.approvals, w'.approvals, e);
    }
  }

  /** A disposition for an unknown effect that has none. */
  lemma {:induction false} DispositionMove(w: Work, d: Disposition)
    requires WorkSound(w) && d.id !in w.dispositions
    requires forall k :: k in w.dispositions ==> w.dispositions[k].unknownEffectId != d.unknownEffectId
    requires d.unknownEffectId in w.effects && Spent(w.effects[d.unknownEffectId].status)
    requires !d.kind.ConfirmResult? ==> w.effects[d.unknownEffectId].status.Unknown?
    requires d.kind.CreateRetry? ==>
      && d.retryEffectId.Some? && d.retryEffectId.value in w.effects && d.retryEffectId.value != d.unknownEffectId
      && w.effects[d.retryEffectId.value].content.decision.RequireApproval?
      && forall k :: k in w.dispositions && w.dispositions[k].kind.CreateRetry? ==>
           w.dispositions[k].retryEffectId != d.retryEffectId
    ensures WorkSound(w.(dispositions := w.dispositions[d.id := d]))
  {
  }
}
