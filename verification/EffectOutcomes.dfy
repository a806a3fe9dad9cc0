/**
 What the effect transactions leave in the tables, row by row, and when a claim or a
 commit goes through, said of the stored rows alone.
 */
module EffectOutcomes {
  import opened Wrappers
  import opened StoreModel
  import opened StoreInvariants
  import opened SessionSpec
  import opened EffectSpec
  import opened StoreRuns
  import opened StoreLimits
  import opened RowChanges

  // ------------------------------------------------------------------- claiming

  /** The configuration a claim is held to: the session's, or the caller's for an unbound task. */
  function ConfigInForce(h: Home, task: Task, terms: ClaimTerms): string
    requires task.sessionId.Some? ==> task.sessionId.value in h.sessions
  {
    var version := if task.sessionId.Some? then h.sessions[task.sessionId.value].configVersion
                   else if terms.configVersion.Some? then terms.configVersion.value else "";
    if version == "" then "1" else version
  }

  /** The effect names an approval granted for exactly this content, place, policy and configuration, or needs none. */
  ghost predicate Paid(s: State, e: Effect, task: Task, terms: ClaimTerms)
    requires task.sessionId.Some? ==> task.sessionId.value in s.home.sessions
  {
    match e.approvalId
    case None => !e.content.decision.RequireApproval?
    case Some(a) =>
      && a in s.work.approvals
      && var p := s.work.approvals[a];
         && p.status.Approved? && p.effectId == e.id && p.fingerprint == e.content && p.arguments == e.content.arguments
         && p.workspaceRef == task.repository && p.configVersion == ConfigInForce(s.home, task, terms)
         && (terms.policyVersion.Some? && terms.policyVersion.value != "" ==> p.policyVersion == terms.policyVersion.value)
  }

  /** Whatever the caller says about the effect and its surroundings is so. */
  ghost predicate TermsHold(s: State, e: Effect, task: Task, terms: ClaimTerms)
    requires task.sessionId.Some? ==> task.sessionId.value in s.home.sessions
  {
    && (terms.fingerprint.Some? ==> e.content == terms.fingerprint.value)
    && (terms.decision.Some? ==> e.content.decision == terms.decision.value)
    && (terms.workspaceRef.Some? ==> task.repository == terms.workspaceRef.value)
    && (terms.configVersion.Some? ==> ConfigInForce(s.home, task, terms) == terms.configVersion.value)
    && (terms.inputSequence.Some? && task.sessionId.Some? ==>
          |SessionTurns(s.home.turns, task.sessionId.value)| == terms.inputSequence.value)
  }

  /** Nobody has asked the task to pause or stop without the request being settled. */
  ghost predicate Unasked(h: Home, taskId: Id) {
    forall c :: c in h.controls && h.controls[c].taskId == taskId ==>
      h.controls[c].status.Settled? || h.controls[c].status.CleanupFailed?
  }

  function ClaimIds(s: State, e: Effect): seq<EventId> {
    var claimed := EventId("effect.claimed", e.id, Number(e.version + 1));
    if e.approvalId.Some? && e.approvalId.value in s.work.approvals
    then [EventId("approval.consumed", e.approvalId.value, Number(s.work.approvals[e.approvalId.value].version + 1)), claimed]
    else [claimed]
  }

  ghost predicate Fresh(h: Home, task: Task, ids: seq<EventId>) {
    task.sessionId.Some? ==> forall i :: 0 <= i < |ids| ==> !Recorded(h.events, ids[i])
  }

  /** The conditions besides payment. */
  ghost predicate Ready(s: State, id: Id, expected: nat, g: Guard, terms: ClaimTerms, now: nat) {
    && Owner(s.home, g, now) && id in s.work.effects
    && var e := s.work.effects[id];
       && e.version == expected && e.status.Prepared? && !e.content.decision.Deny? && e.content.preparationError.None?
       && e.taskId in s.home.tasks
       && var task := s.home.tasks[e.taskId];
          && Readable(task) && Unasked(s.home, e.taskId)
          && (task.sessionId.Some? ==> task.sessionId.value in s.home.sessions)
          && TermsHold(s, e, task, terms)
  }

  /** The effect may be started by this owner, on these terms, now. */
  ghost predicate Startable(s: State, id: Id, expected: nat, g: Guard, terms: ClaimTerms, now: nat) {
    && Ready(s, id, expected, g, terms, now)
    && var e := s.work.effects[id];
       var task := s.home.tasks[e.taskId];
       Paid(s, e, task, terms) && Fresh(s.home, task, ClaimIds(s, e))
  }

  /** The effect runs, its approval is spent with it, both are on record, and nothing else changed. */
  ghost predicate Begun(s: State, s': State, id: Id) {
    && id in s.work.effects
    && var e := s.work.effects[id];
       && e.taskId in s.home.tasks
       && s'.home == s.home.(sessions := s'.home.sessions, events := s'.home.events)
       && Logs(s.home, s'.home, s.home.tasks[e.taskId], ClaimIds(s, e))
       && s'.work == s.work.(effects := s'.work.effects, approvals := s'.work.approvals)
       && s'.work.effects == s.work.effects[id := e.(status := Executing, approvalId := None,
                                                     approvalConsumed := e.approvalId.Some?, version := e.version + 1)]
       && match e.approvalId
          case None => s'.work.approvals == s.work.approvals
          case Some(a) =>
            && a in s.work.approvals
            && s'.work.approvals == s.work.approvals[a := s.work.approvals[a].(status := Consumed,
                                                                              version := s.work.approvals[a].version + 1)]
  }

  lemma {:induction false} OwnerIff(h: Home, g: Guard, now: nat)
    ensures GuardLive(h.executions, g, now) <==> Owner(h, g, now)
  {
  }

  lemma {:induction false} UnaskedIff(h: Home, taskId: Id)
    ensures Unasked(h, taskId) <==> !ControlPending(h.controls, taskId)
  {
  }

  lemma {:induction false} TurnsCounted(h: Home, k: Id)
    requires HomeSound(h, ALWAYS) && k in h.sessions
    ensures MaxTurn(h.turns, k) == |SessionTurns(h.turns, k)|
  {
    hide EventsNumbered, Bound, CursorsBehind, EventsHoused, TurnsNumbered;
    MaxTurnIsCount(h.turns, k);
  }

  lemma {:induction false} AllowedIff(s: State, id: Id, expected: nat, g: Guard, terms: ClaimTerms, now: nat)
    requires HomeSound(s.home, ALWAYS)
    ensures var r := ClaimAllowed(s, id, expected, g, terms, now);
            && (r.Success? <==> Ready(s, id, expected, g, terms, now))
            && (r.Success? ==> r.value == (s.work.effects[id], s.home.tasks[s.work.effects[id].taskId]))
  {
    hide HomeSound, GuardLive, Owner, Unasked, ControlPending, MaxTurn, SessionTurns;
    OwnerIff(s.home, g, now);
    if id in s.work.effects && s.work.effects[id].taskId in s.home.tasks {
      TaskIsKeyed(s.home, ALWAYS, s.work.effects[id].taskId);
      var task := s.home.tasks[s.work.effects[id].taskId];
      UnaskedIff(s.home, task.id);
      if task.sessionId.Some? {
        TurnsCounted(s.home, task.sessionId.value);
      }
    }
  }

  /** What every successful claim found, in any run. */
  lemma {:induction false} ClaimFinds(s: State, id: Id, expected: nat, g: Guard, terms: ClaimTerms, now: nat)
    requires HomeSound(s.home, ALWAYS) && ClaimEffect(s, id, expected, g, terms, now).Success?
    ensures Ready(s, id, expected, g, terms, now)
    ensures Paid(s, s.work.effects[id], s.home.tasks[s.work.effects[id].taskId], terms)
  {
    hide HomeSound, ClaimAllowed, ApprovalToConsume, TermsHold, Paid, JournalTask, ActualConfig, Readable, Unasked, Owner;
    AllowedIff(s, id, expected, g, terms, now);
    PaidIff(s, s.work.effects[id], s.home.tasks[s.work.effects[id].taskId], terms);
  }

  lemma {:induction false} InvTask(s: State, t: Id)
    requires Inv(s, ALWAYS) && t in s.home.tasks
    ensures Keyed(s.home, s.home.tasks[t]) && s.home.tasks[t].id == t
  {
    hide HomeSound, WorkSound, LeasesExclusive;
    TaskIsKeyed(s.home, ALWAYS, t);
  }

  lemma {:induction false} InvHome(s: State)
    requires Inv(s, ALWAYS)
    ensures HomeSound(s.home, ALWAYS)
  {
    hide HomeSound, WorkSound, LeasesExclusive;
  }

  lemma {:induction false} InvRows(s: State, e: Id)
    requires Inv(s, ALWAYS) && e in s.work.effects
    ensures s.work.effects[e].id == e && EventsNumbered(s.home.sessions, s.home.events)
    ensures forall a :: a in s.work.approvals ==> s.work.approvals[a].id == a
  {
    hide DispositionsSound, PendingBacked, LeasesExclusive, Bound, TurnsDense, CursorsBehind, EventsHoused, EventsNumbered;
  }

  lemma {:induction false} PaidIff(s: State, e: Effect, task: Task, terms: ClaimTerms)
    requires task.sessionId.Some? ==> task.sessionId.value in s.home.sessions
    requires TermsHold(s, e, task, terms)
    ensures var r := ApprovalToConsume(s.work.approvals, e, task, ActualConfig(s.home.sessions, task, terms), terms);
            && (r.Success? <==> Paid(s, e, task, terms))
            && (r.Success? ==> r.value == if e.approvalId.None? then None
                                          else var p := s.work.approvals[e.approvalId.value];
                                               Some(p.(status := Consumed, version := p.version + 1)))
  {
    hide SessionTurns;
  }

  lemma {:induction false} OneLog(h: Home, task: Task, id: EventId)
    requires EventsNumbered(h.sessions, h.events) && Keyed(h, task)
    ensures JournalTask(h, task, id).Success? <==> Fresh(h, task, [id])
    ensures JournalTask(h, task, id).Success? ==> Logs(h, JournalTask(h, task, id).value, task, [id])
  {
    hide EventsNumbered, Recorded, JournalTask, Logs;
    LogsIff(h, task, id);
    assert [id][0] == id;
    if JournalTask(h, task, id).Success? {
      JournalLogs(h, task, id);
    }
  }

  lemma {:induction false} LogKeeps(h: Home, h': Home, task: Task, a: EventId, b: EventId)
    requires EventsNumbered(h.sessions, h.events) && Keyed(h, task) && Logs(h, h', task, [a]) && a != b
    ensures EventsNumbered(h'.sessions, h'.events) && Keyed(h', task)
    ensures Recorded(h'.events, b) <==> Recorded(h.events, b)
  {
    hide EventsNumbered;
    if task.sessionId.Some? {
      var n, e := |h.events|, h'.events[|h.events| + 0];
      assert e.id == [a][0] == a;
      assert h'.events == h.events + [e];
      JournaledKeepsNumbered(h, h', task.sessionId.value);
      assert forall i :: 0 <= i < n ==> h'.events[i] == h.events[i];
      if Recorded(h'.events, b) {
        var i :| 0 <= i < |h'.events| && h'.events[i].id == b;
        assert h.events[i].id == b;
      }
      if Recorded(h.events, b) {
        var i :| 0 <= i < n && h.events[i].id == b;
        assert h'.events[i].id == b;
      }
    }
  }

  lemma {:induction false} TwoLogs(h: Home, task: Task, a: EventId, b: EventId)
    requires EventsNumbered(h.sessions, h.events) && Keyed(h, task) && a != b
    ensures var first := JournalTask(h, task, a);
            && (first.Success? && JournalTask(first.value, task, b).Success? <==> Fresh(h, task, [a, b]))
            && (first.Success? && JournalTask(first.value, task, b).Success? ==>
                  Logs(h, JournalTask(first.value, task, b).value, task, [a, b]))
  {
    hide EventsNumbered, Recorded, JournalTask, Logs, Keyed, Fresh;
    OneLog(h, task, a);
    FreshPair(h, task, a, b);
    var first := JournalTask(h, task, a);
    if first.Success? {
      LogKeeps(h, first.value, task, a, b);
      OneLog(first.value, task, b);
      FreshSame(h, first.value, task, b);
      if JournalTask(first.value, task, b).Success? {
        LogsTwice(h, first.value, JournalTask(first.value, task, b).value, task, a, b);
      }
    }
  }

  lemma {:induction false} FreshPair(h: Home, task: Task, a: EventId, b: EventId)
    ensures Fresh(h, task, [a, b]) <==> Fresh(h, task, [a]) && Fresh(h, task, [b])
  {
    hide Recorded;
    assert [a, b][0] == a && [a, b][1] == b && [a][0] == a && [b][0] == b;
  }

  lemma {:induction false} FreshSame(h: Home, h': Home, task: Task, b: EventId)
    requires Recorded(h'.events, b) <==> Recorded(h.events, b)
    ensures Fresh(h', task, [b]) <==> Fresh(h, task, [b])
  {
    hide Recorded;
    assert [b][0] == b;
  }

  /** The claim of an effect without an approval, once it is allowed. */
  lemma {:induction false} FreeClaim(s: State, id: Id, expected: nat, g: Guard, terms: ClaimTerms, now: nat)
    requires id in s.work.effects && s.work.effects[id].taskId in s.home.tasks && s.work.effects[id].approvalId.None?
    requires var e, task := s.work.effects[id], s.home.tasks[s.work.effects[id].taskId];
             && ClaimAllowed(s, id, expected, g, terms, now) == Success((e, task)) && Keyed(s.home, task)
             && TermsHold(s, e, task, terms) && Paid(s, e, task, terms)
    ensures var e, task := s.work.effects[id], s.home.tasks[s.work.effects[id].taskId];
            var told := JournalTask(s.home, task, EventId("effect.claimed", id, Number(e.version + 1)));
            var r := ClaimEffect(s, id, expected, g, terms, now);
            && (r.Success? <==> told.Success?)
            && (r.Success? ==> r.value == State(told.value, s.work.(effects := s.work.effects[id := Started(e, false)])))
  {
    hide ClaimAllowed, ApprovalToConsume, TermsHold, Paid, JournalTask, ActualConfig;
    PaidIff(s, s.work.effects[id], s.home.tasks[s.work.effects[id].taskId], terms);
  }

  /** The claim of an effect with its approval. */
  lemma {:induction false} PaidClaim(s: State, id: Id, expected: nat, g: Guard, terms: ClaimTerms, now: nat)
    requires id in s.work.effects && s.work.effects[id].taskId in s.home.tasks && s.work.effects[id].approvalId.Some?
    requires var e, task := s.work.effects[id], s.home.tasks[s.work.effects[id].taskId];
             && ClaimAllowed(s, id, expected, g, terms, now) == Success((e, task)) && Keyed(s.home, task)
             && TermsHold(s, e, task, terms) && Paid(s, e, task, terms) && Readable(task) && e.id == id
             && s.work.approvals[e.approvalId.value].id == e.approvalId.value
    ensures var e, task := s.work.effects[id], s.home.tasks[s.work.effects[id].taskId];
            var p := s.work.approvals[e.approvalId.value];
            var noted := JournalTask(s.home, task, EventId("approval.consumed", p.id, Number(p.version + 1)));
            var r := ClaimEffect(s, id, expected, g, terms, now);
            && (noted.Failure? ==> r.Failure?)
            && (noted.Success? ==>
                  var told := JournalTask(noted.value, task, EventId("effect.claimed", id, Number(e.version + 1)));
                  && (r.Success? <==> told.Success?)
                  && (r.Success? ==>
                        r.value == State(told.value,
                                         s.work.(effects := s.work.effects[id := Started(e, true)],
                                                 approvals := s.work.approvals[p.id := p.(status := Consumed, version := p.version + 1)]))))
  {
    hide ClaimAllowed, ApprovalToConsume, TermsHold, JournalTask, ActualConfig;
    PaidIff(s, s.work.effects[id], s.home.tasks[s.work.effects[id].taskId], terms);
  }

  lemma {:induction false} ClaimJournals(s: State, id: Id, expected: nat, g: Guard, terms: ClaimTerms, now: nat)
    requires id in s.work.effects && s.work.effects[id].id == id && EventsNumbered(s.home.sessions, s.home.events)
    requires forall a :: a in s.work.approvals ==> s.work.approvals[a].id == a
    requires s.work.effects[id].taskId in s.home.tasks
    requires var task := s.home.tasks[s.work.effects[id].taskId];
             && Keyed(s.home, task) && Readable(task)
             && ClaimAllowed(s, id, expected, g, terms, now) == Success((s.work.effects[id], task))
             && TermsHold(s, s.work.effects[id], task, terms) && Paid(s, s.work.effects[id], task, terms)
    ensures var e := s.work.effects[id];
            var r := ClaimEffect(s, id, expected, g, terms, now);
            && (r.Success? <==> Fresh(s.home, s.home.tasks[e.taskId], ClaimIds(s, e)))
            && (r.Success? ==> Begun(s, r.value, id))
  {
    hide ClaimAllowed, ClaimEffect, TermsHold, Fresh, JournalTask, Logs, Recorded, Readable, EventsNumbered;
    var e := s.work.effects[id];
    var task := s.home.tasks[e.taskId];
    var claimed := EventId("effect.claimed", id, Number(e.version + 1));
    if e.approvalId.Some? {
      var p := s.work.approvals[e.approvalId.value];
      PaidClaim(s, id, expected, g, terms, now);
      TwoLogs(s.home, task, EventId("approval.consumed", p.id, Number(p.version + 1)), claimed);
    } else {
      FreeClaim(s, id, expected, g, terms, now);
      OneLog(s.home, task, claimed);
    }
  }

  /** A claim goes through exactly when the effect may be started. */
  lemma {:induction false} ClaimEffectIff(s: State, id: Id, expected: nat, g: Guard, terms: ClaimTerms, now: nat)
    requires Inv(s, ALWAYS)
    ensures ClaimEffect(s, id, expected, g, terms, now).Success? <==> Startable(s, id, expected, g, terms, now)
    ensures ClaimEffect(s, id, expected, g, terms, now).Success? ==>
              Begun(s, ClaimEffect(s, id, expected, g, terms, now).value, id)
  {
    hide Inv, ClaimAllowed, ApprovalToConsume, TermsHold, Paid, Fresh, JournalTask, Logs, Recorded, Readable, Unasked, Owner;
    hide ActualConfig;
    assert HomeSound(s.home, ALWAYS) by {
      InvHome(s);
    }
    hide HomeSound;
    AllowedIff(s, id, expected, g, terms, now);
    if ClaimAllowed(s, id, expected, g, terms, now).Success? {
      var e := s.work.effects[id];
      var task := s.home.tasks[e.taskId];
      InvTask(s, e.taskId);
      InvRows(s, id);
      PaidIff(s, e, task, terms);
      if Paid(s, e, task, terms) {
        ClaimJournals(s, id, expected, g, terms, now);
      }
    }
  }

  // ------------------------------------------------------------------ finishing

  /** A result belongs to the call of the effect, and no other result of that call is stored. */
  ghost predicate Records(s: State, e: Effect, call: Option<ToolCall>, result: Option<ToolResult>) {
    match (call, result)
    case (None, None) => true
    case (Some(c), Some(r)) =>
      && c.id == e.callId && r.callId == e.callId
      && ((e.taskId, c.id) in s.work.observations ==> s.work.observations[(e.taskId, c.id)] == Observation(c, r))
    case _ => false
  }

  ghost predicate Committable(s: State, effect: Effect, expected: nat, call: Option<ToolCall>, result: Option<ToolResult>,
                              g: Guard, now: nat)
  {
    && Owner(s.home, g, now) && effect.id in s.work.effects
    && (effect.status.Succeeded? || effect.status.EffectFailed? || effect.status.Unknown?)
    && var e := s.work.effects[effect.id];
       && e.version == expected && e.status.Executing? && SameCall(e, effect) && Records(s, e, call, result)
       && e.taskId in s.home.tasks && Readable(s.home.tasks[e.taskId]) && s.home.tasks[e.taskId].sessionId.Some?
       && Fresh(s.home, s.home.tasks[e.taskId], [EventId("effect.committed", effect.id, Number(expected + 1))])
  }

  /** The same place in the same step, with the same content. */
  predicate SameCall(e: Effect, f: Effect) {
    e.taskId == f.taskId && e.stepId == f.stepId && e.position == f.position && e.content == f.content
  }

  /** The effect has the given result at the next version; its observation is stored; nothing else changed. */
  ghost predicate Committed(s: State, s': State, effect: Effect, call: Option<ToolCall>, result: Option<ToolResult>) {
    && effect.id in s.work.effects && effect.taskId in s.home.tasks
    && var e := s.work.effects[effect.id];
       && SameCall(e, effect) && e.status.Executing?
       && s'.work == s.work.(effects := s.work.effects[effect.id := effect.(version := e.version + 1)],
                             observations := if call.Some? && result.Some?
                                             then s.work.observations[(e.taskId, e.callId) := Observation(call.value, result.value)]
                                             else s.work.observations)
       && s'.home == s.home.(sessions := s'.home.sessions, events := s'.home.events, checkpoints := s'.home.checkpoints)
       && Logs(s.home, s'.home, s.home.tasks[e.taskId], [EventId("effect.committed", effect.id, Number(e.version + 1))])
       && CursorMoved(s.home, s'.home, s.home.tasks[e.taskId], Some(effect.id))
  }

  lemma {:induction false} ObserveIff(s: State, e: Effect, c: ToolCall, r: ToolResult)
    requires c.id == e.callId && r.callId == e.callId
    ensures var o := Observe(s.work.observations, e.taskId, Observation(c, r));
            && (o.Success? <==> Records(s, e, Some(c), Some(r)))
            && (o.Success? ==> o.value == s.work.observations[(e.taskId, c.id) := Observation(c, r)])
  {
    var key := (e.taskId, c.id);
    if key in s.work.observations && s.work.observations[key] == Observation(c, r) {
      assert s.work.observations[key := Observation(c, r)] == s.work.observations;
    }
  }

  /** Journal entry and cursor together, as finishing transactions write them. */
  lemma {:induction false} LogAndMove(h: Home, task: Task, id: EventId, done: Option<Id>)
    requires Keyed(h, task) && JournalTask(h, task, id).Success?
    ensures var h' := AdvanceCursor(JournalTask(h, task, id).value, task, done);
            && h' == h.(sessions := h'.sessions, events := h'.events, checkpoints := h'.checkpoints)
            && Logs(h, h', task, [id]) && CursorMoved(h, h', task, done)
  {
    hide AdvanceCursor, JournalTask, CursorMoved;
    JournalLogs(h, task, id);
    CursorMoves(h, JournalTask(h, task, id).value, task, done);
  }

  /** A commit goes through exactly for the owner of a running effect, and stores the result it is given. */
  lemma {:induction false} CommitEffectIff(s: State, effect: Effect, expected: nat, call: Option<ToolCall>,
                                           result: Option<ToolResult>, g: Guard, now: nat)
    requires Inv(s, ALWAYS)
    ensures CommitEffect(s, effect, expected, call, result, g, now).Success? <==>
              Committable(s, effect, expected, call, result, g, now)
    ensures CommitEffect(s, effect, expected, call, result, g, now).Success? ==>
              Committed(s, CommitEffect(s, effect, expected, call, result, g, now).value, effect, call, result)
  {
    hide Inv, GuardLive, Owner, Fresh, JournalTask, Logs, CursorMoved, Recorded, Readable, Observe, AdvanceCursor, Keyed, EventsNumbered;
    OwnerIff(s.home, g, now);
    if effect.id in s.work.effects {
      var e := s.work.effects[effect.id];
      InvRows(s, effect.id);
      if call.Some? && result.Some? && call.value.id == e.callId && result.value.callId == e.callId {
        ObserveIff(s, e, call.value, result.value);
      }
      if e.taskId in s.home.tasks {
        var task, id := s.home.tasks[e.taskId], EventId("effect.committed", effect.id, Number(e.version + 1));
        InvTask(s, e.taskId);
        OneLog(s.home, task, id);
        if JournalTask(s.home, task, id).Success? {
          LogAndMove(s.home, task, id, Some(effect.id));
        }
      }
    }
  }

  /** The effect is UNKNOWN, one version on if it was running, and its task waits for recovery. */
  lemma {:induction false} MarkEffectUnknownOutcome(s: State, id: Id, expected: nat, g: Guard, now: nat)
    requires Inv(s, ALWAYS) && MarkEffectUnknown(s, id, expected, g, now).Success?
    ensures var s' := MarkEffectUnknown(s, id, expected, g, now).value;
            && Owner(s.home, g, now) && id in s.work.effects
            && var e := s.work.effects[id];
               && e.version == expected && e.taskId == g.taskId && e.taskId in s.home.tasks
               && (e.status.Executing? || e.status.Unknown?)
               && var task, version := s.home.tasks[e.taskId], if e.status.Executing? then e.version + 1 else e.version;
                  && s'.work == s.work.(effects := s.work.effects[id := e.(status := Unknown, version := version)])
                  && s'.home.tasks == s.home.tasks[e.taskId := if task.condition.RecoveryRequired? then task
                                                              else task.(condition := RecoveryRequired, version := task.version + 1)]
                  && s'.home == s.home.(sessions := s'.home.sessions, events := s'.home.events,
                                        checkpoints := s'.home.checkpoints, tasks := s'.home.tasks)
                  && Logs(s.home, s'.home, task, [ReportId(id, version)])
                  && CursorMoved(s.home, s'.home, task, Some(id))
  {
    hide Inv, GuardLive, JournalTask, Logs, CursorMoved, AdvanceCursor, Keyed, Readable;
    OwnerIff(s.home, g, now);
    OwnedTask(s, g, now);
    var e := s.work.effects[id];
    var task := s.home.tasks[e.taskId];
    InvRows(s, id);
    InvTask(s, e.taskId);
    var stopped := if task.condition.RecoveryRequired? then task
                   else task.(condition := RecoveryRequired, version := task.version + 1);
    var h := s.home.(tasks := s.home.tasks[task.id := stopped]);
    var version := if e.status.Executing? then e.version + 1 else e.version;
    SameKeyed(s.home, h, task);
    LogAndMove(h, task, ReportId(id, version), Some(id));
    LogsFrom(s.home, h, MarkEffectUnknown(s, id, expected, g, now).value.home, task, [ReportId(id, version)], Some(id));
  }

  lemma {:induction false} OwnedTask(s: State, g: Guard, now: nat)
    requires Owner(s.home, g, now)
    ensures s.home.executions[g.executionId].taskId == g.taskId
  {
  }

  lemma {:induction false} SameKeyed(h: Home, h': Home, task: Task)
    requires Keyed(h, task) && h'.sessions == h.sessions
    ensures Keyed(h', task)
  {
  }

  /** Logs and cursors do not depend on the other tables. */
  lemma {:induction false} LogsFrom(h: Home, mid: Home, h': Home, task: Task, ids: seq<EventId>, done: Option<Id>)
    requires mid.sessions == h.sessions && mid.events == h.events && mid.checkpoints == h.checkpoints
    ensures Logs(h, h', task, ids) <==> Logs(mid, h', task, ids)
    ensures CursorMoved(h, h', task, done) <==> CursorMoved(mid, h', task, done)
  {
  }

  /** An effect that never ran is closed with the given status, its open request with it, and its answer is stored. */
  lemma {:induction false} SettleUnexecutedEffectOutcome(s: State, id: Id, status: EffectStatus, expected: nat, call: ToolCall,
                                                         result: ToolResult, g: Guard, now: nat)
    requires Inv(s, ALWAYS) && SettleUnexecutedEffect(s, id, status, expected, call, result, g, now).Success?
    ensures var s' := SettleUnexecutedEffect(s, id, status, expected, call, result, g, now).value;
            && Owner(s.home, g, now) && id in s.work.effects && (status.Denied? || status.EffectCancelled?)
            && var e := s.work.effects[id];
               && e.version == expected && e.taskId == g.taskId && e.taskId in s.home.tasks && call.id == e.callId == result.callId
               && s'.work.observations == s.work.observations[(e.taskId, e.callId) := Observation(call, result)]
               && s'.work.effects[id].status == status
               && if (e.taskId, e.callId) in s.work.observations then s' == s
                  else
                    && (e.status.Prepared? || e.status.EffectWaiting? || e.status == status)
                    && s'.work.effects == s.work.effects[id := e.(status := status, version := e.version + 1)]
                    && ClosedRequest(s.work.approvals, s'.work.approvals, e)
                    && s'.work == s.work.(effects := s'.work.effects, approvals := s'.work.approvals, observations := s'.work.observations)
                    && s'.home == s.home.(sessions := s'.home.sessions, events := s'.home.events, checkpoints := s'.home.checkpoints)
                    && Logs(s.home, s'.home, s.home.tasks[e.taskId], [EventId("effect.settled", id, Number(e.version + 1))])
                    && CursorMoved(s.home, s'.home, s.home.tasks[e.taskId], Some(id))
  {
    hide Inv, GuardLive, JournalTask, Logs, CursorMoved, AdvanceCursor, Keyed, Readable, CloseRequest, ClosedRequest;
    OwnerIff(s.home, g, now);
    OwnedTask(s, g, now);
    var e := s.work.effects[id];
    InvRows(s, id);
    InvOwned(s, g);
    InvTask(s, e.taskId);
    ClosesRequest(s.work.approvals, e);
    if (e.taskId, call.id) !in s.work.observations {
      LogAndMove(s.home, s.home.tasks[e.taskId], EventId("effect.settled", id, Number(e.version + 1)), Some(id));
    } else {
      var key := (e.taskId, call.id);
      assert s.work.observations[key := Observation(call, result)] == s.work.observations;
    }
  }

  lemma {:induction false} InvOwned(s: State, g: Guard)
    requires Inv(s, ALWAYS) && g.executionId in s.home.executions
    ensures s.home.executions[g.executionId].id == g.executionId && s.home.executions[g.executionId].taskId in s.home.tasks
  {
    hide DispositionsSound, PendingBacked, ApprovalsUnique, EventsNumbered, TurnsDense, CursorsBehind, EventsHoused;
  }

  /** The approval the effect names is expired if it was undecided; every other approval is as before. */
  ghost predicate ClosedRequest(before: map<Id, Approval>, after: map<Id, Approval>, e: Effect) {
    && after.Keys == before.Keys
    && forall a :: a in before ==>
         after[a] == if e.approvalId == Some(a) && before[a].status.Pending?
                     then before[a].(status := Expired, source := Some("effect_settled"), version := before[a].version + 1)
                     else before[a]
  }

  lemma {:induction false} ClosesRequest(approvals: map<Id, Approval>, e: Effect)
    ensures ClosedRequest(approvals, CloseRequest(approvals, e), e)
  {
  }
}
