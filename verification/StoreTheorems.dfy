/**
 What the store promises over every run: at-most-once effects, approvals consumed
 exactly once, bounded retries, dense logs, idempotent submission, and ownership
 only of tasks that can still make progress.
 */
module StoreTheorems {
  import opened Wrappers
  import opened StoreModel
  import opened StoreInvariants
  import opened SessionSpec
  import opened LeaseSpec
  import opened EffectSpec
  import opened SessionProofs
  import opened StoreRuns
  import opened EffectHistory

  // ------------------------------------------------------------------ effects

  /** The effect tables after each step of the run. */
  ghost function Works(ops: seq<Op>): seq<Work> {
    seq(|ops| + 1, i requires 0 <= i <= |ops| => At(ops, i).work)
  }

  lemma {:induction false} RunIsHistory(ops: seq<Op>)
    requires Deciding(ops)
    ensures History(Works(ops)) && Works(ops)[0] == Empty.work && Last(Works(ops)) == After(ops).work
  {
    hide WorkSound, WorkEvolves, After, Deciding;
    var ws := Works(ops);
    forall i | 0 <= i < |ws|
      ensures WorkSound(ws[i]) && (i > 0 ==> WorkEvolves(ws[i - 1], ws[i]))
    {
      DecidingPrefix(ops, i);
      WorkRun(ops[..i]);
      if i > 0 {
        assert ops[..i][..i - 1] == ops[..i - 1];
      }
    }
    assert ops[..|ops|] == ops;
    assert At(ops, 0) == Empty by {
      EmptyRun(ops);
    }
  }

  lemma {:induction false} EmptyRun(ops: seq<Op>)
    ensures At(ops, 0) == Empty
  {
  }

  /** No run, whatever the takeovers and crashes in it, starts an effect twice. */
  lemma {:induction false} EffectsRunAtMostOnce(ops: seq<Op>, e: Id)
    requires Deciding(ops)
    ensures Entries(Works(ops), e) <= Starts(Works(ops), e) <= 1
  {
    hide History;
    RunIsHistory(ops);
    AtMostOnce(Works(ops), e);
  }

  /** An effect that policy gates has run if and only if an approval of it is consumed. */
  lemma {:induction false} GatedEffectsArePaid(ops: seq<Op>, e: Id)
    requires Deciding(ops)
    requires var w := After(ops).work; e in w.effects && w.effects[e].content.decision.RequireApproval?
    ensures var w := After(ops).work;
            Entries(Works(ops), e) == 1 <==>
            exists a :: a in w.approvals && w.approvals[a].effectId == e && w.approvals[a].status.Consumed?
  {
    hide History, After;
    RunIsHistory(ops);
    RunsIffConsumed(Works(ops), e);
  }

  /** An effect and all its retries start at most once plus once per explicit retry decision. */
  lemma {:induction false} RetriesAreBudgeted(ops: seq<Op>, family: set<Id>, root: Id)
    requires Deciding(ops) && RetryFamily(After(ops).work, family, root)
    ensures TotalEntries(Works(ops), family) <= 1 + |RetriesOf(After(ops).work, family)|
  {
    hide History, After, RetryFamily, RetriesOf;
    RunIsHistory(ops);
    RetriesBoundExecutions(Works(ops), family, root);
  }

  /**
   One decision per unknown effect for ever, whatever its kind: the effect never starts
   again, and a retried or abandoned one stays unknown.
   */
  lemma {:induction false} UnknownDecidedOnce(ops: seq<Op>, i: nat, j: nat, d: Id, f: Id)
    requires Deciding(ops) && i <= j <= |ops| && d in At(ops, i).work.dispositions && f in At(ops, j).work.dispositions
    requires At(ops, j).work.dispositions[f].unknownEffectId == At(ops, i).work.dispositions[d].unknownEffectId
    ensures f == d && At(ops, j).work.dispositions[d] == At(ops, i).work.dispositions[d]
    ensures var u := At(ops, i).work.dispositions[d].unknownEffectId;
            && u in At(ops, j).work.effects && Spent(At(ops, j).work.effects[u].status)
            && (!At(ops, i).work.dispositions[d].kind.ConfirmResult? ==> At(ops, j).work.effects[u].status.Unknown?)
            && (j < |ops| ==> !Enters(At(ops, j).work.effects, At(ops, j + 1).work.effects, u))
  {
    hide History, After, Enters;
    RunIsHistory(ops);
    DisposedForGood(Works(ops), i, j, d, f);
  }

  // --------------------------------------------------------------------- logs

  lemma {:induction false} AlwaysClean(ops: seq<Op>)
    ensures Clean(ops, ALWAYS)
  {
    hide BindsActive;
  }

  lemma {:induction false} HomeBetween(ops: seq<Op>, i: nat, j: nat)
    requires i <= j <= |ops|
    ensures HomeEvolves(At(ops, i).home, At(ops, j).home, ALWAYS)
    decreases j - i
  {
    hide HomeSound, After, Clean;
    if i < j {
      HomeBetween(ops, i, j - 1);
      AlwaysClean(ops[..j]);
      HomeRun(ops[..j], ALWAYS);
      assert ops[..j][..j - 1] == ops[..j - 1];
      EvolvesTransitively(At(ops, i).home, At(ops, j - 1).home, At(ops, j).home);
    }
  }

  lemma {:induction false} EvolvesTransitively(h: Home, h': Home, h'': Home)
    requires HomeEvolves(h, h', ALWAYS) && HomeEvolves(h', h'', ALWAYS)
    ensures HomeEvolves(h, h'', ALWAYS)
  {
  }

  /** This transaction creates the session with a counter that is already ahead. */
  ghost predicate OpensAhead(s: State, op: Op, k: Id) {
    && op.Sessions? && op.session.CreateSessionOp? && op.session.session.id == k && op.session.session.eventSequence > 0
    && Apply(s, op).Success?
  }

  lemma {:induction false} CreateSessionGap(h: Home, session: Session)
    requires EventsHoused(h.sessions, h.events) && CreateSession(h, session).Success?
    ensures var h' := CreateSession(h, session).value;
            && session.id !in h.sessions && h'.sessions.Keys == h.sessions.Keys + {session.id}
            && Gap(h'.sessions, h'.events, session.id) == session.eventSequence
  {
    hide SessionEvents, EventClash;
    NoEventsYet(h.events, session.id);
    var h' := CreateSession(h, session).value;
    SessionEventsAppend(h.events, h'.events[|h.events|], session.id);
  }

  /** A step keeps the gap of a stored session; a new one has the gap it was created with. */
  lemma {:induction false} GapStep(s: State, op: Op, k: Id)
    requires HomeSound(s.home, ALWAYS) && LeasesExclusive(s.home.executions) && k in Next(s, op).home.sessions
    ensures var h, h' := s.home, Next(s, op).home;
            if k in h.sessions then Gap(h'.sessions, h'.events, k) == Gap(h.sessions, h.events, k) && !OpensAhead(s, op, k)
            else Gap(h'.sessions, h'.events, k) == 0 <==> !OpensAhead(s, op, k)
  {
    hide LeasesExclusive, CreateSession, LeaseStep, EffectStep, Gap;
    HomeStep(s, op, Scope(CountsFromZero(op), false, false));
    if op.Sessions? && op.session.CreateSessionOp? && Apply(s, op).Success? {
      CreateSessionGap(s.home, op.session.session);
    }
  }

  lemma {:induction false} OpenedStays(ops: seq<Op>, i: nat, j: nat, k: Id)
    requires i < j <= |ops| && OpensAhead(At(ops, i), ops[i], k)
    ensures k in At(ops, j).home.sessions
  {
    hide After, CreateSession;
    AtStep(ops, i);
    AlwaysClean(ops[..i]);
    HomeRun(ops[..i], ALWAYS);
    CreateSessionGap(At(ops, i).home, ops[i].session.session);
    HomeBetween(ops, i + 1, j);
  }

  lemma {:induction false} GapRun(ops: seq<Op>, k: Id)
    requires k in After(ops).home.sessions
    ensures var h := After(ops).home;
            Gap(h.sessions, h.events, k) == 0 <==> forall i :: 0 <= i < |ops| ==> !OpensAhead(At(ops, i), ops[i], k)
  {
    hide OpensAhead, Gap, HomeSound, LeasesExclusive, Next;
    if |ops| > 0 {
      var n := |ops| - 1;
      var before := ops[..n];
      AlwaysClean(before);
      HomeRun(before, ALWAYS);
      LeaseRun(before);
      GapStep(After(before), ops[n], k);
      assert forall i :: 0 <= i < n ==> At(before, i) == At(ops, i) && before[i] == ops[i] by {
        assert forall i :: 0 <= i < n ==> before[..i] == ops[..i];
      }
      assert before[..n] == before;
      forall i | 0 <= i < n
        ensures OpensAhead(At(ops, i), ops[i], k) ==> k in After(before).home.sessions
      {
        if OpensAhead(At(before, i), before[i], k) {
          OpenedStays(before, i, n, k);
        }
      }
      if k in After(before).home.sessions {
        GapRun(before, k);
      }
      assert At(ops, n) == After(before);
    }
  }

  /**
   In every run the turns of a session are numbered 1..n, its events without holes up to
   its counter, and no cursor runs ahead of its log. The events are numbered exactly
   1..event_sequence if and only if the session did not arrive with a counter above zero.
   */
  lemma {:induction false} LogsAreDense(ops: seq<Op>, k: Id)
    requires k in After(ops).home.sessions
    ensures var h := After(ops).home;
            && TurnsNumbered(SessionTurns(h.turns, k))
            && MaxTurn(h.turns, k) == |SessionTurns(h.turns, k)|
            && NumberedAfter(SessionEvents(h.events, k), Gap(h.sessions, h.events, k)) && Gap(h.sessions, h.events, k) >= 0
            && (forall t :: t in h.checkpoints && h.checkpoints[t].sessionId == k ==>
                  && h.checkpoints[t].eventSequence <= h.sessions[k].eventSequence
                  && h.checkpoints[t].consumedInput <= |SessionTurns(h.turns, k)|)
            && (|SessionEvents(h.events, k)| == h.sessions[k].eventSequence
                <==> forall i :: 0 <= i < |ops| ==> !OpensAhead(At(ops, i), ops[i], k))
  {
    hide After, OpensAhead;
    AlwaysClean(ops);
    HomeRun(ops, ALWAYS);
    MaxTurnIsCount(After(ops).home.turns, k);
    GapRun(ops, k);
  }

  // -------------------------------------------------------------- submissions

  /** A session holds at most one turn per client submission id. */
  ghost predicate SubmissionsUnique(turns: seq<Turn>) {
    forall i, j :: 0 <= i < j < |turns| && turns[i].submissionId.Some? && turns[i].sessionId == turns[j].sessionId
              ==> turns[i].submissionId != turns[j].submissionId
  }

  /** Only `append_turn` writes the turn log. */
  lemma {:induction false} TurnsElsewhereKept(s: State, op: Op)
    requires !(op.Sessions? && op.session.AppendTurnOp?)
    ensures Next(s, op).home.turns == s.home.turns
  {
    hide CreateSession, CloseSession, StartTask, PrepareTaskExecution, CreateTask, UpdateTask, CancelTask;
    hide RequestControl, SettleControl, AppendEvent, CommitCheckpoint, PrepareEffectBatch, RequestEffectApproval;
    hide ResolveEffectApproval, DecideApproval, ClaimEffect, CommitEffect, MarkEffectUnknown, SettleUnexecutedEffect;
    hide ResolveRecovery, ClaimExecution, RenewExecution, ReleaseExecution, MarkCommandRecoveryRequired;
    hide AcquireWorkspace, RenewWorkspace, ReleaseWorkspace;
  }

  lemma {:induction false} AppendKeepsUnique(h: Home, turn: Turn, expected: Option<nat>)
    requires SubmissionsUnique(h.turns)
    ensures var r := AppendTurn(h, turn, expected);
            r.Success? ==> SubmissionsUnique(r.value.turns) && h.turns <= r.value.turns
  {
    hide MaxTurn, EventClash;
    var r := AppendTurn(h, turn, expected);
    if r.Success? && r.value.turns != h.turns && turn.submissionId.Some? {
      assert forall i :: 0 <= i < |h.turns| ==> !IsSubmission(h.turns[i], turn.sessionId, turn.submissionId.value);
    }
  }

  lemma {:induction false} SubmissionsRun(ops: seq<Op>, i: nat, j: nat)
    requires i <= j <= |ops|
    ensures SubmissionsUnique(At(ops, j).home.turns) && At(ops, i).home.turns <= At(ops, j).home.turns
    decreases j
  {
    hide SubmissionsUnique, Next, After;
    if j > 0 {
      SubmissionsRun(ops, if i < j then i else j - 1, j - 1);
      AtStep(ops, j - 1);
      SubmissionStep(At(ops, j - 1), ops[j - 1]);
    } else {
      EmptyRun(ops);
      assert SubmissionsUnique([]) by {
        EmptyUnique();
      }
    }
  }

  lemma {:induction false} EmptyUnique()
    ensures SubmissionsUnique([])
  {
  }

  lemma {:induction false} SubmissionStep(s: State, op: Op)
    requires SubmissionsUnique(s.home.turns)
    ensures SubmissionsUnique(Next(s, op).home.turns) && s.home.turns <= Next(s, op).home.turns
  {
    hide SubmissionsUnique, AppendTurn;
    if op.Sessions? && op.session.AppendTurnOp? {
      AppendKeepsUnique(s.home, op.session.turn, op.session.current);
    } else {
      TurnsElsewhereKept(s, op);
    }
  }

  /** An accepted submission is in the log, with the content it was sent with. */
  lemma {:induction false} AcceptedIsLogged(h: Home, turn: Turn, expected: Option<nat>) returns (i: nat)
    requires turn.submissionId.Some? && AppendTurn(h, turn, expected).Success?
    ensures var turns := AppendTurn(h, turn, expected).value.turns;
            i < |turns| && IsSubmission(turns[i], turn.sessionId, turn.submissionId.value) && SameSubmission(turns[i], turn)
  {
    hide MaxTurn, EventClash;
    if Submitted(h.turns, turn.sessionId, turn.submissionId.value) {
      i :| 0 <= i < |h.turns| && IsSubmission(h.turns[i], turn.sessionId, turn.submissionId.value);
    } else {
      i := |h.turns|;
    }
  }

  lemma {:induction false} LoggedIsReplayed(h: Home, turn: Turn, i: nat, expected: Option<nat>)
    requires SubmissionsUnique(h.turns) && i < |h.turns| && turn.submissionId.Some?
    requires IsSubmission(h.turns[i], turn.sessionId, turn.submissionId.value)
    requires turn.sessionId in h.sessions && h.sessions[turn.sessionId].status.Open?
    ensures AppendTurn(h, turn, expected)
            == if SameSubmission(h.turns[i], turn) then Success(h) else Failure(SubmissionConflict)
  {
    hide MaxTurn, EventClash, Journal;
    assert Submitted(h.turns, turn.sessionId, turn.submissionId.value);
    forall j | 0 <= j < |h.turns| && IsSubmission(h.turns[j], turn.sessionId, turn.submissionId.value)
      ensures j == i
    {
    }
  }

  /** Sending an accepted submission again, at any later time and version, changes nothing. */
  lemma {:induction false} ResubmissionChangesNothing(ops: seq<Op>, i: nat, j: nat, turn: Turn, current: Option<nat>,
                                                      again: Option<nat>)
    requires i < j <= |ops| && ops[i] == Sessions(AppendTurnOp(turn, current)) && turn.submissionId.Some?
    requires Apply(At(ops, i), ops[i]).Success?
    requires var h := At(ops, j).home; turn.sessionId in h.sessions && h.sessions[turn.sessionId].status.Open?
    ensures Apply(At(ops, j), Sessions(AppendTurnOp(turn, again))) == Success(At(ops, j))
  {
    hide After, AppendTurn, SubmissionsUnique;
    AtStep(ops, i);
    var n := AcceptedIsLogged(At(ops, i).home, turn, current);
    SubmissionsRun(ops, i + 1, j);
    LoggedIsReplayed(At(ops, j).home, turn, n, again);
  }

  // ---------------------------------------------------------------- acquiring

  /**
   Preparing a task and then claiming it at the version that was returned owns only
   a task that is active and not in recovery, whatever is written in between.
   */
  lemma {:induction false} AcquiredTaskIsLive(ops: seq<Op>, i: nat, j: nat, task: Task, x: Execution, now: nat)
    requires Clean(ops, OWNED) && i < j < |ops|
    requires ops[i] == Sessions(PrepareTaskExecutionOp(task)) && Apply(At(ops, i), ops[i]).Success?
    requires task.id in At(ops, i + 1).home.tasks && x.taskId == task.id
    requires ops[j] == Leases(ClaimExecutionOp(x, Some(At(ops, i + 1).home.tasks[task.id].version), now))
    requires Apply(At(ops, j), ops[j]).Success?
    ensures var t := At(ops, j).home.tasks[task.id];
            t == At(ops, i + 1).home.tasks[task.id] && t.outcome.Active? && !t.condition.RecoveryRequired?
  {
    hide After, Clean, PrepareTaskExecution, ClaimExecution, EventsNumbered, Gap, TurnsDense, CursorsBehind;
    AtStep(ops, i);
    CleanPrefix(ops, i + 1, OWNED);
    HomeRun(ops[..i + 1], OWNED);
    CleanPrefix(ops, i, OWNED);
    HomeRun(ops[..i], OWNED);
    HomeBetween(ops, i + 1, j);
    PreparedIsActiveTask(At(ops, i).home, task);
    var h' := At(ops, i + 1).home;
    assert h' == PrepareTaskExecution(At(ops, i).home, task).value;
    ActiveTaskIsActive(h', task.id);
    ClaimChecksTask(At(ops, j).home, x, Some(At(ops, i + 1).home.tasks[task.id].version), now);
  }

  lemma {:induction false} ActiveTaskIsActive(h: Home, t: Id)
    requires HomeSound(h, OWNED) && t in h.tasks && h.tasks[t].sessionId.Some? && h.tasks[t].sessionId.value in h.sessions
    requires h.sessions[h.tasks[t].sessionId.value].activeTask == Some(t)
    ensures h.tasks[t].outcome.Active?
  {
    var k := h.tasks[t].sessionId.value;
    assert h.sessions[k].activeTask.Some? && h.tasks[t].sessionId == Some(k);
  }

  /** A prepared task is the active task of the session it is bound to. */
  lemma {:induction false} PreparedIsActiveTask(h: Home, task: Task)
    requires PrepareTaskExecution(h, task).Success? && Candidate(h, task).id == task.id
    ensures var h' := PrepareTaskExecution(h, task).value;
            && task.id in h'.tasks && h'.tasks[task.id].sessionId.Some?
            && h'.tasks[task.id].sessionId.value in h'.sessions
            && h'.sessions[h'.tasks[task.id].sessionId.value].activeTask == Some(task.id)
            && h'.tasks[task.id].outcome == Candidate(h, task).outcome
  {
    hide Readable;
    var stored := if task.id in h.tasks then h else h.(tasks := h.tasks[task.id := task]);
    assert stored.tasks[task.id] == Candidate(h, task);
    if Candidate(h, task).sessionId.None? {
      assert PrepareTaskExecution(h, task) == BindToRuntimeSession(stored, Candidate(h, task));
    }
  }

  lemma {:induction false} ClaimChecksTask(h: Home, x: Execution, expected: Option<nat>, now: nat)
    requires ClaimExecution(h, x, expected, now).Success?
    ensures x.taskId in h.tasks && VersionMatches(h.tasks[x.taskId].version, expected)
            && !h.tasks[x.taskId].condition.RecoveryRequired?
  {
    hide MaxGeneration, Expire, Journal;
  }
}
