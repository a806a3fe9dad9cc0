/**
 The store itself: an object whose methods read rows, check, and write. Each method
 is one write transaction. Its writes gather in local copies that only the commit
 at the end publishes, so a refusal part way leaves the tables as they were.
 */
module SqliteStore {
  import opened Wrappers
  import opened StoreModel
  import opened SessionSpec
  import opened LeaseSpec
  import opened EffectSpec
  import opened StoreInvariants
  import opened EffectProofs
  import opened StoreRuns
  import RowChanges
  import EffectOutcomes
  import LeaseOutcomes
  import SessionOutcomes

  /** The call committed what its specification says, or rolled back with the same error. */
  ghost predicate Ran<T>(before: State, spec: Result<State, Error>, after: State, r: Result<T, Error>) {
    match spec
    case Success(s) => after == s && r.Success?
    case Failure(e) => after == before && r == Failure(e)
  }

  /** Every method call is a step of the run relation. */
  lemma {:induction false} CallIsStep<T>(before: State, op: Op, after: State, r: Result<T, Error>)
    requires Ran(before, Apply(before, op), after, r)
    ensures after == Next(before, op)
  {
  }

  /** The result of a transaction on a valid store is valid. */
  ghost predicate StaysValid(s: State, r: Result<State, Error>) {
    Inv(s, ALWAYS) && r.Success? ==> Inv(r.value, ALWAYS)
  }

  lemma {:induction false} SessionCall(s: State, op: SessionOp)
    ensures StaysValid(s, OnHome(s, SessionStep(s.home, s.work.effects, op)))
  {
    hide WorkSound, LeasesExclusive, HomeSound, HomeEvolves, SessionStep;
    if Inv(s, ALWAYS) {
      SessionStepHome(s.home, s.work.effects, op, ALWAYS);
      SessionStepLeavesLeases(s.home, s.work.effects, op);
    }
  }

  lemma {:induction false} LeaseCall(s: State, op: LeaseOp)
    ensures StaysValid(s, OnHome(s, LeaseStep(s.home, op)))
  {
    hide WorkSound, LeasesExclusive, HomeSound, HomeEvolves, ExecutionsEvolve, LeaseStep;
    if Inv(s, ALWAYS) {
      LeaseStepHome(s.home, op, ALWAYS);
      LeaseStepLeases(s.home, op);
    }
  }

  lemma {:induction false} EffectCall(s: State, op: EffectOp)
    ensures (op.DecideApprovalOp? ==> DecidesSafely(s.work, op.approval)) ==> StaysValid(s, EffectStep(s, op))
  {
    hide WorkSound, LeasesExclusive, HomeSound, HomeEvolves, WorkEvolves, ExecutionsEvolve, EffectStep;
    if Inv(s, ALWAYS) && (op.DecideApprovalOp? ==> DecidesSafely(s.work, op.approval)) {
      EffectStepWork(s, op);
      EffectStepLeases(s, op);
      EffectStepHome(s, op, ALWAYS);
    }
  }

  // --------------------------------------------------- what a valid store tells

  lemma {:induction false} ClaimResult(s: State, id: Id, expected: nat, g: Guard, terms: ClaimTerms, now: nat)
    ensures Inv(s, ALWAYS) ==>
              && (ClaimEffect(s, id, expected, g, terms, now).Success? <==> EffectOutcomes.Startable(s, id, expected, g, terms, now))
              && (ClaimEffect(s, id, expected, g, terms, now).Success? ==>
                    EffectOutcomes.Begun(s, ClaimEffect(s, id, expected, g, terms, now).value, id))
  {
    hide *;
    if Inv(s, ALWAYS) {
      EffectOutcomes.ClaimEffectIff(s, id, expected, g, terms, now);
    }
  }

  lemma {:induction false} CommitResult(s: State, effect: Effect, expected: nat, call: Option<ToolCall>, result: Option<ToolResult>,
                                        g: Guard, now: nat)
    ensures Inv(s, ALWAYS) ==>
              && (CommitEffect(s, effect, expected, call, result, g, now).Success?
                  <==> EffectOutcomes.Committable(s, effect, expected, call, result, g, now))
              && (CommitEffect(s, effect, expected, call, result, g, now).Success? ==>
                    EffectOutcomes.Committed(s, CommitEffect(s, effect, expected, call, result, g, now).value, effect, call, result))
  {
    hide *;
    if Inv(s, ALWAYS) {
      EffectOutcomes.CommitEffectIff(s, effect, expected, call, result, g, now);
    }
  }

  lemma {:induction false} TakeResult(s: State, x: Execution, expected: Option<nat>, now: nat)
    ensures Inv(s, ALWAYS) ==>
              forall max: nat :: IsMaxGeneration(s.home.executions, x.taskId, max) ==>
                && (ClaimExecution(s.home, x, expected, now).Success? <==> LeaseOutcomes.Claimable(s.home, x, expected, now, max))
                && (ClaimExecution(s.home, x, expected, now).Success? ==>
                      LeaseOutcomes.Taken(s.home, ClaimExecution(s.home, x, expected, now).value, x, max))
  {
    hide *;
    if Inv(s, ALWAYS) {
      EffectOutcomes.InvHome(s);
      forall max: nat | IsMaxGeneration(s.home.executions, x.taskId, max)
        ensures ClaimExecution(s.home, x, expected, now).Success? <==> LeaseOutcomes.Claimable(s.home, x, expected, now, max)
        ensures ClaimExecution(s.home, x, expected, now).Success? ==>
                  LeaseOutcomes.Taken(s.home, ClaimExecution(s.home, x, expected, now).value, x, max)
      {
        LeaseOutcomes.ClaimExecutionIff(s.home, x, expected, now, max);
      }
    }
  }

  lemma {:induction false} OnlyOwner(s: State, x: Id)
    ensures Inv(s, ALWAYS) && x in s.home.executions && s.home.executions[x].status.ExecutionRunning? ==>
              forall g: Guard, t: nat :: GuardLive(s.home.executions, g, t) && g.taskId == s.home.executions[x].taskId ==>
                var row := s.home.executions[x]; g == Guard(x, row.taskId, row.token, row.generation, row.ownerId)
  {
    hide WorkSound, HomeSound;
  }

  lemma {:induction false} TurnInPlace(s: State, turn: Turn)
    ensures Inv(s, ALWAYS) && turn in s.home.turns ==>
              var log := SessionTurns(s.home.turns, turn.sessionId);
              1 <= turn.sequence <= |log| && log[turn.sequence - 1] == turn
  {
    hide WorkSound, LeasesExclusive, EventsNumbered, CursorsBehind, SessionTurns;
    if Inv(s, ALWAYS) && turn in s.home.turns {
      var i :| 0 <= i < |s.home.turns| && s.home.turns[i] == turn;
      TurnOfSession(s.home.turns, i);
      var log := SessionTurns(s.home.turns, turn.sessionId);
      assert TurnsNumbered(log);
      var j :| 0 <= j < |log| && log[j] == turn;
    }
  }

  lemma {:induction false} TurnOfSession(turns: seq<Turn>, i: nat)
    requires i < |turns|
    ensures turns[i] in SessionTurns(turns, turns[i].sessionId)
  {
    if i < |turns| - 1 {
      TurnOfSession(turns[..|turns| - 1], i);
    }
  }

  lemma {:induction false} KeyedEffect(s: State, e: Id)
    ensures Inv(s, ALWAYS) && e in s.work.effects ==> s.work.effects[e].id == e
  {
    hide LeasesExclusive, HomeSound;
  }

  lemma {:induction false} OnlyDecision(s: State, d: Id)
    ensures Inv(s, ALWAYS) && d in s.work.dispositions ==>
              forall k :: k in s.work.dispositions && s.work.dispositions[k].unknownEffectId == s.work.dispositions[d].unknownEffectId ==>
                k == d
  {
    hide LeasesExclusive, HomeSound;
  }

  // ---------------------------------------------------------- lease table rows

  function ExpireRows(executions: map<Id, Execution>, rows: set<Id>): map<Id, Execution> {
    map k | k in executions :: if k in rows then Release(executions[k]) else executions[k]
  }

  predicate AnyUnexpired(executions: map<Id, Execution>, rows: set<Id>, now: nat) {
    exists k :: k in rows && k in executions && executions[k].expiresAt > now
  }

  /** Release the given rows one by one, stopping at the first whose lease still runs. */
  method ExpireLoop(executions: map<Id, Execution>, rows: set<Id>, now: nat)
    returns (ok: bool, after: map<Id, Execution>)
    requires rows <= executions.Keys
    ensures ok <==> !AnyUnexpired(executions, rows, now)
    ensures ok ==> after == ExpireRows(executions, rows)
  {
    after := executions;
    var left := rows;
    while left != {}
      invariant left <= rows && after == ExpireRows(executions, rows - left)
      invariant !AnyUnexpired(executions, rows - left, now)
      decreases |left|
    {
      ghost var some := AnElement(left);
      var k: Id :| k in left;
      if after[k].expiresAt > now {
        return false, after;
      }
      after := after[k := Release(after[k])];
      left := left - {k};
    }
    assert rows - left == rows;
    return true, after;
  }

  /** `COALESCE(MAX(generation), 0)` over the task's rows. */
  method LatestGeneration(executions: map<Id, Execution>, taskId: Id) returns (g: nat)
    ensures IsMaxGeneration(executions, taskId, g)
  {
    g := 0;
    var left := executions.Keys;
    while left != {}
      invariant left <= executions.Keys
      invariant forall k :: k in executions && k !in left && executions[k].taskId == taskId ==> executions[k].generation <= g
      invariant g == 0 || exists k :: k in executions && executions[k].taskId == taskId && executions[k].generation == g
      decreases |left|
    {
      ghost var some := AnElement(left);
      var k: Id :| k in left;
      if executions[k].taskId == taskId && executions[k].generation > g {
        g := executions[k].generation;
      }
      left := left - {k};
    }
  }

  function ActiveOfSession(executions: map<Id, Execution>, sessionId: Id): (rows: set<Id>)
    ensures rows <= executions.Keys
  {
    set k | k in executions && IsActive(executions[k].status) && executions[k].sessionId == sessionId
  }

  function ActiveOfTask(executions: map<Id, Execution>, taskId: Id): (rows: set<Id>)
    ensures rows <= executions.Keys
  {
    set k | k in executions && IsActive(executions[k].status) && executions[k].taskId == taskId
  }

  lemma {:induction false} FirstSweep(executions: map<Id, Execution>, sessionId: Id, now: nat)
    ensures AnyUnexpired(executions, ActiveOfSession(executions, sessionId), now) <==> SessionHeld(executions, sessionId, now)
  {
    if k :| k in executions && IsActive(executions[k].status) && executions[k].sessionId == sessionId && executions[k].expiresAt > now {
      assert k in ActiveOfSession(executions, sessionId);
    }
  }

  lemma {:induction false} SecondSweep(executions: map<Id, Execution>, sessionId: Id, taskId: Id, now: nat)
    requires !SessionHeld(executions, sessionId, now)
    ensures var swept := ExpireRows(executions, ActiveOfSession(executions, sessionId));
            AnyUnexpired(swept, ActiveOfTask(swept, taskId), now) <==> TaskHeld(executions, taskId, now)
  {
    var swept := ExpireRows(executions, ActiveOfSession(executions, sessionId));
    if k :| k in executions && IsActive(executions[k].status) && executions[k].taskId == taskId && executions[k].expiresAt > now {
      assert k in ActiveOfTask(swept, taskId) && swept[k].expiresAt > now;
    }
    if k :| k in ActiveOfTask(swept, taskId) && k in swept && swept[k].expiresAt > now {
      assert swept[k] == executions[k];
    }
  }

  /** A sweep over the session's rows and one over the task's displace exactly the rows of either. */
  lemma {:induction false} SweepsDisplace(executions: map<Id, Execution>, sessionId: Id, taskId: Id)
    ensures var mine := ActiveOfSession(executions, sessionId);
            var swept := ExpireRows(executions, mine);
            ExpireRows(swept, ActiveOfTask(swept, taskId)) == Expire(executions, sessionId, taskId)
  {
    var swept := ExpireRows(executions, ActiveOfSession(executions, sessionId));
    var both := ExpireRows(swept, ActiveOfTask(swept, taskId));
    forall k | k in executions
      ensures both[k] == Expire(executions, sessionId, taskId)[k]
    {
      if k in ActiveOfSession(executions, sessionId) {
        assert swept[k] == Release(executions[k]) && k !in ActiveOfTask(swept, taskId);
      } else {
        assert swept[k] == executions[k];
      }
    }
  }

  lemma {:induction false} SweptIffDisplaced(executions: map<Id, Execution>, sessionId: Id, taskId: Id)
    ensures var mine := ActiveOfSession(executions, sessionId);
            var swept := ExpireRows(executions, mine);
            (mine != {} || ActiveOfTask(swept, taskId) != {})
            <==> exists k :: k in executions && Displaced(executions[k], sessionId, taskId)
  {
    var mine := ActiveOfSession(executions, sessionId);
    var swept := ExpireRows(executions, mine);
    if k :| k in executions && Displaced(executions[k], sessionId, taskId) {
      assert k in mine || (swept[k] == executions[k] && k in ActiveOfTask(swept, taskId));
    }
    if mine != {} {
      var k := AnElement(mine);
      assert Displaced(executions[k], sessionId, taskId);
    }
    if ActiveOfTask(swept, taskId) != {} {
      var k := AnElement(ActiveOfTask(swept, taskId));
      assert Displaced(executions[k], sessionId, taskId);
    }
  }

  class SQLiteStore {
    var home: Home
    var work: Work

    ghost function View(): State
      reads this
    {
      State(home, work)
    }

    /** The invariants that hold without any assumption on callers; see `DecideApproval` for the one exception. */
    ghost predicate Valid()
      reads this
    {
      Inv(View(), ALWAYS)
    }

    constructor ()
      ensures View() == Empty && Valid()
    {
      home, work := Empty.home, Empty.work;
      EmptySound(ALWAYS);
    }

    // ---------------------------------------------------------------- leases

    method ClaimExecution(x: Execution, expected: Option<nat>, now: nat) returns (r: Result<Execution, Error>)
      modifies this
      ensures Ran(old(View()), OnHome(old(View()), LeaseSpec.ClaimExecution(old(home), x, expected, now)), View(), r)
      ensures r.Success? ==> x.id in home.executions && home.executions[x.id] == r.value
      ensures old(Valid()) ==> Valid()
      ensures old(Valid()) && r.Success? ==>
                forall g: Guard, t: nat :: GuardLive(home.executions, g, t) && g.taskId == x.taskId ==>
                  g == Guard(x.id, x.taskId, x.token, r.value.generation, x.ownerId)
      ensures old(Valid()) ==> forall max: nat :: IsMaxGeneration(old(home).executions, x.taskId, max) ==>
                && (r.Success? <==> LeaseOutcomes.Claimable(old(home), x, expected, now, max))
                && (r.Success? ==> LeaseOutcomes.Taken(old(home), home, x, max))
    {
      hide Inv, LeaseOutcomes.Claimable, LeaseOutcomes.Taken;
      TakeResult(View(), x, expected, now);
      LeaseCall(View(), ClaimExecutionOp(x, expected, now));
      hide Journal, IsMaxGeneration, Expire, ExpireRows, ActiveOfSession, ActiveOfTask, SessionHeld, TaskHeld, AnyUnexpired;
      hide IsActive, Readable;
      :- Need(x.expiresAt > now, InvalidValue);
      var session :- RequireSession(home.sessions, x.sessionId);
      var mine := ActiveOfSession(home.executions, x.sessionId);
      var free, swept := ExpireLoop(home.executions, mine, now);
      FirstSweep(home.executions, x.sessionId, now);
      :- Need(free, LeaseConflict);
      var task :- RequireTask(home.tasks, x.taskId);
      :- Need(VersionMatches(task.version, expected), StaleVersion);
      :- Need(task.sessionId == Some(x.sessionId), InvalidValue);
      :- Need(!task.condition.RecoveryRequired?, RecoveryIsRequired);
      var rest := ActiveOfTask(swept, x.taskId);
      var cleared, executions := ExpireLoop(swept, rest, now);
      SecondSweep(home.executions, x.sessionId, x.taskId, now);
      :- Need(cleared, LeaseConflict);
      SweepsDisplace(home.executions, x.sessionId, x.taskId);
      SweptIffDisplaced(home.executions, x.sessionId, x.taskId);
      :- Need(x.id !in home.executions, AlreadyExists);
      :- Need(forall k :: k in home.executions ==> home.executions[k].token != x.token, InvalidValue);
      var newest := LatestGeneration(home.executions, x.taskId);
      MaxGenerationUnique(home.executions, x.taskId, newest);
      var claimed := x.(generation := newest + 1, status := ExecutionRunning);
      var takeover := mine != {} || rest != {};
      var h := home.(executions := executions[x.id := claimed]);
      h := h.(tasks := h.tasks[task.id := task.(condition := Running, version := task.version + 1)]);
      h :- Journal(h, session,
                   EventId(if takeover then "lease.takeover" else "lease.acquired", claimed.id, Number(claimed.generation)),
                   Some(task.id), "");
      home := h;
      OnlyOwner(View(), x.id);
      return Success(claimed);
    }

    method RenewExecution(g: Guard, now: nat, expiresAt: nat) returns (r: Result<Execution, Error>)
      modifies this
      ensures Ran(old(View()), OnHome(old(View()), LeaseSpec.RenewExecution(old(home), g, now, expiresAt)), View(), r)
      ensures r.Success? ==> GuardLive(home.executions, g, now) && r.value == home.executions[g.executionId]
      ensures r.Success? <==> RowChanges.Owner(old(home), g, now) && now < expiresAt
      ensures r.Success? ==> r.value == old(home).executions[g.executionId].(expiresAt := expiresAt, version := r.value.version)
      ensures old(Valid()) ==> Valid()
    {
      hide Inv;
      LeaseCall(View(), RenewExecutionOp(g, now, expiresAt));
      var future := expiresAt > now;
      :- Need(future, InvalidValue);
      :- Need(GuardLive(home.executions, g, now), LeaseLost);
      var x := home.executions[g.executionId];
      var renewed := x.(expiresAt := expiresAt, version := x.version + 1);
      home := home.(executions := home.executions[g.executionId := renewed]);
      return Success(renewed);
    }

    method ReleaseExecution(g: Guard, now: nat) returns (r: Result<(), Error>)
      modifies this
      ensures Ran(old(View()), OnHome(old(View()), LeaseSpec.ReleaseExecution(old(home), g, now)), View(), r)
      ensures r.Success? ==> !GuardLive(home.executions, g, now)
      ensures old(Valid()) ==> Valid()
    {
      hide Inv;
      LeaseCall(View(), ReleaseExecutionOp(g, now));
      var live := GuardLive(home.executions, g, now);
      :- Need(live, LeaseLost);
      var released := Release(home.executions[g.executionId]);
      var h := home.(executions := home.executions[g.executionId := released]);
      var task :- RequireTask(h.tasks, released.taskId);
      var idle := task;
      if task.condition.Running? {
        idle := task.(condition := Idle, version := task.version + 1);
      }
      h := h.(tasks := h.tasks[released.taskId := idle]);
      h :- JournalTask(h, task, EventId("lease.released", released.id, Number(released.version)));
      home := h;
      return Success(());
    }

    method AcquireWorkspace(lease: WorkspaceLease, g: Guard, now: nat) returns (r: Result<WorkspaceLease, Error>)
      modifies this
      ensures Ran(old(View()), OnHome(old(View()), LeaseSpec.AcquireWorkspace(old(home), lease, g, now)), View(), r)
      ensures r.Success? ==> lease.workspaceId in home.workspaces && r.value == home.workspaces[lease.workspaceId]
      ensures old(Valid()) ==> Valid()
    {
      hide Inv;
      LeaseCall(View(), AcquireWorkspaceOp(lease, g, now));
      hide EventClash;
      :- Need(lease.expiresAt > now, InvalidValue);
      :- Need(GuardLive(home.executions, g, now), LeaseLost);
      var x := home.executions[g.executionId];
      :- Need(lease.executionId == x.id && lease.sessionId == x.sessionId && lease.taskId == x.taskId
              && lease.ownerId == x.ownerId, LeaseLost);
      var acquired, takeover := lease.(generation := 1), false;
      if lease.workspaceId in home.workspaces {
        var prior := home.workspaces[lease.workspaceId];
        :- Need(prior.expiresAt <= now, LeaseConflict);
        :- Need(prior.token != lease.token, InvalidValue);
        acquired := lease.(generation := prior.generation + 1);
        takeover := prior.executionId in home.executions && IsActive(home.executions[prior.executionId].status);
      }
      var h := home.(workspaces := home.workspaces[lease.workspaceId := acquired]);
      var session :- RequireSession(h.sessions, acquired.sessionId);
      h :- Journal(h, session, EventId(if takeover then "lease.takeover" else "lease.acquired", acquired.workspaceId,
                                       Number(acquired.generation)), Some(acquired.taskId), "");
      home := h;
      return Success(acquired);
    }

    method RenewWorkspace(g: WorkspaceGuard, now: nat, expiresAt: nat) returns (r: Result<WorkspaceLease, Error>)
      modifies this
      ensures Ran(old(View()), OnHome(old(View()), LeaseSpec.RenewWorkspace(old(home), g, now, expiresAt)), View(), r)
      ensures r.Success? ==> WorkspaceGuardLive(home.workspaces, g, now) && r.value == home.workspaces[g.workspaceId]
      ensures old(Valid()) ==> Valid()
    {
      hide Inv;
      LeaseCall(View(), RenewWorkspaceOp(g, now, expiresAt));
      var future := expiresAt > now;
      :- Need(future, InvalidValue);
      :- Need(WorkspaceGuardLive(home.workspaces, g, now), LeaseLost);
      var renewed := home.workspaces[g.workspaceId].(expiresAt := expiresAt);
      home := home.(workspaces := home.workspaces[g.workspaceId := renewed]);
      return Success(renewed);
    }

    method ReleaseWorkspace(g: WorkspaceGuard, now: nat) returns (r: Result<(), Error>)
      modifies this
      ensures Ran(old(View()), OnHome(old(View()), LeaseSpec.ReleaseWorkspace(old(home), g, now)), View(), r)
      ensures r.Success? ==> !WorkspaceGuardLive(home.workspaces, g, now)
      ensures old(Valid()) ==> Valid()
    {
      hide Inv;
      LeaseCall(View(), ReleaseWorkspaceOp(g, now));
      var live := WorkspaceGuardLive(home.workspaces, g, now);
      :- Need(live, LeaseLost);
      var w := home.workspaces[g.workspaceId];
      var h := home.(workspaces := home.workspaces[g.workspaceId := w.(expiresAt := now)]);
      var session :- RequireSession(h.sessions, w.sessionId);
      h :- Journal(h, session, EventId("lease.released", w.workspaceId, Scoped(w.generation, w.executionId)), Some(w.taskId), "");
      home := h;
      return Success(());
    }

    method MarkCommandRecoveryRequired(executionId: Id, commandId: Id) returns (r: Result<(), Error>)
      modifies this
      ensures Ran(old(View()), OnHome(old(View()), LeaseSpec.MarkCommandRecoveryRequired(old(home), executionId, commandId)), View(), r)
      ensures old(Valid()) ==> Valid()
    {
      hide Inv;
      LeaseCall(View(), MarkCommandRecoveryRequiredOp(executionId, commandId));
      var known := executionId in home.executions;
      :- Need(known, NotFound);
      var x := home.executions[executionId];
      var h := home.(executions := home.executions[executionId := x.(status := ExecutionRecoveryRequired, version := x.version + 1)]);
      var task :- RequireTask(h.tasks, x.taskId);
      var stopped := task.(condition := RecoveryRequired, version := task.version + 1);
      h := h.(tasks := h.tasks[x.taskId := stopped]);
      h :- JournalTask(h, task, EventId("command.recovery_required", commandId, Number(stopped.version)));
      home := h;
      return Success(());
    }

    // ----------------------------------------------------- sessions and tasks

    method AppendTurn(turn: Turn, expected: Option<nat>) returns (r: Result<Turn, Error>)
      modifies this
      ensures Ran(old(View()), OnHome(old(View()), SessionSpec.AppendTurn(old(home), turn, expected)), View(), r)
      ensures r.Success? ==> r.value in home.turns && SameSubmission(r.value, turn)
      ensures old(Valid()) ==> Valid()
      ensures old(Valid()) && r.Success? ==>
                var log := SessionTurns(home.turns, turn.sessionId);
                1 <= r.value.sequence <= |log| && log[r.value.sequence - 1] == r.value
    {
      hide Inv;
      SessionCall(View(), AppendTurnOp(turn, expected));
      hide MaxTurn, Submitted, InsertTurn, Repeats, SameSubmission, IsSubmission;
      var session :- RequireSession(home.sessions, turn.sessionId);
      :- Need(session.status.Open?, InvalidValue);
      if turn.submissionId.Some? {
        var at := FindSubmission(home.turns, turn.sessionId, turn.submissionId.value);
        if at < |home.turns| {
          :- Need(Repeats(home.turns, turn, turn.submissionId.value), SubmissionConflict);
          RepeatedIsSame(home.turns, turn, turn.submissionId.value, at);
          TurnInPlace(View(), home.turns[at]);
          return Success(home.turns[at]);
        }
      }
      var inserted :- InsertNewTurn(home, session, turn, expected);
      home := inserted.0;
      TurnInPlace(View(), inserted.1);
      return Success(inserted.1);
    }

    method CreateSession(session: Session) returns (r: Result<Session, Error>)
      modifies this
      ensures Ran(old(View()), OnHome(old(View()), SessionSpec.CreateSession(old(home), session)), View(), r)
      ensures old(Valid()) ==> Valid()
    {
      hide Inv;
      SessionCall(View(), CreateSessionOp(session));
      hide EventClash;
      :- Need(session.id !in home.sessions, AlreadyExists);
      :- Need(session.activeTask.None? || session.activeTask.value in home.tasks, IntegrityError);
      var h := home.(sessions := home.sessions[session.id := session]);
      h :- Journal(h, session, EventId("session.created", session.id, Number(session.version)), None, "");
      home := h;
      return Success(h.sessions[session.id]);
    }

    method CloseSession(id: Id, expected: nat) returns (r: Result<Session, Error>)
      modifies this
      ensures Ran(old(View()), OnHome(old(View()), SessionSpec.CloseSession(old(home), id, expected)), View(), r)
      ensures r.Success? ==> r.value.status.Closed? && r.value.activeTask.None?
      ensures old(Valid()) ==> Valid()
    {
      hide Inv;
      SessionCall(View(), CloseSessionOp(id, expected));
      hide EventClash;
      var session :- RequireSession(home.sessions, id);
      :- Need(session.version == expected, StaleVersion);
      :- Need(session.activeTask.None?, InvalidValue);
      var closed := session.(status := Closed, version := session.version + 1);
      var h :- Journal(home, closed, EventId("session.closed", id, Number(closed.version)), None, "");
      home := h;
      return Success(closed);
    }

    method StartTask(sessionId: Id, task: Task, expected: nat) returns (r: Result<Task, Error>)
      modifies this
      ensures Ran(old(View()), OnHome(old(View()), SessionSpec.StartTask(old(home), sessionId, task, expected)), View(), r)
      ensures r.Success? ==> r.value == task.(sessionId := Some(sessionId))
      ensures old(Valid()) ==> Valid()
    {
      hide Inv;
      SessionCall(View(), StartTaskOp(sessionId, task, expected));
      hide EventClash;
      :- Need(Readable(task), InvalidValue);
      var session :- RequireSession(home.sessions, sessionId);
      :- Need(session.version == expected, StaleVersion);
      :- Need(session.status.Open?, InvalidValue);
      :- Need(session.activeTask.None?, LeaseConflict);
      :- Need(task.outcome.Active?, InvalidValue);
      :- Need(task.id !in home.tasks, AlreadyExists);
      var bound := task.(sessionId := Some(sessionId));
      var h := home.(tasks := home.tasks[task.id := bound]);
      h :- Journal(h, session.(activeTask := Some(task.id), version := session.version + 1),
                   EventId("task.started", bound.id, Number(bound.version)), Some(bound.id), "");
      home := h;
      return Success(bound);
    }

    method CreateTask(task: Task) returns (r: Result<Task, Error>)
      modifies this
      ensures Ran(old(View()), OnHome(old(View()), SessionSpec.CreateTask(old(home), task)), View(), r)
      ensures old(Valid()) ==> Valid()
    {
      hide Inv;
      SessionCall(View(), CreateTaskOp(task));
      var readable := Readable(task);
      :- Need(readable, InvalidValue);
      :- Need(task.id !in home.tasks, AlreadyExists);
      :- Need(task.sessionId.None? || task.sessionId.value in home.sessions, NotFound);
      var h := home.(tasks := home.tasks[task.id := task]);
      h :- JournalTask(h, task, EventId("task.created", task.id, Number(task.version)));
      home := h;
      return Success(task);
    }

    method CancelTask(taskId: Id, control: Control, now: nat) returns (r: Result<(), Error>)
      modifies this
      ensures Ran(old(View()), OnHome(old(View()), SessionSpec.CancelTask(old(home), taskId, control, now)), View(), r)
      ensures old(Valid()) ==> Valid()
    {
      hide Inv;
      SessionCall(View(), CancelTaskOp(taskId, control, now));
      hide HasLiveOwner, CancelPending;
      var task :- RequireTask(home.tasks, taskId);
      if !task.outcome.Active? || CancelPending(home.controls, taskId) {
        return Success(());
      }
      :- Need(control.id !in home.controls, IntegrityError);
      var owned := HasLiveOwner(home.executions, taskId, now);
      var request := control.(taskId := taskId, kind := Cancel, status := if owned then Requested else Settled);
      var h := home.(controls := home.controls[control.id := request]);
      if !owned {
        var condition := if task.condition.RecoveryRequired? then RecoveryRequired else Ended;
        h := h.(tasks := h.tasks[task.id := task.(outcome := Cancelled, version := task.version + 1, condition := condition)]);
        if task.sessionId.Some? {
          var session :- RequireSession(h.sessions, task.sessionId.value);
          h := h.(sessions := h.sessions[session.id := Deactivate(session, task.id)]);
        }
      }
      home := h;
      return Success(());
    }

    method RequestControl(control: Control, expected: nat) returns (r: Result<(), Error>)
      modifies this
      ensures Ran(old(View()), OnHome(old(View()), SessionSpec.RequestControl(old(home), control, expected)), View(), r)
      ensures old(Valid()) ==> Valid()
    {
      hide Inv;
      SessionCall(View(), RequestControlOp(control, expected));
      var task :- RequireTask(home.tasks, control.taskId);
      :- Need(task.version == expected, StaleVersion);
      :- Need(control.id !in home.controls, AlreadyExists);
      :- Need(control.executionId.None? || control.executionId.value in home.executions, IntegrityError);
      var h := home.(controls := home.controls[control.id := control]);
      h :- JournalTask(h, task, EventId("control.requested", control.id, Number(control.version)));
      home := h;
      return Success(());
    }

    method SettleControl(id: Id, status: ControlStatus, expected: nat) returns (r: Result<Control, Error>)
      modifies this
      ensures Ran(old(View()), OnHome(old(View()), SessionSpec.SettleControl(old(home), id, status, expected)), View(), r)
      ensures r.Success? ==> r.value.status == status
      ensures old(Valid()) ==> Valid()
    {
      hide Inv;
      SessionCall(View(), SettleControlOp(id, status, expected));
      var known := id in home.controls;
      :- Need(known, NotFound);
      var control := home.controls[id];
      :- Need(control.version == expected, StaleVersion);
      :- Need(ControlEdge(control.status, status), InvalidValue);
      var moved := control.(status := status, version := control.version + 1);
      var task :- RequireTask(home.tasks, control.taskId);
      var h := home.(controls := home.controls[id := moved]);
      h :- JournalTask(h, task, EventId("control.updated", id, Number(moved.version)));
      home := h;
      return Success(moved);
    }

    method AppendEvent(event: Event, expected: Option<nat>) returns (r: Result<(), Error>)
      modifies this
      ensures Ran(old(View()), OnHome(old(View()), SessionSpec.AppendEvent(old(home), event, expected)), View(), r)
      ensures old(Valid()) ==> Valid()
    {
      hide Inv;
      SessionCall(View(), AppendEventOp(event, expected));
      hide EventClash;
      var session :- RequireSession(home.sessions, event.sessionId);
      if exists i :: 0 <= i < |home.events| && home.events[i].id == event.id {
        :- Need(forall i :: 0 <= i < |home.events| && home.events[i].id == event.id
                       ==> home.events[i] == event.(sequence := home.events[i].sequence), InvalidValue);
        return Success(());
      }
      :- Need(VersionMatches(session.eventSequence, expected), StaleVersion);
      :- Need(event.taskId.None? || event.taskId.value in home.tasks, IntegrityError);
      var h :- Journal(home, session, event.id, event.taskId, event.payload);
      home := h;
      return Success(());
    }

    method PrepareTaskExecution(task: Task) returns (r: Result<Task, Error>)
      modifies this
      ensures Ran(old(View()), OnHome(old(View()), SessionSpec.PrepareTaskExecution(old(home), task)), View(), r)
      ensures r.Success? ==> r.value.sessionId.Some?
      ensures old(Valid()) ==> Valid()
    {
      hide Inv;
      SessionCall(View(), PrepareTaskExecutionOp(task));
      var readable := Readable(task);
      :- Need(readable, InvalidValue);
      :- Need(task.id in home.tasks || task.sessionId.None? || task.sessionId.value in home.sessions, IntegrityError);
      var h := home;
      if task.id !in h.tasks {
        h := h.(tasks := h.tasks[task.id := task]);
      }
      var current :- RequireTask(h.tasks, task.id);
      if current.sessionId.Some? {
        var session :- RequireSession(h.sessions, current.sessionId.value);
        :- Need(session.activeTask == Some(current.id), LeaseConflict);
        home := h;
        return Success(current);
      }
      var sid := RuntimeSessionId(current.id);
      if sid !in h.sessions {
        h := h.(sessions := h.sessions[sid := Session(sid, current.repository, Open, Some(current.id), "1", 1, 0)]);
      } else if h.sessions[sid].activeTask != Some(current.id) {
        var session := h.sessions[sid];
        :- Need(session.activeTask.None?, LeaseConflict);
        h := h.(sessions := h.sessions[sid := session.(activeTask := Some(current.id), version := session.version + 1)]);
      }
      var bound := current.(sessionId := Some(sid), version := current.version + 1);
      home := h.(tasks := h.tasks[current.id := bound]);
      return Success(bound);
    }

    method UpdateTask(task: Task, expected: nat, guard: Option<Guard>, now: nat) returns (r: Result<Task, Error>)
      modifies this
      ensures Ran(old(View()), OnHome(old(View()), SessionSpec.UpdateTask(old(home), task, expected, guard, now)), View(), r)
      ensures r.Success? ==> task.id in home.tasks && r.value == home.tasks[task.id]
      ensures old(Valid()) ==> Valid()
    {
      hide Inv;
      SessionCall(View(), UpdateTaskOp(task, expected, guard, now));
      hide GuardLive, EventClash;
      :- Need(Readable(task), InvalidValue);
      var current :- RequireTask(home.tasks, task.id);
      :- Need(current.version == expected, StaleVersion);
      :- Need(current.sessionId.None? || (guard.Some? && GuardLive(home.executions, guard.value, now)), LeaseLost);
      :- Need(current.sessionId == task.sessionId, InvalidValue);
      :- Need(current.outcome.Active? || task.outcome == current.outcome, InvalidValue);
      :- Need(!current.condition.RecoveryRequired? || task.condition.RecoveryRequired?, RecoveryIsRequired);
      var updated := task.(version := current.version + 1);
      var h := home.(tasks := home.tasks[task.id := updated]);
      if updated.sessionId.Some? {
        var session :- RequireSession(home.sessions, updated.sessionId.value);
        if !updated.outcome.Active? {
          session := Deactivate(session, task.id);
        }
        h :- Journal(h, session, EventId("task.updated", updated.id, Number(updated.version)), Some(task.id), "");
      }
      home := h;
      return Success(updated);
    }

    method CommitCheckpoint(c: Checkpoint, stamp: nat, expected: nat, guard: Guard, now: nat) returns (r: Result<(), Error>)
      modifies this
      ensures Ran(old(View()), OnHome(old(View()), SessionSpec.CommitCheckpoint(old(home), old(work).effects, c, stamp, expected, guard, now)),
                  View(), r)
      ensures r.Success? ==> home.checkpoints == old(home).checkpoints[c.taskId := c]
      ensures old(Valid()) ==> Valid()
    {
      hide Inv;
      SessionCall(View(), CommitCheckpointOp(c, stamp, expected, guard, now));
      hide GuardLive, EventClash;
      :- Need(GuardLive(home.executions, guard, now), LeaseLost);
      var task :- RequireTask(home.tasks, c.taskId);
      :- Need(task.version == expected, StaleVersion);
      :- Need(task.sessionId == Some(c.sessionId), InvalidValue);
      var session :- RequireSession(home.sessions, c.sessionId);
      var newest := LatestTurn(home.turns, session.id);
      :- Need(c.eventSequence <= session.eventSequence && c.consumedInput <= newest, InvalidValue);
      :- Need(c.turnId.Some? ==>
                exists i :: 0 <= i < |home.turns| && home.turns[i].id == c.turnId.value && home.turns[i].sessionId == session.id
                            && (home.turns[i].taskId.None? || home.turns[i].taskId == Some(c.taskId)), InvalidValue);
      :- Need(NoDuplicates(c.pendingEffects), InvalidValue);
      var owned := PendingBelong(work.effects, c.pendingEffects, c.taskId);
      :- Need(owned, InvalidValue);
      var h := home.(checkpoints := home.checkpoints[c.taskId := c]);
      h :- Journal(h, session, EventId("checkpoint.committed", c.taskId, Number(stamp)), Some(c.taskId), "");
      home := h;
      return Success(());
    }

    // ------------------------------------------------- effects and approvals

    method PrepareEffectBatch(step: StepRow, batch: seq<Effect>, expected: nat, guard: Option<Guard>, now: nat)
      returns (r: Result<(), Error>)
      modifies this
      ensures Ran(old(View()), EffectSpec.PrepareEffectBatch(old(View()), step, batch, expected, guard, now), View(), r)
      ensures old(Valid()) ==> Valid()
    {
      hide Inv;
      EffectCall(View(), PrepareEffectBatchOp(step, batch, expected, guard, now));
      hide EventClash, JournalTask, GuardLive, StepAccepts, Known, CompatibleWith, NewEffects, InsertAll;
      :- Need(BatchMatchesStep(step, batch), InvalidValue);
      var task :- RequireTask(home.tasks, step.taskId);
      :- Need(OwnsTask(home.executions, task, guard, now), LeaseLost);
      :- Need(task.version == expected, StaleVersion);
      :- Need(StepAccepts(work.steps, step), IdentityConflict);
      var compatible, added := SortBatch(work.effects, batch);
      :- Need(compatible, IdentityConflict);
      var w := work.(steps := work.steps[(step.taskId, step.index) := step]);
      var effects :- InsertLoop(w.effects, added);
      w := w.(effects := effects);
      var h := home;
      if added != [] {
        h :- JournalTask(h, task, EventId("effects.prepared", task.id, Ids(EffectIds(added))));
      }
      home, work := h, w;
      return Success(());
    }

    method RequestEffectApproval(effectId: Id, a: Approval, expected: nat, g: Guard, now: nat) returns (r: Result<Effect, Error>)
      modifies this
      ensures Ran(old(View()), EffectSpec.RequestEffectApproval(old(View()), effectId, a, expected, g, now), View(), r)
      ensures r.Success? ==> r.value.status.EffectWaiting?
      ensures old(Valid()) ==> Valid()
    {
      hide Inv;
      EffectCall(View(), RequestEffectApprovalOp(effectId, a, expected, g, now));
      hide EventClash, JournalTask, ApprovalExistsFor;
      :- Need(GuardLive(home.executions, g, now), LeaseLost);
      var x := home.executions[g.executionId];
      var e :- RequireEffect(work.effects, effectId);
      :- Need(e.taskId == x.taskId, LeaseLost);
      :- Need(e.version == expected, StaleVersion);
      :- Need(a.effectId == effectId, InvalidValue);
      if e.status.EffectWaiting? {
        :- Need(e.approvalId.Some? && e.approvalId.value in work.approvals
                && SameRequest(work.approvals[e.approvalId.value], a), ApprovalConflict);
        var owner :- RequireTask(home.tasks, e.taskId);
        home := Yield(home, x, owner);
        return Success(e);
      }
      :- Need(e.status.Prepared?, InvalidValue);
      :- Need(a.status.Pending?, InvalidValue);
      :- Need(a.id !in work.approvals && !ApprovalExistsFor(work.approvals, effectId), ApprovalConflict);
      var task :- RequireTask(home.tasks, e.taskId);
      :- Need(task.condition.Running?, InvalidValue);
      var w := work.(approvals := work.approvals[a.id := a]);
      var waiting := e.(status := EffectWaiting, approvalId := Some(a.id), version := e.version + 1);
      w := w.(effects := w.effects[effectId := waiting]);
      var h := Yield(home, x, task);
      h :- JournalApproval(h, w.effects, a, "approval.requested");
      home, work := h, w;
      return Success(waiting);
    }

    method ResolveEffectApproval(approvalId: Id, approved: bool, source: string, expected: nat, workspaceRef: string,
                                 policyVersion: string, configVersion: string)
      returns (r: Result<Approval, Error>)
      modifies this
      ensures Ran(old(View()), EffectSpec.ResolveEffectApproval(old(View()), approvalId, approved, source, expected,
                                                                workspaceRef, policyVersion, configVersion), View(), r)
      ensures r.Success? ==> !r.value.status.Pending?
      ensures old(Valid()) ==> Valid()
    {
      hide Inv;
      EffectCall(View(), ResolveEffectApprovalOp(approvalId, approved, source, expected, workspaceRef, policyVersion, configVersion));
      hide EventClash, JournalTask, JournalApproval, InForce;
      :- Need(approvalId in work.approvals, NotFound);
      var a := work.approvals[approvalId];
      var e :- RequireEffect(work.effects, a.effectId);
      var task :- RequireTask(home.tasks, e.taskId);
      if !a.status.Pending? {
        :- Need(a.source == Some(source)
                && (if approved then a.status.Approved? || a.status.Consumed? else a.status.ApprovalDenied?), ApprovalConflict);
        return Success(a);
      }
      :- Need(a.version == expected, StaleVersion);
      :- Need(task.sessionId.None? || task.sessionId.value in home.sessions, NotFound);
      var matched := InForce(home.sessions, task, e, a, workspaceRef, policyVersion, configVersion);
      var decided := Verdict(a, matched, approved, source);
      var w := work.(approvals := work.approvals[approvalId := decided]);
      w := w.(effects := w.effects[e.id := Resumed(e, matched, approved)]);
      var h := home.(tasks := home.tasks[task.id := Unblocked(task)]);
      h :- JournalApproval(h, w.effects, decided, if matched then "approval.decided" else "approval.expired");
      home, work := h, w;
      return Success(decided);
    }

    method DecideApproval(a: Approval, expected: Option<nat>) returns (r: Result<Approval, Error>)
      modifies this
      ensures Ran(old(View()), EffectSpec.DecideApproval(old(View()), a, expected), View(), r)
      ensures r.Success? ==> a.id in work.approvals && work.approvals[a.id] == a == r.value
      ensures old(Valid()) && DecidesSafely(old(work), a) ==> Valid()
    {
      hide Inv;
      EffectCall(View(), DecideApprovalOp(a, expected));
      hide JournalApproval, ApprovalExistsFor;
      var e :- RequireEffect(work.effects, a.effectId);
      var kind := "approval.requested";
      if !ApprovalExistsFor(work.approvals, a.effectId) {
        :- Need(a.id !in work.approvals, IntegrityError);
      } else {
        :- Need(a.id in work.approvals && work.approvals[a.id].effectId == a.effectId, ApprovalConflict);
        var existing := work.approvals[a.id];
        if existing == a {
          return Success(a);
        }
        :- Need(VersionMatches(existing.version, expected), StaleVersion);
        :- Need(existing.status.Pending? && (a.status.Approved? || a.status.ApprovalDenied? || a.status.Expired?), ApprovalConflict);
        :- Need(a.version == existing.version + 1, StaleVersion);
        kind := "approval.decided";
      }
      var h :- JournalApproval(home, work.effects, a, kind);
      home, work := h, work.(approvals := work.approvals[a.id := a]);
      return Success(a);
    }

    /** The checks of a claim, in the order in which they are made. */
    method AllowClaim(effectId: Id, expected: nat, g: Guard, terms: ClaimTerms, now: nat) returns (r: Result<(Effect, Task), Error>)
      ensures r == ClaimAllowed(View(), effectId, expected, g, terms, now)
      ensures r.Success? ==> effectId in work.effects && r.value.0 == work.effects[effectId]
      ensures r.Success? && r.value.1.sessionId.Some? ==> r.value.1.sessionId.value in home.sessions
    {
      hide GuardLive, ControlPending, MaxTurn;
      :- Need(GuardLive(home.executions, g, now), LeaseLost);
      var e :- RequireEffect(work.effects, effectId);
      :- Need(e.version == expected, StaleVersion);
      :- Need(e.status.Prepared?, LeaseConflict);
      var task :- RequireTask(home.tasks, e.taskId);
      :- Need(!ControlPending(home.controls, task.id), ControlIsRequested);
      if terms.inputSequence.Some? && task.sessionId.Some? {
        var newest := LatestTurn(home.turns, task.sessionId.value);
        :- Need(newest == terms.inputSequence.value, InputRevisionConflict);
      }
      :- Need(task.sessionId.None? || task.sessionId.value in home.sessions, NotFound);
      var config := ActualConfig(home.sessions, task, terms);
      :- Need(terms.fingerprint.None? || terms.fingerprint.value == e.content, IdentityConflict);
      :- Need(terms.workspaceRef.None? || terms.workspaceRef.value == task.repository, LeaseConflict);
      :- Need(terms.configVersion.None? || terms.configVersion.value == config, LeaseConflict);
      :- Need(e.content.preparationError.None? && !e.content.decision.Deny?, InvalidValue);
      :- Need(terms.decision.None? || terms.decision.value == e.content.decision, InvalidValue);
      return Success((e, task));
    }

    method ClaimEffect(effectId: Id, expected: nat, g: Guard, terms: ClaimTerms, now: nat) returns (r: Result<Effect, Error>)
      modifies this
      ensures Ran(old(View()), EffectSpec.ClaimEffect(old(View()), effectId, expected, g, terms, now), View(), r)
      ensures r.Success? ==> effectId in work.effects && r.value == work.effects[effectId] && r.value.status.Executing?
      ensures old(Valid()) ==> Valid()
      ensures old(Valid()) && r.Success? && r.value.content.decision.RequireApproval? ==>
                exists a :: a in work.approvals && work.approvals[a].effectId == effectId && work.approvals[a].status.Consumed?
      ensures old(Valid()) ==> (r.Success? <==> EffectOutcomes.Startable(old(View()), effectId, expected, g, terms, now))
      ensures old(Valid()) && r.Success? ==> EffectOutcomes.Begun(old(View()), View(), effectId)
    {
      hide Inv, EffectOutcomes.Startable, EffectOutcomes.Begun;
      ClaimResult(View(), effectId, expected, g, terms, now);
      EffectCall(View(), ClaimEffectOp(effectId, expected, g, terms, now));
      hide EventClash, JournalTask, JournalApproval, ClaimAllowed, ActualConfig;
      var allowed :- AllowClaim(effectId, expected, g, terms, now);
      var (e, task) := allowed;
      var config := ActualConfig(home.sessions, task, terms);
      var consumed :- ApprovalToConsume(work.approvals, e, task, config, terms);
      var claimed := Started(e, consumed.Some?);
      var h, w := home, work.(effects := work.effects[effectId := claimed]);
      if consumed.Some? {
        w := w.(approvals := w.approvals[consumed.value.id := consumed.value]);
        h :- JournalApproval(h, w.effects, consumed.value, "approval.consumed");
      }
      h :- JournalTask(h, task, EventId("effect.claimed", effectId, Number(claimed.version)));
      KeyedEffect(View(), effectId);
      home, work := h, w;
      assert consumed.Some? ==> consumed.value.id in work.approvals;
      return Success(claimed);
    }

    method CommitEffect(effect: Effect, expected: nat, call: Option<ToolCall>, result: Option<ToolResult>, g: Guard, now: nat)
      returns (r: Result<Effect, Error>)
      modifies this
      ensures Ran(old(View()), EffectSpec.CommitEffect(old(View()), effect, expected, call, result, g, now), View(), r)
      ensures r.Success? ==> && effect.id in work.effects && r.value == work.effects[effect.id]
                             && r.value == effect.(version := expected + 1)
      ensures r.Success? ==> work.effects == old(work).effects[effect.id := r.value] && work.approvals == old(work).approvals
      ensures old(Valid()) ==> Valid()
      ensures old(Valid()) ==> (r.Success? <==> EffectOutcomes.Committable(old(View()), effect, expected, call, result, g, now))
      ensures old(Valid()) && r.Success? ==> EffectOutcomes.Committed(old(View()), View(), effect, call, result)
    {
      hide Inv, EffectOutcomes.Committable, EffectOutcomes.Committed;
      CommitResult(View(), effect, expected, call, result, g, now);
      EffectCall(View(), CommitEffectOp(effect, expected, call, result, g, now));
      hide EventClash, JournalTask, GuardLive, AdvanceCursor;
      :- Need(GuardLive(home.executions, g, now), LeaseLost);
      var current :- RequireEffect(work.effects, effect.id);
      :- Need(current.version == expected, StaleVersion);
      :- Need(IdentityCompatible(current, effect), IdentityConflict);
      :- Need(current.status.Executing?, InvalidValue);
      :- Need(effect.status.Succeeded? || effect.status.EffectFailed? || effect.status.Unknown?, InvalidValue);
      :- Need(call.Some? == result.Some?, InvalidValue);
      var w := work;
      if call.Some? {
        :- Need(call.value.id == current.callId && result.value.callId == call.value.id, InvalidValue);
        var observations :- Observe(w.observations, effect.taskId, Observation(call.value, result.value));
        w := w.(observations := observations);
      }
      var committed := effect.(version := current.version + 1);
      w := w.(effects := w.effects[effect.id := committed]);
      var task :- RequireTask(home.tasks, committed.taskId);
      :- Need(task.sessionId.Some?, InvalidValue);
      var h :- JournalTask(home, task, EventId("effect.committed", committed.id, Number(committed.version)));
      home, work := AdvanceCursor(h, task, Some(committed.id)), w;
      return Success(committed);
    }

    method MarkEffectUnknown(effectId: Id, expected: nat, g: Guard, now: nat) returns (r: Result<Effect, Error>)
      modifies this
      ensures Ran(old(View()), EffectSpec.MarkEffectUnknown(old(View()), effectId, expected, g, now), View(), r)
      ensures r.Success? ==> r.value.status.Unknown?
      ensures old(Valid()) ==> Valid()
    {
      hide Inv;
      EffectCall(View(), MarkEffectUnknownOp(effectId, expected, g, now));
      hide EventClash, JournalTask, AdvanceCursor;
      :- Need(GuardLive(home.executions, g, now), LeaseLost);
      var e :- RequireEffect(work.effects, effectId);
      :- Need(e.taskId == home.executions[g.executionId].taskId, LeaseLost);
      :- Need(e.version == expected, StaleVersion);
      :- Need(e.status.Executing? || e.status.Unknown?, InvalidValue);
      var unknown := e;
      if e.status.Executing? {
        unknown := e.(status := Unknown, version := e.version + 1);
      }
      var w := work.(effects := work.effects[effectId := unknown]);
      var task :- RequireTask(home.tasks, e.taskId);
      var stopped := task;
      if !task.condition.RecoveryRequired? {
        stopped := task.(condition := RecoveryRequired, version := task.version + 1);
      }
      var h := home.(tasks := home.tasks[task.id := stopped]);
      h :- JournalTask(h, task, EventId("effect.recovery_required", unknown.id, Number(unknown.version)));
      home, work := AdvanceCursor(h, task, Some(effectId)), w;
      return Success(unknown);
    }

    method SettleUnexecutedEffect(effectId: Id, status: EffectStatus, expected: nat, call: ToolCall, result: ToolResult,
                                  g: Guard, now: nat)
      returns (r: Result<Effect, Error>)
      modifies this
      ensures Ran(old(View()), EffectSpec.SettleUnexecutedEffect(old(View()), effectId, status, expected, call, result, g, now),
                  View(), r)
      ensures r.Success? ==> r.value.status == status
      ensures old(Valid()) ==> Valid()
    {
      hide Inv;
      EffectCall(View(), SettleUnexecutedEffectOp(effectId, status, expected, Observation(call, result), g, now));
      hide EventClash, JournalTask, AdvanceCursor;
      :- Need(status.Denied? || status.EffectCancelled?, InvalidValue);
      :- Need(GuardLive(home.executions, g, now), LeaseLost);
      var e :- RequireEffect(work.effects, effectId);
      :- Need(e.taskId == home.executions[g.executionId].taskId, LeaseLost);
      :- Need(e.version == expected, StaleVersion);
      :- Need(e.status.Prepared? || e.status.EffectWaiting? || e.status == status, InvalidValue);
      :- Need(call.id == e.callId && result.callId == call.id, InvalidValue);
      var o := Observation(call, result);
      if (e.taskId, call.id) in work.observations {
        :- Need(work.observations[(e.taskId, call.id)] == o && e.status == status, InvalidValue);
        return Success(e);
      }
      var settled := e.(status := status, version := e.version + 1);
      var w := work.(effects := work.effects[effectId := settled]);
      w := w.(approvals := CloseRequest(w.approvals, e), observations := w.observations[(e.taskId, call.id) := o]);
      var task :- RequireTask(home.tasks, e.taskId);
      var h :- JournalTask(home, task, EventId("effect.settled", settled.id, Number(settled.version)));
      home, work := AdvanceCursor(h, task, Some(effectId)), w;
      return Success(settled);
    }

    method ResolveRecovery(d: Disposition, taskId: Id, expected: nat, remedy: Remedy) returns (r: Result<Disposition, Error>)
      modifies this
      ensures Ran(old(View()), EffectSpec.ResolveRecovery(old(View()), d, taskId, expected, remedy), View(), r)
      ensures r.Success? ==> d.id in work.dispositions && r.value == d
      ensures old(Valid()) ==> Valid()
      ensures old(Valid()) && r.Success? ==>
                forall k :: k in work.dispositions && work.dispositions[k].unknownEffectId == d.unknownEffectId ==> k == d.id
    {
      hide Inv;
      EffectCall(View(), ResolveRecoveryOp(d, taskId, expected, remedy));
      hide EventClash, AdvanceCursor, Disposed, ValidateResolution, ApplyRemedy, LeaveRecovery;
      var task :- RequireTask(home.tasks, taskId);
      if Disposed(work.dispositions, d) {
        :- Need(d.id in work.dispositions && work.dispositions[d.id] == d, RecoveryIsRequired);
        OnlyDecision(View(), d.id);
        return Success(d);
      }
      :- Need(task.version == expected, StaleVersion);
      :- Need(task.condition.RecoveryRequired?, RecoveryIsRequired);
      var unknown :- RequireEffect(work.effects, d.unknownEffectId);
      :- Need(unknown.taskId == taskId && unknown.status.Unknown?, RecoveryIsRequired);
      var target :- ValidateResolution(task, unknown, d, remedy);
      var w :- ApplyRemedy(work, task, unknown, remedy);
      :- Need(d.retryEffectId.Some? ==> d.retryEffectId.value in w.effects, IntegrityError);
      w := w.(dispositions := work.dispositions[d.id := d]);
      var h :- EndRecovery(home, task, d, target);
      home, work := h, w;
      OnlyDecision(View(), d.id);
      return Success(d);
    }
  }

  /** The task leaves recovery; an abandoned one ends and its session lets it go. */
  method EndRecovery(before: Home, task: Task, d: Disposition, target: Condition) returns (r: Result<Home, Error>)
    ensures r == LeaveRecovery(before, task, d, target)
  {
    hide EventClash, AdvanceCursor;
    var updated := task.(condition := target, version := task.version + 1);
    if d.kind.Abandon? {
      updated := updated.(outcome := Cancelled);
    }
    var h := before.(tasks := before.tasks[task.id := updated]);
    if task.sessionId.Some? {
      var session :- RequireSession(h.sessions, task.sessionId.value);
      if d.kind.Abandon? {
        session := Deactivate(session, task.id);
      }
      h :- Journal(h, session, EventId("recovery.resolved", d.id, Text(KindName(d.kind))), Some(task.id), "");
      h := AdvanceCursor(h, task, None);
    }
    return Success(h);
  }

  lemma {:induction false} RepeatedIsSame(turns: seq<Turn>, turn: Turn, submission: Id, at: nat)
    requires Repeats(turns, turn, submission) && at < |turns| && IsSubmission(turns[at], turn.sessionId, submission)
    ensures SameSubmission(turns[at], turn)
  {
  }

  method InsertNewTurn(before: Home, session: Session, turn: Turn, expected: Option<nat>)
    returns (r: Result<(Home, Turn), Error>)
    ensures match InsertTurn(before, session, turn, expected)
            case Success(h) =>
              r.Success? && r.value.0 == h && r.value.1 in h.turns && SameSubmission(r.value.1, turn) && r.value.1.sessionId == turn.sessionId
            case Failure(e) => r == Failure(e)
  {
    hide EventClash, MaxTurn, FreshTurn;
    :- Need(VersionMatches(session.version, expected), StaleVersion);
    :- TurnTaskBelongs(before, turn);
    var newest := LatestTurn(before.turns, turn.sessionId);
    var numbered := turn.(sequence := newest + 1, taskId := if turn.taskId.Some? then turn.taskId else session.activeTask);
    :- Need(FreshTurn(before.turns, turn.id), IntegrityError);
    var h := before.(turns := before.turns + [numbered]);
    h :- Journal(h, session.(version := session.version + 1),
                 EventId("turn.appended", numbered.id, Number(numbered.sequence)), numbered.taskId, "");
    assert h.turns[|before.turns|] == numbered;
    return Success((h, numbered));
  }

  /** Split a batch into known effects, which must agree with their rows, and new ones, in order. */
  method SortBatch(effects: map<Id, Effect>, batch: seq<Effect>) returns (compatible: bool, added: seq<Effect>)
    ensures compatible <==> forall i :: 0 <= i < |batch| && Known(effects, batch[i]) ==> CompatibleWith(effects, batch[i])
    ensures compatible ==> added == NewEffects(effects, batch)
  {
    hide Known, CompatibleWith;
    added := [];
    var n := 0;
    while n < |batch|
      invariant 0 <= n <= |batch| && added == NewEffects(effects, batch[..n])
      invariant forall i :: 0 <= i < n && Known(effects, batch[i]) ==> CompatibleWith(effects, batch[i])
    {
      assert batch[..n + 1][..n] == batch[..n];
      if Known(effects, batch[n]) {
        if !CompatibleWith(effects, batch[n]) {
          return false, [];
        }
      } else {
        added := added + [batch[n]];
      }
      n := n + 1;
    }
    assert batch[..|batch|] == batch;
    return true, added;
  }

  method InsertLoop(effects: map<Id, Effect>, batch: seq<Effect>) returns (r: Result<map<Id, Effect>, Error>)
    ensures r == InsertAll(effects, batch)
  {
    hide Insertable;
    var after := effects;
    var n := 0;
    while n < |batch|
      invariant 0 <= n <= |batch| && InsertAll(effects, batch[..n]) == Success(after)
    {
      assert batch[..n + 1][..n] == batch[..n];
      if !Insertable(after, batch[n]) {
        assert InsertAll(effects, batch[..n + 1]) == Failure(IntegrityError);
        InsertAllStops(effects, batch, n + 1);
        return Failure(IntegrityError);
      }
      after := after[batch[n].id := batch[n]];
      n := n + 1;
    }
    assert batch[..|batch|] == batch;
    return Success(after);
  }

  lemma {:induction false} InsertAllStops(effects: map<Id, Effect>, batch: seq<Effect>, n: nat)
    requires n <= |batch| && InsertAll(effects, batch[..n]).Failure?
    ensures InsertAll(effects, batch) == InsertAll(effects, batch[..n])
  {
    hide Insertable;
    if n == |batch| {
      assert batch[..n] == batch;
    } else {
      var fewer := batch[..|batch| - 1];
      assert fewer[..n] == batch[..n];
      InsertAllStops(effects, fewer, n);
    }
  }

  /** The loop of `_validate_checkpoint_references` over the pending effects. */
  method PendingBelong(effects: map<Id, Effect>, ids: seq<Id>, taskId: Id) returns (ok: bool)
    ensures ok <==> forall e :: e in ids ==> e in effects && effects[e].taskId == taskId
  {
    var n := 0;
    while n < |ids|
      invariant 0 <= n <= |ids|
      invariant forall i :: 0 <= i < n ==> ids[i] in effects && effects[ids[i]].taskId == taskId
    {
      var e := ids[n];
      if e !in effects || effects[e].taskId != taskId {
        assert e in ids && !(e in effects && effects[e].taskId == taskId);
        return false;
      }
      n := n + 1;
    }
    return true;
  }

  /** The row `SELECT ... WHERE session_id = ? AND client_submission_id = ?` finds, or the end of the log. */
  method FindSubmission(turns: seq<Turn>, sessionId: Id, submission: Id) returns (at: nat)
    ensures at <= |turns| && (at < |turns| <==> Submitted(turns, sessionId, submission))
    ensures at < |turns| ==> IsSubmission(turns[at], sessionId, submission)
  {
    at := 0;
    while at < |turns| && !IsSubmission(turns[at], sessionId, submission)
      invariant 0 <= at <= |turns|
      invariant forall i :: 0 <= i < at ==> !IsSubmission(turns[i], sessionId, submission)
    {
      at := at + 1;
    }
  }

  /** `COALESCE(MAX(sequence), 0)` over the session's turns. */
  method LatestTurn(turns: seq<Turn>, sessionId: Id) returns (newest: nat)
    ensures newest == MaxTurn(turns, sessionId)
  {
    newest := 0;
    var i := 0;
    while i < |turns|
      invariant 0 <= i <= |turns| && newest == MaxTurn(turns[..i], sessionId)
    {
      assert turns[..i + 1][..i] == turns[..i];
      if turns[i].sessionId == sessionId && turns[i].sequence > newest {
        newest := turns[i].sequence;
      }
      i := i + 1;
    }
    assert turns[..|turns|] == turns;
  }
}
