/** Runs from the empty store that show where its promises need their callers. */
module StoreExamples {
  import opened Wrappers
  import opened StoreModel
  import opened StoreInvariants
  import opened SessionSpec
  import opened LeaseSpec
  import opened EffectSpec
  import opened StoreRuns
  import opened EffectHistory
  import opened StoreTheorems
  import opened StoreLimits

  // ------------------------------------------------------- a run that breaks it

  const TASK: Task := Task(7, "repo", None, Active, Idle, 1)
  const OWNER: Execution := Execution(1, -8, 7, 3, 5, 0, 100, Claimed, 1)
  const GUARD: Guard := Guard(1, 7, 5, 1, 3)
  const CONTENT: Content := Content("write", "{}", Allow, false, None, "")
  const EFFECT: Effect := Effect(1, 7, 2, 0, 9, None, CONTENT, Prepared, None, false, 1)
  const STEP: StepRow := StepRow(2, 7, 0, Some("call"), [1])
  const REQUEST: Approval := Approval(4, 1, CONTENT, "{}", "repo", "1", "1", "late", Pending, None, 1)
  const TERMS: ClaimTerms := ClaimTerms(None, None, None, None, None, None)

  const RUN: seq<Op> := [
    Sessions(PrepareTaskExecutionOp(TASK)),
    Leases(ClaimExecutionOp(OWNER, Some(2), 0)),
    Effects(PrepareEffectBatchOp(STEP, [EFFECT], 3, Some(GUARD), 1)),
    Effects(ClaimEffectOp(1, 1, GUARD, TERMS, 2)),
    Effects(DecideApprovalOp(REQUEST, None)),
    Effects(ResolveEffectApprovalOp(4, true, "operator", 1, "repo", "1", "1")),
    Effects(ClaimEffectOp(1, 3, GUARD, TERMS, 3))
  ]

  const RUNNING: Execution := OWNER.(generation := 1, status := ExecutionRunning)
  const BOUND: Task := TASK.(sessionId := Some(-8), version := 3, condition := Running)

  function EventIdAt(i: nat): EventId {
    if i == 0 then EventId("lease.acquired", 1, Number(1))
    else if i == 1 then EventId("effects.prepared", 7, Ids([1]))
    else if i == 2 then EventId("effect.claimed", 1, Number(2))
    else if i == 3 then EventId("approval.requested", 4, Number(1))
    else if i == 4 then EventId("approval.decided", 4, Number(2))
    else EventId("effect.claimed", 1, Number(4))
  }

  ghost function JournalOf(n: nat): seq<Event> {
    seq(n, i requires 0 <= i < n => Event(EventIdAt(i), -8, Some(7), "", i + 1))
  }

  /** The session tables of the run once the execution is claimed, after `n` events. */
  ghost function HomeAt(n: nat): Home {
    Home(map[-8 := Session(-8, "repo", Open, Some(7), "1", 1, n)], map[7 := BOUND], map[1 := RUNNING],
         map[], map[], map[], [], JournalOf(n))
  }

  ghost function WorkAt(status: EffectStatus, version: nat, approvals: map<Id, Approval>): Work {
    Work(map[1 := EFFECT.(status := status, version := version)], approvals, map[], map[], map[(7, 0) := STEP])
  }

  const PREPARED_TASK: State :=
    State(Home(map[-8 := Session(-8, "repo", Open, Some(7), "1", 1, 0)], map[7 := TASK.(sessionId := Some(-8), version := 2)],
               map[], map[], map[], map[], [], []), Empty.work)

  lemma {:induction false} FirstStep()
    ensures Apply(Empty, RUN[0]) == Success(PREPARED_TASK)
  {
    var r := PrepareTaskExecution(Empty.home, TASK);
    assert r.Success? && r.value == PREPARED_TASK.home;
  }

  lemma {:induction false} ClaimStep()
    ensures Apply(PREPARED_TASK, RUN[1]) == Success(State(HomeAt(1), Empty.work))
  {
    var h := PREPARED_TASK.home;
    assert MaxGeneration(h.executions, 7) == 0 by {
      assert IsMaxGeneration(h.executions, 7, 0);
      MaxGenerationUnique(h.executions, 7, 0);
    }
    var r := ClaimExecution(h, OWNER, Some(2), 0);
    assert Expire(h.executions, -8, 7) == map[];
    assert r.Success?;
    assert r.value.events == JournalOf(1);
    assert r.value == HomeAt(1);
  }

  lemma {:induction false} JournalStep(n: nat)
    requires n < 6
    ensures JournalTask(HomeAt(n), BOUND, EventIdAt(n)) == Success(HomeAt(n + 1))
  {
    var e := Event(EventIdAt(n), -8, Some(7), "", n + 1);
    assert !EventClash(JournalOf(n), e);
    assert JournalOf(n + 1) == JournalOf(n) + [e];
    hide JournalOf, EventClash, EventIdAt;
    assert HomeAt(n).sessions[-8 := HomeAt(n).sessions[-8].(eventSequence := n + 1)] == HomeAt(n + 1).sessions;
  }

  lemma {:induction false} PrepareStep(e: Effect)
    requires e == EFFECT.(content := e.content)
    ensures PrepareEffectBatch(State(HomeAt(1), Empty.work), STEP, [e], 3, Some(GUARD), 1)
            == Success(State(HomeAt(2), Work(map[1 := e], map[], map[], map[], map[(7, 0) := STEP])))
  {
    hide JournalOf, JournalTask;
    var s := State(HomeAt(1), Empty.work);
    assert EffectIds([e]) == [1];
    assert [e][..0] == [];
    assert NewEffects(map[], [e]) == [e];
    assert InsertAll(map[], [e]) == Success(map[1 := e]);
    var r := PrepareEffectBatch(s, STEP, [e], 3, Some(GUARD), 1);
    JournalStep(1);
    assert r.Success?;
    assert r.value.home == HomeAt(2);
  }

  lemma {:induction false} StartAllowed(n: nat, version: nat, approvals: map<Id, Approval>, now: nat)
    requires now < 100
    ensures var s := State(HomeAt(n), WorkAt(Prepared, version, approvals));
            ClaimAllowed(s, 1, version, GUARD, TERMS, now) == Success((s.work.effects[1], BOUND))
  {
    hide JournalOf, MaxTurn;
  }

  lemma {:induction false} StartStep(n: nat, version: nat, approvals: map<Id, Approval>, now: nat)
    requires (n == 2 && version == 1) || (n == 5 && version == 3)
    requires now < 100
    ensures ClaimEffect(State(HomeAt(n), WorkAt(Prepared, version, approvals)), 1, version, GUARD, TERMS, now)
            == Success(State(HomeAt(n + 1), WorkAt(Executing, version + 1, approvals)))
  {
    var id := EventId("effect.claimed", 1, Number(version + 1));
    assert EventIdAt(n) == id;
    var s := State(HomeAt(n), WorkAt(Prepared, version, approvals));
    hide JournalOf, ClaimAllowed, JournalTask, JournalApproval;
    StartAllowed(n, version, approvals, now);
    JournalStep(n);
    var r := ClaimEffect(s, 1, version, GUARD, TERMS, now);
    assert r.Success? && r.value.home == HomeAt(n + 1);
    assert r.value.work.effects == map[1 := Started(s.work.effects[1], false)];
  }

  lemma {:induction false} OpenStep()
    ensures DecideApproval(State(HomeAt(3), WorkAt(Executing, 2, map[])), REQUEST, None)
            == Success(State(HomeAt(4), WorkAt(Executing, 2, map[4 := REQUEST])))
  {
    var s := State(HomeAt(3), WorkAt(Executing, 2, map[]));
    assert EventIdAt(3) == EventId("approval.requested", 4, Number(1));
    hide JournalOf, JournalTask;
    JournalStep(3);
    assert JournalApproval(s.home, s.work.effects, REQUEST, "approval.requested") == Success(HomeAt(4));
  }

  lemma {:induction false} ApproveStep()
    ensures ResolveEffectApproval(State(HomeAt(4), WorkAt(Executing, 2, map[4 := REQUEST])), 4, true, "operator", 1, "repo", "1", "1")
            == Success(State(HomeAt(5), WorkAt(Prepared, 3, map[4 := Decided(REQUEST, Approved, "operator")])))
  {
    var s := State(HomeAt(4), WorkAt(Executing, 2, map[4 := REQUEST]));
    var decided := Decided(REQUEST, Approved, "operator");
    var work := WorkAt(Prepared, 3, map[4 := decided]);
    assert EventIdAt(4) == EventId("approval.decided", 4, Number(2));
    hide JournalOf, JournalTask;
    JournalStep(4);
    assert JournalApproval(s.home, work.effects, decided, "approval.decided") == Success(HomeAt(5));
    hide JournalApproval;
    assert s.work.effects[1 := Resumed(s.work.effects[1], true, true)] == work.effects;
    assert s.work.approvals[4 := decided] == work.approvals;
    assert s.home.(tasks := s.home.tasks[7 := Unblocked(BOUND)]) == s.home;
  }

  /** The states of the run, one per step. */
  ghost function Trace(i: nat): State
    requires i <= 7
  {
    var approved := map[4 := Decided(REQUEST, Approved, "operator")];
    if i == 0 then Empty
    else if i == 1 then PREPARED_TASK
    else if i == 2 then State(HomeAt(1), Empty.work)
    else if i == 3 then State(HomeAt(2), WorkAt(Prepared, 1, map[]))
    else if i == 4 then State(HomeAt(3), WorkAt(Executing, 2, map[]))
    else if i == 5 then State(HomeAt(4), WorkAt(Executing, 2, map[4 := REQUEST]))
    else if i == 6 then State(HomeAt(5), WorkAt(Prepared, 3, approved))
    else State(HomeAt(6), WorkAt(Executing, 4, approved))
  }

  lemma {:induction false} UnfoldWork()
    ensures WorkAt(Prepared, 1, map[]) == Work(map[1 := EFFECT], map[], map[], map[], map[(7, 0) := STEP])
  {
  }

  lemma {:induction false} TraceStep(i: nat)
    requires i < 7
    ensures Next(Trace(i), RUN[i]) == Trace(i + 1)
  {
    hide HomeAt, WorkAt, SessionStep, LeaseStep;
    hide PrepareEffectBatch, ClaimEffect, DecideApproval, ResolveEffectApproval;
    if i == 0 {
      FirstStep();
    } else if i == 1 {
      ClaimStep();
    } else if i == 2 {
      PrepareStep(EFFECT);
      assert EFFECT == EFFECT.(status := Prepared, version := 1);
      UnfoldWork();
    } else if i == 3 {
      StartStep(2, 1, map[], 2);
    } else if i == 4 {
      OpenStep();
    } else if i == 5 {
      ApproveStep();
    } else {
      StartStep(5, 3, map[4 := Decided(REQUEST, Approved, "operator")], 3);
    }
  }

  lemma {:induction false} TraceIsRun(i: nat)
    requires i <= 7
    ensures At(RUN, i) == Trace(i)
  {
    hide Next, Trace;
    if i > 0 {
      TraceIsRun(i - 1);
      AtStep(RUN, i - 1);
      TraceStep(i - 1);
    } else {
      EmptyRun(RUN);
      assert Trace(0) == Empty by {
        TraceStart();
      }
    }
  }

  lemma {:induction false} TraceStart()
    ensures Trace(0) == Empty
  {
  }

  lemma {:induction false} EntriesStep(ops: seq<Op>, i: nat, e: Id)
    requires 0 < i <= |ops|
    ensures Entries(Works(ops[..i]), e)
            == Entries(Works(ops[..i - 1]), e) + if Enters(At(ops, i - 1).work.effects, At(ops, i).work.effects, e) then 1 else 0
  {
    hide After;
    var ws := Works(ops[..i]);
    forall k | 0 <= k < i
      ensures ws[k] == At(ops, k).work && Works(ops[..i - 1])[k] == At(ops, k).work
    {
      assert ops[..i][..k] == ops[..k] == ops[..i - 1][..k];
    }
    assert ops[..i][..i] == ops[..i];
    assert ws[..i] == Works(ops[..i - 1]);
  }

  /** Opening a request with `decide_approval` behind a started effect lets it start twice. */
  lemma {:induction false} OpenedBehindStartsTwice()
    ensures Entries(Works(RUN), 1) == 2 && !Deciding(RUN)
  {
    hide Trace, After, Enters;
    assert RUN[..0] == [] && RUN[..7] == RUN;
    assert Entries(Works(RUN[..0]), 1) == 0;
    TraceEntries(0);
    TraceEntries(1);
    TraceEntries(2);
    TraceEntries(3);
    TraceEntries(4);
    TraceEntries(5);
    TraceEntries(6);
    TwiceIsUnsound();
  }

  lemma {:induction false} TwiceIsUnsound()
    requires Entries(Works(RUN), 1) == 2
    ensures !Deciding(RUN)
  {
    hide After, Deciding, Entries, Works;
    if Deciding(RUN) {
      EffectsRunAtMostOnce(RUN, 1);
    }
  }

  lemma {:induction false} TraceEntries(i: nat)
    requires i < 7
    ensures Entries(Works(RUN[..i + 1]), 1) == Entries(Works(RUN[..i]), 1) + if i == 3 || i == 6 then 1 else 0
  {
    hide After, HomeAt, Entries;
    TraceIsRun(i);
    TraceIsRun(i + 1);
    EntriesStep(RUN, i + 1, 1);
  }

  // ------------------------------------------- a run that leaves a start unpaid

  const GATED: Effect := EFFECT.(content := CONTENT.(decision := RequireApproval))
  const SPENT: Approval := REQUEST.(fingerprint := GATED.content, status := Consumed)
  const UNPAID: seq<Op> := [
    RUN[0],
    RUN[1],
    Effects(PrepareEffectBatchOp(STEP, [GATED], 3, Some(GUARD), 1)),
    Effects(DecideApprovalOp(SPENT, None))
  ]
  const GATED_WORK: Work := Work(map[1 := GATED], map[], map[], map[], map[(7, 0) := STEP])

  lemma {:induction false} OpensConsumed()
    ensures var r := DecideApproval(State(HomeAt(2), GATED_WORK), SPENT, None);
            r.Success? && r.value.work == GATED_WORK.(approvals := map[4 := SPENT])
  {
    var s := State(HomeAt(2), GATED_WORK);
    var e := Event(EventId("approval.requested", 4, Number(1)), -8, Some(7), "", 3);
    assert !EventClash(JournalOf(2), e);
    hide EventClash, JournalOf, EventIdAt;
    assert JournalTask(s.home, BOUND, e.id).Success?;
    assert RequireEffect(GATED_WORK.effects, 1) == Success(GATED);
    assert JournalApproval(s.home, GATED_WORK.effects, SPENT, "approval.requested").Success?;
  }

  lemma {:induction false} UnpaidStates(i: nat)
    requires i <= 4
    ensures var w := At(UNPAID, i).work;
            w == if i < 3 then Empty.work else if i == 3 then GATED_WORK else GATED_WORK.(approvals := map[4 := SPENT])
    ensures i == 2 ==> At(UNPAID, i) == State(HomeAt(1), Empty.work)
    ensures i == 3 ==> At(UNPAID, i) == State(HomeAt(2), GATED_WORK)
  {
    hide HomeAt, PrepareEffectBatch, DecideApproval, SessionStep, LeaseStep, After;
    if i <= 2 {
      assert UNPAID[..i] == RUN[..i];
      TraceIsRun(i);
    } else {
      UnpaidStates(i - 1);
      AtStep(UNPAID, i - 1);
      if i == 3 {
        PrepareStep(GATED);
      } else {
        OpensConsumed();
      }
    }
  }

  lemma {:induction false} NeverExecuting(ops: seq<Op>, n: nat, e: Id)
    requires n <= |ops|
    requires forall i :: 0 <= i <= n ==> !(e in At(ops, i).work.effects && At(ops, i).work.effects[e].status.Executing?)
    ensures Entries(Works(ops[..n]), e) == 0
  {
    hide After;
    if n > 0 {
      NeverExecuting(ops, n - 1, e);
      EntriesStep(ops, n, e);
    }
  }

  /** Opening a consumed approval leaves a gated effect that is paid for and never ran. */
  lemma {:induction false} OpenedConsumedNeverRan()
    ensures var w := After(UNPAID).work;
            && 1 in w.effects && w.effects[1].content.decision.RequireApproval? && Entries(Works(UNPAID), 1) == 0
            && 4 in w.approvals && w.approvals[4].effectId == 1 && w.approvals[4].status.Consumed?
    ensures !Deciding(UNPAID)
  {
    hide After;
    assert UNPAID[..4] == UNPAID;
    forall i: nat | i <= 4
      ensures !(1 in At(UNPAID, i).work.effects && At(UNPAID, i).work.effects[1].status.Executing?)
    {
      UnpaidStates(i);
    }
    NeverExecuting(UNPAID, 4, 1);
    UnpaidStates(4);
    if Deciding(UNPAID) {
      GatedEffectsArePaid(UNPAID, 1);
    }
  }

  // --------------------------------------------------------- arriving sessions

  const AHEAD: Session := Session(1, "repo", Open, None, "1", 1, 5)

  /** A session that arrives with counter 5 has one event and counter 6 after its creation. */
  lemma {:induction false} ArrivesAhead()
    ensures var h := After([Sessions(CreateSessionOp(AHEAD))]).home;
            1 in h.sessions && h.sessions[1].eventSequence == 6 && |SessionEvents(h.events, 1)| == 1
  {
    hide CreateSession;
    var run := [Sessions(CreateSessionOp(AHEAD))];
    assert run[..0] == [];
    assert After(run[..0]) == Empty;
    CreatesAhead();
  }

  lemma {:induction false} CreatesAhead()
    ensures var r := CreateSession(Empty.home, AHEAD);
            && r.Success? && r.value.sessions == map[1 := AHEAD.(eventSequence := 6)]
            && |SessionEvents(r.value.events, 1)| == 1
  {
    var r := CreateSession(Empty.home, AHEAD);
    assert r.Success?;
    SessionEventsAppend([], r.value.events[0], 1);
    assert r.value.events == [] + [r.value.events[0]];
    assert SessionEvents([], 1) == [];
  }

  const UNBOUND: Task := Task(7, "repo", None, Completed, Ended, 1)
  const HOLDER: Session := Session(1, "repo", Open, Some(7), "1", 1, 0)

  /** A session can arrive with an active task that is not its own and has ended. */
  lemma {:induction false} ArrivesWithForeignTask()
    ensures var h := After([Sessions(CreateTaskOp(UNBOUND)), Sessions(CreateSessionOp(HOLDER))]).home;
            1 in h.sessions && h.sessions[1].activeTask == Some(7) && 7 in h.tasks && h.tasks[7] == UNBOUND
  {
    hide CreateSession, CreateTask;
    var run := [Sessions(CreateTaskOp(UNBOUND)), Sessions(CreateSessionOp(HOLDER))];
    assert run[..1] == [Sessions(CreateTaskOp(UNBOUND))] && run[..1][..0] == [];
    assert After(run[..1][..0]) == Empty;
    StoresUnbound();
    HoldsUnbound();
  }

  const STORED: Home := Empty.home.(tasks := map[7 := UNBOUND])

  lemma {:induction false} StoresUnbound()
    ensures CreateTask(Empty.home, UNBOUND) == Success(STORED)
  {
  }

  lemma {:induction false} HoldsUnbound()
    ensures var r := CreateSession(STORED, HOLDER);
            r.Success? && r.value.tasks == STORED.tasks && r.value.sessions == map[1 := HOLDER.(eventSequence := 1)]
  {
    var r := CreateSession(STORED, HOLDER);
    assert r.Success?;
  }

  // ------------------------------------------------------- an ended task claimed

  const ENDED_RUN: seq<Op> := [Sessions(PrepareTaskExecutionOp(UNBOUND)), Leases(ClaimExecutionOp(OWNER, Some(2), 0))]
  const ENDED_HOME: Home := PREPARED_TASK.home.(tasks := map[7 := UNBOUND.(sessionId := Some(-8), version := 2)])

  lemma {:induction false} PreparesEnded()
    ensures PrepareTaskExecution(Empty.home, UNBOUND) == Success(ENDED_HOME)
  {
    var r := PrepareTaskExecution(Empty.home, UNBOUND);
    assert r.Success? && r.value == ENDED_HOME;
  }

  lemma {:induction false} ClaimsEnded()
    ensures var r := ClaimExecution(ENDED_HOME, OWNER, Some(2), 0);
            r.Success? && 7 in r.value.tasks && r.value.tasks[7].outcome.Completed? && r.value.tasks[7].condition.Running?
  {
    hide MaxGeneration, IsMaxGeneration;
    var r := ClaimExecution(ENDED_HOME, OWNER, Some(2), 0);
    assert r.Success?;
  }

  /** A completed task handed in unbound is prepared and claimed, and can then not be read any more. */
  lemma {:induction false} EndedTaskIsClaimed()
    ensures var h := After(ENDED_RUN).home;
            && 7 in h.tasks && h.tasks[7].outcome.Completed? && h.tasks[7].condition.Running?
            && RequireTask(h.tasks, 7) == Failure(InvalidRow)
  {
    hide PrepareTaskExecution, ClaimExecution;
    assert ENDED_RUN[..1] == [ENDED_RUN[0]] && ENDED_RUN[..1][..0] == [];
    assert After(ENDED_RUN[..1][..0]) == Empty;
    PreparesEnded();
    assert After(ENDED_RUN[..1]).home == ENDED_HOME;
    ClaimsEnded();
  }

  // ----------------------------------------------- a completed task abandoned

  const STOPPED: Task := BOUND.(condition := RecoveryRequired, version := 4)
  const COMPLETED: Task := STOPPED.(outcome := Completed, version := 5)
  const GIVE_UP: Disposition := Disposition(6, 1, Abandon, "checked by hand", true, "operator", None)
  const ABANDON_RUN: seq<Op> := RUN[..4] + [
    Effects(MarkEffectUnknownOp(1, 2, GUARD, 3)),
    Sessions(UpdateTaskOp(COMPLETED, 4, Some(GUARD), 4)),
    Effects(ResolveRecoveryOp(GIVE_UP, 7, 5, Remedy(None, None, None, None)))
  ]

  /** What the rest of the run needs to know of a state of it. */
  ghost predicate Standing(s: State, task: Task, status: EffectStatus, version: nat) {
    && 7 in s.home.tasks && s.home.tasks[7] == task && s.home.executions == map[1 := RUNNING]
    && s.home.checkpoints == map[] && s.work == WorkAt(status, version, map[])
  }

  /** One event with this id was appended. */
  ghost predicate Tells(events: seq<Event>, more: seq<Event>, id: EventId) {
    |more| == |events| + 1 && more[..|events|] == events && more[|events|].id == id
  }

  lemma {:induction false} TellsOnly(events: seq<Event>, more: seq<Event>, id: EventId, other: EventId)
    requires Tells(events, more, id) && id != other && !Recorded(events, other)
    ensures !Recorded(more, other)
  {
    forall i | 0 <= i < |more|
      ensures more[i].id != other
    {
      if i < |events| {
        assert more[i] == more[..|events|][i] == events[i];
      }
    }
  }

  lemma {:induction false} StopsForRecovery(s: State)
    requires HomeSound(s.home, ALWAYS) && Standing(s, BOUND, Executing, 2) && !Recorded(s.home.events, ReportId(1, 3))
    ensures var r := MarkEffectUnknown(s, 1, 2, GUARD, 3);
            r.Success? && Standing(r.value, STOPPED, Unknown, 3) && Tells(s.home.events, r.value.home.events, ReportId(1, 3))
  {
    hide EventsNumbered, TurnsDense, CursorsBehind, Recorded, Bound;
    OwnerIsBound(s.home, GUARD, 3);
    FreshIdJournals(s.home.(tasks := s.home.tasks[7 := STOPPED]), BOUND, ReportId(1, 3));
    var r := MarkEffectUnknown(s, 1, 2, GUARD, 3);
    assert r.Success?;
    assert r.value.work.effects == map[1 := s.work.effects[1].(status := Unknown, version := 3)];
  }

  lemma {:induction false} CompletesInRecovery(s: State)
    requires HomeSound(s.home, ALWAYS) && Standing(s, STOPPED, Unknown, 3)
    requires !Recorded(s.home.events, EventId("task.updated", 7, Number(5)))
    ensures var r := UpdateTask(s.home, COMPLETED, 4, Some(GUARD), 4);
            && r.Success? && Standing(s.(home := r.value), COMPLETED, Unknown, 3)
            && Tells(s.home.events, r.value.events, EventId("task.updated", 7, Number(5)))
  {
    hide TurnsDense, CursorsBehind, Bound;
    OwnerIsBound(s.home, GUARD, 4);
    NextNumberFree(s.home, -8);
    hide EventsNumbered;
    var r := UpdateTask(s.home, COMPLETED, 4, Some(GUARD), 4);
    assert r.Success?;
  }

  lemma {:induction false} AbandonsCompleted(s: State)
    requires HomeSound(s.home, ALWAYS) && Standing(s, COMPLETED, Unknown, 3)
    requires !Recorded(s.home.events, EventId("recovery.resolved", 6, Text("abandon")))
    ensures var r := ResolveRecovery(s, GIVE_UP, 7, 5, Remedy(None, None, None, None));
            r.Success? && 7 in r.value.home.tasks && r.value.home.tasks[7].outcome.Cancelled?
  {
    hide TurnsDense, CursorsBehind;
    OwnerIsBound(s.home, GUARD, 4);
    NextNumberFree(s.home, -8);
    hide EventsNumbered, Bound;
    var r := ResolveRecovery(s, GIVE_UP, 7, 5, Remedy(None, None, None, None));
    assert r.Success?;
  }

  lemma {:induction false} AbandonSteps(i: nat)
    requires 4 <= i <= 6
    ensures var s := At(ABANDON_RUN, i);
            && HomeSound(s.home, ALWAYS)
            && Standing(s, if i == 4 then BOUND else if i == 5 then STOPPED else COMPLETED,
                        if i == 4 then Executing else Unknown, if i == 4 then 2 else 3)
            && (i <= 4 ==> !Recorded(s.home.events, ReportId(1, 3)))
            && (i <= 5 ==> !Recorded(s.home.events, EventId("task.updated", 7, Number(5))))
            && !Recorded(s.home.events, EventId("recovery.resolved", 6, Text("abandon")))
  {
    hide After, HomeSound, MarkEffectUnknown, UpdateTask, ResolveRecovery, Recorded, Tells;
    AlwaysClean(ABANDON_RUN[..i]);
    HomeRun(ABANDON_RUN[..i], ALWAYS);
    if i == 4 {
      assert ABANDON_RUN[..4] == RUN[..4];
      TraceIsRun(4);
      StartedStanding();
    } else {
      AbandonSteps(i - 1);
      AtStep(ABANDON_RUN, i - 1);
      var s, s' := At(ABANDON_RUN, i - 1), At(ABANDON_RUN, i);
      var abandoned := EventId("recovery.resolved", 6, Text("abandon"));
      if i == 5 {
        StopsForRecovery(s);
        TellsOnly(s.home.events, s'.home.events, ReportId(1, 3), EventId("task.updated", 7, Number(5)));
        TellsOnly(s.home.events, s'.home.events, ReportId(1, 3), abandoned);
      } else {
        CompletesInRecovery(s);
        TellsOnly(s.home.events, s'.home.events, EventId("task.updated", 7, Number(5)), abandoned);
      }
    }
  }

  lemma {:induction false} StartedStanding()
    ensures Standing(Trace(4), BOUND, Executing, 2)
    ensures !Recorded(Trace(4).home.events, ReportId(1, 3))
    ensures !Recorded(Trace(4).home.events, EventId("task.updated", 7, Number(5)))
    ensures !Recorded(Trace(4).home.events, EventId("recovery.resolved", 6, Text("abandon")))
  {
    assert Trace(4) == State(HomeAt(3), WorkAt(Executing, 2, map[]));
    assert forall i :: 0 <= i < 3 ==> JournalOf(3)[i].id == EventIdAt(i);
  }

  /** A task that is completed while in recovery is cancelled by abandoning its unknown effect. */
  lemma {:induction false} CompletedTaskIsCancelled()
    ensures var before, after := At(ABANDON_RUN, 6).home, After(ABANDON_RUN).home;
            && 7 in before.tasks && before.tasks[7].outcome.Completed? && before.tasks[7].condition.RecoveryRequired?
            && 7 in after.tasks && after.tasks[7].outcome.Cancelled?
  {
    hide After, HomeSound, ResolveRecovery, Recorded;
    AbandonSteps(6);
    AtStep(ABANDON_RUN, 6);
    assert ABANDON_RUN[..7] == ABANDON_RUN;
    AbandonsCompleted(At(ABANDON_RUN, 6));
  }
}
