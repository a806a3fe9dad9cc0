/**
 What the ownership transactions leave in the tables, and when a claim goes through, said
 of the stored rows alone.
 */
module LeaseOutcomes {
  import opened Wrappers
  import opened StoreModel
  import opened StoreInvariants
  import opened LeaseSpec
  import opened EffectSpec
  import opened StoreRuns
  import opened StoreLimits
  import opened LeaseHistory
  import opened RowChanges
  import opened EffectOutcomes

  // --------------------------------------------------------------------- guards

  /** The time a guarded transaction reads. */
  function TimeOf(op: Op): Option<nat> {
    match op
    case Sessions(UpdateTaskOp(_, _, _, now)) => Some(now)
    case Sessions(CommitCheckpointOp(_, _, _, _, now)) => Some(now)
    case Effects(PrepareEffectBatchOp(_, _, _, _, now)) => Some(now)
    case Effects(RequestEffectApprovalOp(_, _, _, _, now)) => Some(now)
    case Effects(ClaimEffectOp(_, _, _, _, now)) => Some(now)
    case Effects(CommitEffectOp(_, _, _, _, _, now)) => Some(now)
    case Effects(MarkEffectUnknownOp(_, _, _, now)) => Some(now)
    case Effects(SettleUnexecutedEffectOp(_, _, _, _, _, now)) => Some(now)
    case _ => ClockOf(op)
  }

  /** A transaction that relies on a guard goes through only while its row is held, at the transaction's own time. */
  lemma {:induction false} GuardMeansOwner(s: State, op: Op, g: Guard)
    requires Presents(s, op, g) && Apply(s, op).Success?
    ensures TimeOf(op).Some? && Owner(s.home, g, TimeOf(op).value)
  {
    hide Owner, GuardLive, SessionStep, LeaseStep, EffectStep;
    OwnerIff(s.home, g, TimeOf(op).value);
    GuardTested(s, op, g);
  }

  lemma {:induction false} GuardTested(s: State, op: Op, g: Guard)
    requires Presents(s, op, g) && Apply(s, op).Success?
    ensures TimeOf(op).Some? && GuardLive(s.home.executions, g, TimeOf(op).value)
  {
    hide SessionSpec.ReferencesValid, Journal, JournalTask, JournalApproval, InsertAll, NewEffects, ApprovalToConsume, GuardLive;
  }

  /** The workspace guard that the transaction relies on. */
  predicate PresentsWriter(op: Op, g: WorkspaceGuard) {
    op.Leases? && match op.lease
                  case RenewWorkspaceOp(writer, _, _) => writer == g
                  case ReleaseWorkspaceOp(writer, _) => writer == g
                  case _ => false
  }

  lemma {:induction false} GuardMeansWriter(s: State, op: Op, g: WorkspaceGuard)
    requires PresentsWriter(op, g) && Apply(s, op).Success?
    ensures TimeOf(op).Some? && Writer(s.home, g, TimeOf(op).value)
  {
    hide Journal;
  }

  // ------------------------------------------------------------------- claiming

  /** A row in use that belongs to the session or to the task. */
  predicate InTheWay(x: Execution, sessionId: Id, taskId: Id) {
    InUse(x.status) && (x.sessionId == sessionId || x.taskId == taskId)
  }

  function ClaimId(h: Home, x: Execution, max: nat): EventId {
    EventId(if exists k :: k in h.executions && InTheWay(h.executions[k], x.sessionId, x.taskId) then "lease.takeover" else "lease.acquired",
            x.id, Number(max + 1))
  }

  /** Everyone in the way has run out of time, and the task may be taken. */
  ghost predicate Claimable(h: Home, x: Execution, expected: Option<nat>, now: nat, max: nat) {
    && now < x.expiresAt && x.sessionId in h.sessions && x.taskId in h.tasks && x.id !in h.executions
    && (forall k :: k in h.executions ==> h.executions[k].token != x.token)
    && (forall k :: k in h.executions && InTheWay(h.executions[k], x.sessionId, x.taskId) ==> h.executions[k].expiresAt <= now)
    && var task := h.tasks[x.taskId];
       && Readable(task) && task.sessionId == Some(x.sessionId) && !task.condition.RecoveryRequired?
       && (expected.Some? ==> task.version == expected.value)
       && !Recorded(h.events, ClaimId(h, x, max))
  }

  /** The new row has the next generation of its task, everyone in the way is released, and the task runs. */
  ghost predicate Taken(h: Home, h': Home, x: Execution, max: nat) {
    && x.taskId in h.tasks
    && h'.executions.Keys == h.executions.Keys + {x.id}
    && h'.executions[x.id] == x.(generation := max + 1, status := ExecutionRunning)
    && (forall k :: k in h.executions && k != x.id ==>
          h'.executions[k] == if InTheWay(h.executions[k], x.sessionId, x.taskId)
                              then h.executions[k].(status := Released, version := h.executions[k].version + 1)
                              else h.executions[k])
    && h'.tasks == h.tasks[x.taskId := h.tasks[x.taskId].(condition := Running, version := h.tasks[x.taskId].version + 1)]
    && h' == h.(executions := h'.executions, tasks := h'.tasks, sessions := h'.sessions, events := h'.events)
    && LogsOn(h, h', x.sessionId, Some(x.taskId), [ClaimId(h, x, max)])
  }

  lemma {:induction false} HeldIff(executions: map<Id, Execution>, x: Execution, now: nat)
    ensures SessionHeld(executions, x.sessionId, now) || TaskHeld(executions, x.taskId, now)
            <==> !(forall k :: k in executions && InTheWay(executions[k], x.sessionId, x.taskId) ==> executions[k].expiresAt <= now)
    ensures (exists k :: k in executions && Displaced(executions[k], x.sessionId, x.taskId))
            <==> (exists k :: k in executions && InTheWay(executions[k], x.sessionId, x.taskId))
  {
    if k :| k in executions && InTheWay(executions[k], x.sessionId, x.taskId) && executions[k].expiresAt > now {
      assert IsActive(executions[k].status);
    }
    if k :| k in executions && Displaced(executions[k], x.sessionId, x.taskId) {
      assert InTheWay(executions[k], x.sessionId, x.taskId);
    }
    if k :| k in executions && InTheWay(executions[k], x.sessionId, x.taskId) {
      assert Displaced(executions[k], x.sessionId, x.taskId);
    }
  }

  /** A claim goes through exactly when the task is free to take, and then takes it. */
  lemma {:induction false} ClaimExecutionIff(h: Home, x: Execution, expected: Option<nat>, now: nat, max: nat)
    requires HomeSound(h, ALWAYS) && IsMaxGeneration(h.executions, x.taskId, max)
    ensures ClaimExecution(h, x, expected, now).Success? <==> Claimable(h, x, expected, now, max)
    ensures ClaimExecution(h, x, expected, now).Success? ==> Taken(h, ClaimExecution(h, x, expected, now).value, x, max)
  {
    hide HomeSound, IsMaxGeneration, ClaimExecution, Taken, Claimable;
    MaxGenerationUnique(h.executions, x.taskId, max);
    ClaimableIff(h, x, expected, now);
    if ClaimExecution(h, x, expected, now).Success? {
      ClaimTakes(h, x, expected, now);
    }
  }

  /** The row and the task that a claim writes. */
  ghost function Taking(h: Home, x: Execution): Home
    requires x.taskId in h.tasks
  {
    var task := h.tasks[x.taskId];
    h.(executions := Expire(h.executions, x.sessionId, x.taskId)[
         x.id := x.(generation := MaxGeneration(h.executions, x.taskId) + 1, status := ExecutionRunning)],
       tasks := h.tasks[task.id := task.(condition := Running, version := task.version + 1)])
  }

  lemma {:induction false} ClaimableIff(h: Home, x: Execution, expected: Option<nat>, now: nat)
    requires HomeSound(h, ALWAYS)
    ensures ClaimExecution(h, x, expected, now).Success?
            <==> Claimable(h, x, expected, now, MaxGeneration(h.executions, x.taskId))
  {
    hide HomeSound, SessionHeld, TaskHeld, InTheWay, Displaced, Journal, Recorded, Readable, Expire, EventsNumbered, MaxGeneration;
    hide LogsOn;
    HeldIff(h.executions, x, now);
    if x.sessionId in h.sessions && x.taskId in h.tasks {
      SessionIsKeyed(h, ALWAYS, x.sessionId);
      TaskIsKeyed(h, ALWAYS, x.taskId);
      SoundNumbers(h);
      JournalOn(Taking(h, x), h.sessions[x.sessionId], x.sessionId, ClaimId(h, x, MaxGeneration(h.executions, x.taskId)),
                Some(x.taskId));
    }
  }

  lemma {:induction false} ClaimTakes(h: Home, x: Execution, expected: Option<nat>, now: nat)
    requires HomeSound(h, ALWAYS) && ClaimExecution(h, x, expected, now).Success?
    ensures Taken(h, ClaimExecution(h, x, expected, now).value, x, MaxGeneration(h.executions, x.taskId))
  {
    hide HomeSound, SessionHeld, TaskHeld, InTheWay, Displaced, Journal, Readable, Expire, MaxGeneration, LogsOn;
    HeldIff(h.executions, x, now);
    SessionIsKeyed(h, ALWAYS, x.sessionId);
    TaskIsKeyed(h, ALWAYS, x.taskId);
    var id, next := ClaimId(h, x, MaxGeneration(h.executions, x.taskId)), Taking(h, x);
    JournalOn(next, h.sessions[x.sessionId], x.sessionId, id, Some(x.taskId));
    ExpiredRows(h.executions, x);
    SameLog(h, next, ClaimExecution(h, x, expected, now).value, x.sessionId, Some(x.taskId), [id]);
  }

  lemma {:induction false} SoundNumbers(h: Home)
    requires HomeSound(h, ALWAYS)
    ensures EventsNumbered(h.sessions, h.events)
  {
  }

  lemma {:induction false} ExpiredRows(executions: map<Id, Execution>, x: Execution)
    ensures var after := Expire(executions, x.sessionId, x.taskId);
            && after.Keys == executions.Keys
            && forall k :: k in executions ==>
                 after[k] == if InTheWay(executions[k], x.sessionId, x.taskId)
                             then executions[k].(status := Released, version := executions[k].version + 1)
                             else executions[k]
  {
  }

  lemma {:induction false} SameLog(h: Home, mid: Home, h': Home, k: Id, taskId: Option<Id>, ids: seq<EventId>)
    requires mid.sessions == h.sessions && mid.events == h.events
    ensures LogsOn(h, h', k, taskId, ids) <==> LogsOn(mid, h', k, taskId, ids)
  {
  }

  // ----------------------------------------------------------- renewing, ending

  /** A renewal goes through exactly for the owner and a time to come, and moves the end of the lease there. */
  lemma {:induction false} RenewExecutionIff(h: Home, g: Guard, now: nat, expiresAt: nat)
    ensures RenewExecution(h, g, now, expiresAt).Success? <==> Owner(h, g, now) && now < expiresAt
    ensures RenewExecution(h, g, now, expiresAt).Success? ==>
              var x := h.executions[g.executionId];
              RenewExecution(h, g, now, expiresAt).value
              == h.(executions := h.executions[g.executionId := x.(expiresAt := expiresAt, version := x.version + 1)])
  {
    hide GuardLive, Owner;
    OwnerIff(h, g, now);
  }

  /** A released lease is over, its task idle if it was running, and the release is on record. */
  lemma {:induction false} ReleaseExecutionOutcome(h: Home, g: Guard, now: nat)
    requires HomeSound(h, ALWAYS) && ReleaseExecution(h, g, now).Success?
    ensures var h' := ReleaseExecution(h, g, now).value;
            && Owner(h, g, now) && g.taskId in h.tasks
            && var x, task := h.executions[g.executionId], h.tasks[g.taskId];
               && h'.executions == h.executions[g.executionId := x.(status := Released, version := x.version + 1)]
               && h'.tasks == h.tasks[g.taskId := if task.condition.Running? then task.(condition := Idle, version := task.version + 1)
                                                  else task]
               && h' == h.(executions := h'.executions, tasks := h'.tasks, sessions := h'.sessions, events := h'.events)
               && Logs(h, h', task, [EventId("lease.released", x.id, Number(x.version + 1))])
  {
    hide HomeSound, GuardLive, JournalTask, Logs, Readable, Keyed;
    OwnerIff(h, g, now);
    var x := h.executions[g.executionId];
    var task := h.tasks[x.taskId];
    TaskIsKeyed(h, ALWAYS, x.taskId);
    var idle := if task.condition.Running? then task.(condition := Idle, version := task.version + 1) else task;
    var next := h.(executions := h.executions[g.executionId := Release(x)], tasks := h.tasks[x.taskId := idle]);
    var id := EventId("lease.released", x.id, Number(x.version + 1));
    SameKeyed(h, next, task);
    JournalLogs(next, task, id);
    LogsFrom(h, next, ReleaseExecution(h, g, now).value, task, [id], None);
  }

  /** A command whose end is uncertain stops its execution and sends its task to recovery. */
  lemma {:induction false} MarkCommandRecoveryRequiredOutcome(h: Home, executionId: Id, commandId: Id)
    requires HomeSound(h, ALWAYS) && MarkCommandRecoveryRequired(h, executionId, commandId).Success?
    ensures var h' := MarkCommandRecoveryRequired(h, executionId, commandId).value;
            && executionId in h.executions && h.executions[executionId].taskId in h.tasks
            && var x, task := h.executions[executionId], h.tasks[h.executions[executionId].taskId];
               && h'.executions == h.executions[executionId := x.(status := ExecutionRecoveryRequired, version := x.version + 1)]
               && h'.tasks == h.tasks[x.taskId := task.(condition := RecoveryRequired, version := task.version + 1)]
               && h' == h.(executions := h'.executions, tasks := h'.tasks, sessions := h'.sessions, events := h'.events)
               && Logs(h, h', task, [EventId("command.recovery_required", commandId, Number(task.version + 1))])
  {
    hide HomeSound, JournalTask, Logs, Readable, Keyed;
    var x := h.executions[executionId];
    var task := h.tasks[x.taskId];
    TaskIsKeyed(h, ALWAYS, x.taskId);
    var next := h.(executions := h.executions[executionId := x.(status := ExecutionRecoveryRequired, version := x.version + 1)],
                   tasks := h.tasks[x.taskId := task.(condition := RecoveryRequired, version := task.version + 1)]);
    var id := EventId("command.recovery_required", commandId, Number(task.version + 1));
    SameKeyed(h, next, task);
    JournalLogs(next, task, id);
    LogsFrom(h, next, MarkCommandRecoveryRequired(h, executionId, commandId).value, task, [id], None);
  }

  // ----------------------------------------------------------------- workspaces

  /** The workspace is free and the owner asks for it in its own name with a token of its own. */
  ghost predicate Acquirable(h: Home, lease: WorkspaceLease, g: Guard, now: nat) {
    && now < lease.expiresAt && Owner(h, g, now)
    && var x := h.executions[g.executionId];
       && lease.executionId == x.id && lease.sessionId == x.sessionId && lease.taskId == x.taskId && lease.ownerId == x.ownerId
       && (lease.workspaceId in h.workspaces ==>
             h.workspaces[lease.workspaceId].expiresAt <= now && h.workspaces[lease.workspaceId].token != lease.token)
  }

  lemma {:induction false} AcquireWorkspaceOutcome(h: Home, lease: WorkspaceLease, g: Guard, now: nat)
    requires AcquireWorkspace(h, lease, g, now).Success?
    ensures var h' := AcquireWorkspace(h, lease, g, now).value;
            var generation := if lease.workspaceId in h.workspaces then h.workspaces[lease.workspaceId].generation + 1 else 1;
            && Acquirable(h, lease, g, now)
            && h'.workspaces == h.workspaces[lease.workspaceId := lease.(generation := generation)]
            && h' == h.(workspaces := h'.workspaces, sessions := h'.sessions, events := h'.events)
  {
    hide GuardLive, Owner, Journal;
    OwnerIff(h, g, now);
  }

  /** A writer's renewal goes through exactly for the holder and a time to come. */
  lemma {:induction false} RenewWorkspaceIff(h: Home, g: WorkspaceGuard, now: nat, expiresAt: nat)
    ensures RenewWorkspace(h, g, now, expiresAt).Success? <==> Writer(h, g, now) && now < expiresAt
    ensures RenewWorkspace(h, g, now, expiresAt).Success? ==>
              RenewWorkspace(h, g, now, expiresAt).value
              == h.(workspaces := h.workspaces[g.workspaceId := h.workspaces[g.workspaceId].(expiresAt := expiresAt)])
  {
  }

  /** A released workspace has run out at once and keeps its generation. */
  lemma {:induction false} ReleaseWorkspaceOutcome(h: Home, g: WorkspaceGuard, now: nat)
    requires ReleaseWorkspace(h, g, now).Success?
    ensures var h' := ReleaseWorkspace(h, g, now).value;
            && Writer(h, g, now)
            && h'.workspaces == h.workspaces[g.workspaceId := h.workspaces[g.workspaceId].(expiresAt := now)]
            && h' == h.(workspaces := h'.workspaces, sessions := h'.sessions, events := h'.events)
  {
    hide Journal;
  }
}
