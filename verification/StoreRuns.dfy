/**
 Runs of the store: any interleaving of transactions by any number of processes,
 a failed transaction being rolled back. Every invariant holds after every step.
 */
module StoreRuns {
  import opened Wrappers
  import opened StoreModel
  import opened StoreInvariants
  import opened SessionSpec
  import opened LeaseSpec
  import opened EffectSpec
  import opened SessionProofs
  import opened LeaseProofs
  import opened EffectProofs
  import opened EffectHomeProofs

  // ------------------------------------------------------------- transactions

  datatype SessionOp =
    | CreateSessionOp(session: Session)
    | CloseSessionOp(id: Id, expected: nat)
    | AppendTurnOp(turn: Turn, current: Option<nat>)
    | StartTaskOp(id: Id, task: Task, expected: nat)
    | PrepareTaskExecutionOp(task: Task)
    | CreateTaskOp(task: Task)
    | UpdateTaskOp(task: Task, expected: nat, guard: Option<Guard>, now: nat)
    | CancelTaskOp(id: Id, control: Control, now: nat)
    | RequestControlOp(control: Control, expected: nat)
    | SettleControlOp(id: Id, status: ControlStatus, expected: nat)
    | AppendEventOp(event: Event, current: Option<nat>)
    | CommitCheckpointOp(checkpoint: Checkpoint, stamp: nat, expected: nat, owner: Guard, now: nat)

  datatype LeaseOp =
    | ClaimExecutionOp(execution: Execution, expected: Option<nat>, now: nat)
    | RenewExecutionOp(guard: Guard, now: nat, expiresAt: nat)
    | ReleaseExecutionOp(guard: Guard, now: nat)
    | MarkCommandRecoveryRequiredOp(executionId: Id, commandId: Id)
    | AcquireWorkspaceOp(lease: WorkspaceLease, guard: Guard, now: nat)
    | RenewWorkspaceOp(writer: WorkspaceGuard, now: nat, expiresAt: nat)
    | ReleaseWorkspaceOp(writer: WorkspaceGuard, now: nat)

  datatype EffectOp =
    | PrepareEffectBatchOp(step: StepRow, batch: seq<Effect>, expected: nat, owner: Option<Guard>, now: nat)
    | RequestEffectApprovalOp(id: Id, approval: Approval, expected: nat, guard: Guard, now: nat)
    | ResolveEffectApprovalOp(id: Id, approved: bool, source: string, expected: nat,
                              workspaceRef: string, policyVersion: string, configVersion: string)
    | DecideApprovalOp(approval: Approval, current: Option<nat>)
    | ClaimEffectOp(id: Id, expected: nat, guard: Guard, terms: ClaimTerms, now: nat)
    | CommitEffectOp(effect: Effect, expected: nat, call: Option<ToolCall>, result: Option<ToolResult>, guard: Guard, now: nat)
    | MarkEffectUnknownOp(id: Id, expected: nat, guard: Guard, now: nat)
    | SettleUnexecutedEffectOp(id: Id, status: EffectStatus, expected: nat, observed: Observation, guard: Guard, now: nat)
    | ResolveRecoveryOp(disposition: Disposition, id: Id, expected: nat, remedy: Remedy)

  datatype Op = Sessions(session: SessionOp) | Leases(lease: LeaseOp) | Effects(effect: EffectOp)

  ghost function SessionStep(h: Home, effects: map<Id, Effect>, op: SessionOp): Result<Home, Error> {
    match op
    case CreateSessionOp(session) => CreateSession(h, session)
    case CloseSessionOp(id, expected) => CloseSession(h, id, expected)
    case AppendTurnOp(turn, current) => AppendTurn(h, turn, current)
    case StartTaskOp(id, task, expected) => StartTask(h, id, task, expected)
    case PrepareTaskExecutionOp(task) => PrepareTaskExecution(h, task)
    case CreateTaskOp(task) => CreateTask(h, task)
    case UpdateTaskOp(task, expected, guard, now) => UpdateTask(h, task, expected, guard, now)
    case CancelTaskOp(id, control, now) => CancelTask(h, id, control, now)
    case RequestControlOp(control, expected) => RequestControl(h, control, expected)
    case SettleControlOp(id, status, expected) => SettleControl(h, id, status, expected)
    case AppendEventOp(event, current) => AppendEvent(h, event, current)
    case CommitCheckpointOp(c, stamp, expected, owner, now) => CommitCheckpoint(h, effects, c, stamp, expected, owner, now)
  }

  ghost function LeaseStep(h: Home, op: LeaseOp): Result<Home, Error> {
    match op
    case ClaimExecutionOp(x, expected, now) => ClaimExecution(h, x, expected, now)
    case RenewExecutionOp(g, now, expiresAt) => RenewExecution(h, g, now, expiresAt)
    case ReleaseExecutionOp(g, now) => ReleaseExecution(h, g, now)
    case MarkCommandRecoveryRequiredOp(x, command) => MarkCommandRecoveryRequired(h, x, command)
    case AcquireWorkspaceOp(lease, g, now) => AcquireWorkspace(h, lease, g, now)
    case RenewWorkspaceOp(g, now, expiresAt) => RenewWorkspace(h, g, now, expiresAt)
    case ReleaseWorkspaceOp(g, now) => ReleaseWorkspace(h, g, now)
  }

  ghost function EffectStep(s: State, op: EffectOp): Result<State, Error> {
    match op
    case PrepareEffectBatchOp(step, batch, expected, owner, now) => PrepareEffectBatch(s, step, batch, expected, owner, now)
    case RequestEffectApprovalOp(id, a, expected, g, now) => RequestEffectApproval(s, id, a, expected, g, now)
    case ResolveEffectApprovalOp(id, approved, source, expected, workspace, policy, config) =>
      ResolveEffectApproval(s, id, approved, source, expected, workspace, policy, config)
    case DecideApprovalOp(a, current) => DecideApproval(s, a, current)
    case ClaimEffectOp(id, expected, g, terms, now) => ClaimEffect(s, id, expected, g, terms, now)
    case CommitEffectOp(e, expected, call, result, g, now) => CommitEffect(s, e, expected, call, result, g, now)
    case MarkEffectUnknownOp(id, expected, g, now) => MarkEffectUnknown(s, id, expected, g, now)
    case SettleUnexecutedEffectOp(id, status, expected, o, g, now) =>
      SettleUnexecutedEffect(s, id, status, expected, o.call, o.result, g, now)
    case ResolveRecoveryOp(d, id, expected, remedy) => ResolveRecovery(s, d, id, expected, remedy)
  }

  ghost function OnHome(s: State, r: Result<Home, Error>): Result<State, Error> {
    match r
    case Success(h) => Success(s.(home := h))
    case Failure(e) => Failure(e)
  }

  ghost function Apply(s: State, op: Op): Result<State, Error> {
    match op
    case Sessions(o) => OnHome(s, SessionStep(s.home, s.work.effects, o))
    case Leases(o) => OnHome(s, LeaseStep(s.home, o))
    case Effects(o) => EffectStep(s, o)
  }

  /** A transaction commits its new state or rolls back to the old one. */
  ghost function Next(s: State, op: Op): State {
    match Apply(s, op)
    case Success(s') => s'
    case Failure(_) => s
  }

  /** The committed state after a run that starts from the empty database. */
  ghost function After(ops: seq<Op>): State {
    if |ops| == 0 then Empty else Next(After(ops[..|ops| - 1]), ops[|ops| - 1])
  }

  ghost function At(ops: seq<Op>, i: nat): State
    requires i <= |ops|
  {
    After(ops[..i])
  }

  lemma {:induction false} AtStep(ops: seq<Op>, i: nat)
    requires i < |ops|
    ensures At(ops, i + 1) == Next(At(ops, i), ops[i])
  {
    assert ops[..i + 1][..i] == ops[..i];
  }

  // ------------------------------------------------------ callers' discipline

  /** `decide_approval`, when it goes through, decides a stored request or opens one safely. */
  ghost predicate DecidesSoundly(s: State, op: Op) {
    op.Effects? && op.effect.DecideApprovalOp? && Apply(s, op).Success? ==> DecidesSafely(s.work, op.effect.approval)
  }

  /** A session arrives with its event counter at zero. */
  predicate CountsFromZero(op: Op) {
    op.Sessions? && op.session.CreateSessionOp? ==> op.session.session.eventSequence == 0
  }

  /** A session arrives without an active task. */
  predicate ArrivesIdle(op: Op) {
    op.Sessions? && op.session.CreateSessionOp? ==> op.session.session.activeTask.None?
  }

  /** An unbound task is active when it is bound. */
  ghost predicate BindsActive(s: State, op: Op) {
    op.Sessions? && op.session.PrepareTaskExecutionOp? ==>
      var t := Candidate(s.home, op.session.task); t.sessionId.None? ==> t.outcome.Active?
  }

  /** The scope that asks nothing of callers, and the one that asks that unbound tasks are bound active. */
  const ALWAYS: Scope := Scope(false, false, false)
  const OWNED: Scope := Scope(false, false, true)

  /** What the scope asks of the transaction. */
  ghost predicate Arrives(s: State, op: Op, scope: Scope) {
    && (scope.fromZero ==> CountsFromZero(op))
    && (scope.hosted ==> ArrivesIdle(op))
    && (scope.live ==> BindsActive(s, op))
  }

  ghost predicate Deciding(ops: seq<Op>) {
    forall i :: 0 <= i < |ops| ==> DecidesSoundly(At(ops, i), ops[i])
  }

  ghost predicate Clean(ops: seq<Op>, scope: Scope) {
    forall i :: 0 <= i < |ops| ==> Arrives(At(ops, i), ops[i], scope)
  }

  // ------------------------------------------------------------ effect tables

  lemma {:induction false} EffectStepWork(s: State, op: EffectOp)
    requires WorkSound(s.work)
    requires op.DecideApprovalOp? && EffectStep(s, op).Success? ==> DecidesSafely(s.work, op.approval)
    ensures KeepsWork(s, EffectStep(s, op))
  {
    hide WorkSound, WorkEvolves;
    match op
    case PrepareEffectBatchOp(step, batch, expected, owner, now) => PrepareEffectBatchWork(s, step, batch, expected, owner, now);
    case RequestEffectApprovalOp(id, a, expected, g, now) => RequestEffectApprovalWork(s, id, a, expected, g, now);
    case ResolveEffectApprovalOp(id, approved, source, expected, workspace, policy, config) =>
      ResolveEffectApprovalWork(s, id, approved, source, expected, workspace, policy, config);
    case DecideApprovalOp(a, current) =>
      if DecideApproval(s, a, current).Success? {
        DecideApprovalWork(s, a, current);
      }
    case ClaimEffectOp(id, expected, g, terms, now) => ClaimEffectWork(s, id, expected, g, terms, now);
    case CommitEffectOp(e, expected, call, result, g, now) => CommitEffectWork(s, e, expected, call, result, g, now);
    case MarkEffectUnknownOp(id, expected, g, now) => MarkEffectUnknownWork(s, id, expected, g, now);
    case SettleUnexecutedEffectOp(id, status, expected, o, g, now) =>
      SettleUnexecutedEffectWork(s, id, status, expected, o.call, o.result, g, now);
    case ResolveRecoveryOp(d, id, expected, remedy) => ResolveRecoveryWork(s, d, id, expected, remedy);
  }

  /** Every transaction keeps the effect-side invariants and the effect histories. */
  lemma {:induction false} WorkStep(s: State, op: Op)
    requires WorkSound(s.work) && DecidesSoundly(s, op)
    ensures WorkSound(Next(s, op).work) && WorkEvolves(s.work, Next(s, op).work)
  {
    if op.Effects? {
      EffectStepWork(s, op.effect);
    }
  }

  lemma {:induction false} WorkRun(ops: seq<Op>)
    requires Deciding(ops)
    ensures WorkSound(After(ops).work)
    ensures |ops| > 0 ==> WorkEvolves(After(ops[..|ops| - 1]).work, After(ops).work)
  {
    hide WorkSound, WorkEvolves, Next;
    if |ops| > 0 {
      var n := |ops| - 1;
      DecidingPrefix(ops, n);
      WorkRun(ops[..n]);
      assert DecidesSoundly(At(ops, n), ops[n]);
      WorkStep(After(ops[..n]), ops[n]);
    } else {
      EmptySound(ALWAYS);
    }
  }

  lemma {:induction false} EmptySound(scope: Scope)
    ensures Inv(Empty, scope)
  {
  }

  lemma {:induction false} DecidingPrefix(ops: seq<Op>, n: nat)
    requires Deciding(ops) && n <= |ops|
    ensures Deciding(ops[..n])
  {
    hide DecidesSoundly, After;
    forall i | 0 <= i < n
      ensures DecidesSoundly(At(ops[..n], i), ops[..n][i])
    {
      assert ops[..n][..i] == ops[..i];
      assert DecidesSoundly(At(ops, i), ops[i]);
    }
  }

  // -------------------------------------------------------------- lease table

  /** Session transactions own no lease row. */
  lemma {:induction false} SessionStepLeavesLeases(h: Home, effects: map<Id, Effect>, op: SessionOp)
    ensures var r := SessionStep(h, effects, op);
            r.Success? ==> SameLeases(h, r.value)
  {
    hide CreateSession, CloseSession, AppendTurn, StartTask, PrepareTaskExecution, CreateTask, UpdateTask, CancelTask;
    hide RequestControl, SettleControl, AppendEvent, CommitCheckpoint;
  }

  lemma {:induction false} EffectStepLeases(s: State, op: EffectOp)
    requires LeasesExclusive(s.home.executions)
    ensures KeepsLeasesOf(s, EffectStep(s, op))
  {
    hide LeasesExclusive, PrepareEffectBatch, RequestEffectApproval, ResolveEffectApproval, DecideApproval, ClaimEffect;
    hide CommitEffect, MarkEffectUnknown, SettleUnexecutedEffect, ResolveRecovery;
    if op.RequestEffectApprovalOp? {
      RequestEffectApprovalLeases(s, op.id, op.approval, op.expected, op.guard, op.now);
    }
  }

  lemma {:induction false} LeaseStepLeases(h: Home, op: LeaseOp)
    requires LeasesExclusive(h.executions)
    ensures KeepsLeases(h, LeaseStep(h, op))
  {
    match op
    case ClaimExecutionOp(x, expected, now) => ClaimExecutionLeases(h, x, expected, now);
    case RenewExecutionOp(g, now, expiresAt) => RenewExecutionLeases(h, g, now, expiresAt);
    case ReleaseExecutionOp(g, now) => ReleaseExecutionLeases(h, g, now);
    case MarkCommandRecoveryRequiredOp(x, command) => MarkCommandRecoveryRequiredLeases(h, x, command);
    case _ =>
  }

  /** Every transaction keeps the leases exclusive and revives none. */
  lemma {:induction false} LeaseInvariantStep(s: State, op: Op)
    requires LeasesExclusive(s.home.executions)
    ensures LeasesExclusive(Next(s, op).home.executions)
    ensures ExecutionsEvolve(s.home.executions, Next(s, op).home.executions)
  {
    hide LeasesExclusive, SessionStep, LeaseStep, EffectStep;
    match op
    case Sessions(o) => SessionStepLeavesLeases(s.home, s.work.effects, o);
    case Leases(o) => LeaseStepLeases(s.home, o);
    case Effects(o) => EffectStepLeases(s, o);
  }

  lemma {:induction false} LeaseRun(ops: seq<Op>)
    ensures LeasesExclusive(After(ops).home.executions)
    ensures |ops| > 0 ==> ExecutionsEvolve(After(ops[..|ops| - 1]).home.executions, After(ops).home.executions)
  {
    hide LeasesExclusive, ExecutionsEvolve, Next;
    if |ops| > 0 {
      LeaseRun(ops[..|ops| - 1]);
      LeaseInvariantStep(After(ops[..|ops| - 1]), ops[|ops| - 1]);
    } else {
      EmptySound(ALWAYS);
    }
  }

  // ------------------------------------------------------------- session side

  lemma {:induction false} SessionStepHome(h: Home, effects: map<Id, Effect>, op: SessionOp, scope: Scope)
    requires HomeSound(h, scope)
    requires op.CreateSessionOp? ==> (scope.hosted ==> op.session.activeTask.None?) && (scope.fromZero ==> op.session.eventSequence == 0)
    requires op.PrepareTaskExecutionOp? && scope.live && Candidate(h, op.task).sessionId.None? ==>
               Candidate(h, op.task).outcome.Active?
    ensures KeepsHome(h, SessionStep(h, effects, op), scope)
  {
    hide HomeSound, HomeEvolves;
    match op
    case CreateSessionOp(session) => CreateSessionHome(h, session, scope);
    case CloseSessionOp(id, expected) => CloseSessionHome(h, id, expected, scope);
    case AppendTurnOp(turn, current) => AppendTurnHome(h, turn, current, scope);
    case StartTaskOp(id, task, expected) => StartTaskHome(h, id, task, expected, scope);
    case PrepareTaskExecutionOp(task) => PrepareTaskExecutionHome(h, task, scope);
    case CreateTaskOp(task) => CreateTaskHome(h, task, scope);
    case UpdateTaskOp(task, expected, guard, now) => UpdateTaskHome(h, task, expected, guard, now, scope);
    case CancelTaskOp(id, control, now) => CancelTaskHome(h, id, control, now, scope);
    case RequestControlOp(control, expected) => RequestControlHome(h, control, expected, scope);
    case SettleControlOp(id, status, expected) => SettleControlHome(h, id, status, expected, scope);
    case AppendEventOp(event, current) => AppendEventHome(h, event, current, scope);
    case CommitCheckpointOp(c, stamp, expected, owner, now) => CommitCheckpointHome(h, effects, c, stamp, expected, owner, now, scope);
  }

  lemma {:induction false} LeaseStepHome(h: Home, op: LeaseOp, scope: Scope)
    requires HomeSound(h, scope)
    ensures KeepsHome(h, LeaseStep(h, op), scope)
  {
    match op
    case ClaimExecutionOp(x, expected, now) => ClaimExecutionHome(h, x, expected, now, scope);
    case RenewExecutionOp(g, now, expiresAt) => RenewExecutionHome(h, g, now, expiresAt, scope);
    case ReleaseExecutionOp(g, now) => ReleaseExecutionHome(h, g, now, scope);
    case MarkCommandRecoveryRequiredOp(x, command) => MarkCommandRecoveryRequiredHome(h, x, command, scope);
    case AcquireWorkspaceOp(lease, g, now) => AcquireWorkspaceHome(h, lease, g, now, scope);
    case RenewWorkspaceOp(g, now, expiresAt) =>
    case ReleaseWorkspaceOp(g, now) => ReleaseWorkspaceHome(h, g, now, scope);
  }

  lemma {:induction false} EffectStepHome(s: State, op: EffectOp, scope: Scope)
    requires HomeSound(s.home, scope) && LeasesExclusive(s.home.executions)
    ensures KeepsHomeOf(s, EffectStep(s, op), scope)
  {
    hide HomeSound, HomeEvolves;
    match op
    case PrepareEffectBatchOp(step, batch, expected, owner, now) => PrepareEffectBatchHome(s, step, batch, expected, owner, now, scope);
    case RequestEffectApprovalOp(id, a, expected, g, now) => RequestEffectApprovalHome(s, id, a, expected, g, now, scope);
    case ResolveEffectApprovalOp(id, approved, source, expected, workspace, policy, config) =>
      ResolveEffectApprovalHome(s, id, approved, source, expected, workspace, policy, config, scope);
    case DecideApprovalOp(a, current) => DecideApprovalHome(s, a, current, scope);
    case ClaimEffectOp(id, expected, g, terms, now) => ClaimEffectHome(s, id, expected, g, terms, now, scope);
    case CommitEffectOp(e, expected, call, result, g, now) => CommitEffectHome(s, e, expected, call, result, g, now, scope);
    case MarkEffectUnknownOp(id, expected, g, now) => MarkEffectUnknownHome(s, id, expected, g, now, scope);
    case SettleUnexecutedEffectOp(id, status, expected, o, g, now) =>
      SettleUnexecutedEffectHome(s, id, status, expected, o.call, o.result, g, now, scope);
    case ResolveRecoveryOp(d, id, expected, remedy) => ResolveRecoveryHome(s, d, id, expected, remedy, scope);
  }

  /** Every transaction keeps the session-side invariants and the task and log histories. */
  lemma {:induction false} HomeStep(s: State, op: Op, scope: Scope)
    requires HomeSound(s.home, scope) && LeasesExclusive(s.home.executions) && Arrives(s, op, scope)
    ensures HomeSound(Next(s, op).home, scope) && HomeEvolves(s.home, Next(s, op).home, scope)
  {
    hide HomeSound, SessionStep, LeaseStep, EffectStep, LeasesExclusive;
    match op
    case Sessions(o) => SessionStepHome(s.home, s.work.effects, o, scope);
    case Leases(o) => LeaseStepHome(s.home, o, scope);
    case Effects(o) => EffectStepHome(s, o, scope);
  }

  lemma {:induction false} HomeRun(ops: seq<Op>, scope: Scope)
    requires Clean(ops, scope)
    ensures HomeSound(After(ops).home, scope)
    ensures |ops| > 0 ==> HomeEvolves(After(ops[..|ops| - 1]).home, After(ops).home, scope)
  {
    hide HomeSound, HomeEvolves, Next, LeasesExclusive;
    if |ops| > 0 {
      var n := |ops| - 1;
      CleanPrefix(ops, n, scope);
      HomeRun(ops[..n], scope);
      LeaseRun(ops[..n]);
      assert Arrives(At(ops, n), ops[n], scope);
      HomeStep(After(ops[..n]), ops[n], scope);
    } else {
      EmptySound(scope);
    }
  }

  lemma {:induction false} CleanPrefix(ops: seq<Op>, n: nat, scope: Scope)
    requires Clean(ops, scope) && n <= |ops|
    ensures Clean(ops[..n], scope)
  {
    hide Arrives, After;
    forall i | 0 <= i < n
      ensures Arrives(At(ops[..n], i), ops[..n][i], scope)
    {
      assert ops[..n][..i] == ops[..i];
      assert Arrives(At(ops, i), ops[i], scope);
    }
  }
}
