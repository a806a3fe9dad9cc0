/**
 Ownership over whole runs: a displaced execution guard is refused for good, and a
 workspace guard that has stopped validating never validates again.
 */
module LeaseHistory {
  import opened Wrappers
  import opened StoreModel
  import opened StoreInvariants
  import opened SessionSpec
  import opened LeaseSpec
  import opened EffectSpec
  import opened StoreRuns

  // -------------------------------------------------------- execution fencing

  lemma {:induction false} ExecutionsBetween(ops: seq<Op>, i: nat, j: nat)
    requires i <= j <= |ops|
    ensures ExecutionsEvolve(At(ops, i).home.executions, At(ops, j).home.executions)
    decreases j - i
  {
    hide LeasesExclusive, After;
    if i < j {
      ExecutionsBetween(ops, i, j - 1);
      LeaseRun(ops[..j]);
      assert ops[..j][..j - 1] == ops[..j - 1];
    }
  }

  /** A released, displaced or failed execution is never active again. */
  lemma {:induction false} InactiveForGood(ops: seq<Op>, i: nat, j: nat, x: Id)
    requires i <= j <= |ops| && x in At(ops, i).home.executions && !IsActive(At(ops, i).home.executions[x].status)
    ensures x in At(ops, j).home.executions && !IsActive(At(ops, j).home.executions[x].status)
  {
    hide After;
    ExecutionsBetween(ops, i, j);
  }

  /** Any two owners at any time are of different sessions and of different tasks. */
  lemma {:induction false} OneOwner(ops: seq<Op>, x: Id, y: Id)
    requires var xs := After(ops).home.executions;
             x in xs && y in xs && x != y && IsActive(xs[x].status) && IsActive(xs[y].status)
    ensures var xs := After(ops).home.executions;
            xs[x].sessionId != xs[y].sessionId && xs[x].taskId != xs[y].taskId
  {
    LeaseRun(ops);
  }

  /** Two rows, stored at any two times, with one token or one generation of a task are the same row. */
  lemma {:induction false} TokensNeverReused(ops: seq<Op>, i: nat, j: nat, x: Id, y: Id)
    requires i <= j <= |ops| && x in At(ops, i).home.executions && y in At(ops, j).home.executions
    requires var a, b := At(ops, i).home.executions[x], At(ops, j).home.executions[y];
             a.token == b.token || (a.taskId == b.taskId && a.generation == b.generation)
    ensures x == y
  {
    hide After;
    ExecutionsBetween(ops, i, j);
    LeaseRun(ops[..j]);
  }

  /** A successful claim stores a row whose generation exceeds every earlier one of the task. */
  lemma {:induction false} ClaimRaisesGeneration(h: Home, x: Execution, expected: Option<nat>, now: nat)
    requires ClaimExecution(h, x, expected, now).Success?
    ensures var xs := ClaimExecution(h, x, expected, now).value.executions;
            && x.id !in h.executions && x.id in xs && xs[x.id].taskId == x.taskId && xs[x.id].token == x.token
            && GuardLive(xs, Guard(x.id, x.taskId, x.token, xs[x.id].generation, x.ownerId), now)
            && forall k :: k in h.executions && h.executions[k].taskId == x.taskId ==>
                 h.executions[k].generation < xs[x.id].generation && k in xs && !IsActive(xs[k].status)
  {
    hide IsMaxGeneration;
    var g := MaxGeneration(h.executions, x.taskId);
    var xs := ClaimExecution(h, x, expected, now).value.executions;
    assert xs[x.id] == x.(generation := g + 1, status := ExecutionRunning);
    GenerationsBelow(h.executions, x.taskId);
  }

  lemma {:induction false} GenerationsBelow(executions: map<Id, Execution>, taskId: Id)
    ensures forall k :: k in executions && executions[k].taskId == taskId ==>
              executions[k].generation <= MaxGeneration(executions, taskId)
  {
    var g := MaxGeneration(executions, taskId);
    assert IsMaxGeneration(executions, taskId, g);
  }

  /** The transaction relies on this guard to be let through. */
  ghost predicate Presents(s: State, op: Op, g: Guard) {
    match op
    case Sessions(o) =>
      (match o
       case UpdateTaskOp(task, _, guard, _) =>
         guard == Some(g) && (task.id in s.home.tasks ==> s.home.tasks[task.id].sessionId.Some?)
       case CommitCheckpointOp(_, _, _, owner, _) => owner == g
       case _ => false)
    case Leases(o) =>
      (match o
       case RenewExecutionOp(guard, _, _) => guard == g
       case ReleaseExecutionOp(guard, _) => guard == g
       case AcquireWorkspaceOp(_, guard, _) => guard == g
       case _ => false)
    case Effects(o) =>
      (match o
       case PrepareEffectBatchOp(step, _, _, owner, _) =>
         owner == Some(g) && (step.taskId in s.home.tasks ==> s.home.tasks[step.taskId].sessionId.Some?)
       case RequestEffectApprovalOp(_, _, _, guard, _) => guard == g
       case ClaimEffectOp(_, _, guard, _, _) => guard == g
       case CommitEffectOp(_, _, _, _, guard, _) => guard == g
       case MarkEffectUnknownOp(_, _, guard, _) => guard == g
       case SettleUnexecutedEffectOp(_, _, _, _, guard, _) => guard == g
       case _ => false)
  }

  lemma {:induction false} DeadGuardRefused(s: State, op: Op, g: Guard)
    requires Presents(s, op, g) && forall now: nat :: !GuardLive(s.home.executions, g, now)
    ensures Apply(s, op).Failure? && Next(s, op) == s
  {
    hide ReferencesValid, Journal, JournalTask, JournalApproval, InsertAll, NewEffects, ApprovalToConsume, GuardLive;
  }

  /**
   Fencing: once a claim on the task succeeds, every later transaction that
   presents a guard of an earlier execution of it fails and changes nothing.
   */
  lemma {:induction false} OldGuardFenced(ops: seq<Op>, i: nat, j: nat, x: Execution, expected: Option<nat>, now: nat,
                                          g: Guard, op: Op)
    requires i < j <= |ops| && ops[i] == Leases(ClaimExecutionOp(x, expected, now)) && Apply(At(ops, i), ops[i]).Success?
    requires g.taskId == x.taskId && g.executionId in At(ops, i).home.executions
    requires Presents(At(ops, j), op, g)
    ensures Apply(At(ops, j), op).Failure? && Next(At(ops, j), op) == At(ops, j)
  {
    hide After, Presents, ClaimExecution, LeasesExclusive, ExecutionsEvolve;
    var h := At(ops, i).home;
    AtStep(ops, i);
    assert At(ops, i + 1).home == ClaimExecution(h, x, expected, now).value;
    ClaimRaisesGeneration(h, x, expected, now);
    ExecutionsBetween(ops, i, j);
    ExecutionsBetween(ops, i + 1, j);
    LeaseRun(ops[..j]);
    forall t: nat
      ensures !GuardLive(At(ops, j).home.executions, g, t)
    {
      Outranked(h.executions, At(ops, i + 1).home.executions, At(ops, j).home.executions, x.id, g, t);
    }
    DeadGuardRefused(At(ops, j), op, g);
  }

  lemma {:induction false} Outranked(xs: map<Id, Execution>, xs': map<Id, Execution>, later: map<Id, Execution>,
                                     x: Id, g: Guard, t: nat)
    requires g.executionId in xs && x in xs' && xs'[x].taskId == g.taskId
    requires xs[g.executionId].taskId == g.taskId ==> xs[g.executionId].generation < xs'[x].generation
    requires ExecutionsEvolve(xs, later) && ExecutionsEvolve(xs', later) && LeasesExclusive(later)
    ensures !GuardLive(later, g, t)
  {
  }

  // ---------------------------------------------------------- workspace leases

  /** What one transaction at time `now` may do to a writer lease. */
  predicate LeaseMove(w: WorkspaceLease, w': WorkspaceLease, now: nat) {
    || w' == w
    || (w.expiresAt > now && w' == w.(expiresAt := w'.expiresAt))
    || (w.expiresAt <= now && w'.workspaceId == w.workspaceId && w'.generation == w.generation + 1
        && w'.token != w.token && w'.expiresAt > now)
  }

  ghost predicate WorkspacesMove(ws: map<Id, WorkspaceLease>, ws': map<Id, WorkspaceLease>, now: nat) {
    forall k :: k in ws ==> k in ws' && LeaseMove(ws[k], ws'[k], now)
  }

  function ClockOf(op: Op): Option<nat> {
    match op
    case Sessions(o) => None
    case Leases(o) =>
      (match o
       case ClaimExecutionOp(_, _, now) => Some(now)
       case RenewExecutionOp(_, now, _) => Some(now)
       case ReleaseExecutionOp(_, now) => Some(now)
       case MarkCommandRecoveryRequiredOp(_, _) => None
       case AcquireWorkspaceOp(_, _, now) => Some(now)
       case RenewWorkspaceOp(_, now, _) => Some(now)
       case ReleaseWorkspaceOp(_, now) => Some(now))
    case Effects(o) => None
  }

  /** Workspace rows are filed under their own id. */
  ghost predicate Filed(ws: map<Id, WorkspaceLease>) {
    forall k :: k in ws ==> ws[k].workspaceId == k
  }

  lemma {:induction false} WorkspaceStep(s: State, op: Op, now: nat)
    requires ClockOf(op).None? || ClockOf(op) == Some(now)
    requires Filed(s.home.workspaces)
    ensures Filed(Next(s, op).home.workspaces)
    ensures WorkspacesMove(s.home.workspaces, Next(s, op).home.workspaces, now)
  {
    hide SessionStep, EffectStep, LeaseStep, WorkspacesMove, Filed;
    WorkspacesRest(s.home.workspaces, now);
    match op
    case Sessions(o) => SessionStepLeavesLeases(s.home, s.work.effects, o);
    case Effects(o) => EffectStepLeavesWorkspaces(s, o);
    case Leases(o) => LeaseStepWorkspaces(s.home, o, now);
  }

  lemma {:induction false} WorkspacesRest(ws: map<Id, WorkspaceLease>, now: nat)
    ensures WorkspacesMove(ws, ws, now)
  {
  }

  lemma {:induction false} LeaseStepWorkspaces(h: Home, op: LeaseOp, now: nat)
    requires Filed(h.workspaces) && (ClockOf(Leases(op)).None? || ClockOf(Leases(op)) == Some(now))
    ensures var r := LeaseStep(h, op);
            r.Success? ==> Filed(r.value.workspaces) && WorkspacesMove(h.workspaces, r.value.workspaces, now)
  {
    hide Journal, JournalTask, Expire, MaxGeneration, EventClash, GuardLive, SessionHeld, TaskHeld;
  }

  lemma {:induction false} EffectStepLeavesWorkspaces(s: State, op: EffectOp)
    ensures var r := EffectStep(s, op);
            r.Success? ==> r.value.home.workspaces == s.home.workspaces
  {
    hide PrepareEffectBatch, ResolveEffectApproval, DecideApproval, ClaimEffect;
    hide CommitEffect, MarkEffectUnknown, SettleUnexecutedEffect, ResolveRecovery;
  }

  /** The guard was issued for a lease the table still remembers. */
  ghost predicate Issued(ws: map<Id, WorkspaceLease>, g: WorkspaceGuard) {
    g.workspaceId in ws && g.generation <= ws[g.workspaceId].generation
  }

  /** Acquiring hands out the next generation, and only of a workspace nobody holds. */
  lemma {:induction false} AcquireIssuesNext(h: Home, lease: WorkspaceLease, g: Guard, now: nat)
    requires AcquireWorkspace(h, lease, g, now).Success?
    ensures var ws, k := AcquireWorkspace(h, lease, g, now).value.workspaces, lease.workspaceId;
            && k in ws
            && ws[k].generation == (if k in h.workspaces then h.workspaces[k].generation + 1 else 1)
            && WorkspaceGuardLive(ws, WorkspaceGuard(k, lease.executionId, lease.token, ws[k].generation, lease.ownerId), now)
            && (forall w: WorkspaceGuard :: w.workspaceId == k ==> !WorkspaceGuardLive(h.workspaces, w, now))
            && (forall o :: o in h.workspaces && o != k ==> o in ws && ws[o] == h.workspaces[o])
  {
  }

  /** At most one guard per workspace validates. */
  lemma {:induction false} OneWriter(ws: map<Id, WorkspaceLease>, g: WorkspaceGuard, f: WorkspaceGuard, now: nat, later: nat)
    requires WorkspaceGuardLive(ws, g, now) && WorkspaceGuardLive(ws, f, later) && g.workspaceId == f.workspaceId
    ensures g == f
  {
  }

  /** A clock that never runs backwards drives the run. */
  ghost predicate Clocked(ops: seq<Op>, times: seq<nat>) {
    && |times| == |ops| + 1
    && (forall i, j :: 0 <= i <= j < |times| ==> times[i] <= times[j])
    && (forall i :: 0 <= i < |ops| ==> ClockOf(ops[i]).None? || ClockOf(ops[i]) == Some(times[i]))
  }

  lemma {:induction false} WorkspacesFiled(ops: seq<Op>, i: nat)
    requires i <= |ops|
    ensures Filed(At(ops, i).home.workspaces)
  {
    hide Next;
    if i > 0 {
      WorkspacesFiled(ops, i - 1);
      AtStep(ops, i - 1);
      var op := ops[i - 1];
      WorkspaceStep(At(ops, i - 1), op, if ClockOf(op).Some? then ClockOf(op).value else 0);
    }
  }

  lemma {:induction false} DeadMovesToDead(ws: map<Id, WorkspaceLease>, ws': map<Id, WorkspaceLease>, g: WorkspaceGuard,
                                           now: nat, later: nat)
    requires WorkspacesMove(ws, ws', now) && now <= later && Issued(ws, g) && !WorkspaceGuardLive(ws, g, now)
    ensures Issued(ws', g) && !WorkspaceGuardLive(ws', g, later)
  {
    assert g.workspaceId in ws && LeaseMove(ws[g.workspaceId], ws'[g.workspaceId], now);
  }

  /** A released, expired or superseded workspace guard never validates again. */
  lemma {:induction false} DeadWriterForGood(ops: seq<Op>, times: seq<nat>, i: nat, j: nat, g: WorkspaceGuard)
    requires Clocked(ops, times) && i <= j <= |ops|
    requires Issued(At(ops, i).home.workspaces, g) && !WorkspaceGuardLive(At(ops, i).home.workspaces, g, times[i])
    ensures Issued(At(ops, j).home.workspaces, g) && !WorkspaceGuardLive(At(ops, j).home.workspaces, g, times[j])
    decreases j - i
  {
    hide After, Next, WorkspacesMove, Filed, WorkspaceGuardLive, Issued;
    if i < j {
      DeadWriterForGood(ops, times, i, j - 1, g);
      WorkspacesFiled(ops, j - 1);
      AtStep(ops, j - 1);
      WorkspaceStep(At(ops, j - 1), ops[j - 1], times[j - 1]);
      DeadMovesToDead(At(ops, j - 1).home.workspaces, At(ops, j).home.workspaces, g, times[j - 1], times[j]);
    }
  }
}
