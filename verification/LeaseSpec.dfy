/**
 Specification of the ownership transactions: execution leases with takeover and
 fencing generations, and workspace writer leases.
 */
module LeaseSpec {
  import opened Wrappers
  import opened StoreModel

  /** An active row that a claim for this session or task has to displace. */
  predicate Displaced(x: Execution, sessionId: Id, taskId: Id) {
    IsActive(x.status) && (x.sessionId == sessionId || x.taskId == taskId)
  }

  predicate SessionHeld(executions: map<Id, Execution>, sessionId: Id, now: nat) {
    exists k :: k in executions && IsActive(executions[k].status) && executions[k].sessionId == sessionId
                && executions[k].expiresAt > now
  }

  predicate TaskHeld(executions: map<Id, Execution>, taskId: Id, now: nat) {
    exists k :: k in executions && IsActive(executions[k].status) && executions[k].taskId == taskId
                && executions[k].expiresAt > now
  }

  function Release(x: Execution): Execution {
    x.(status := Released, version := x.version + 1)
  }

  /** Every displaced row released, every other row untouched. */
  function Expire(executions: map<Id, Execution>, sessionId: Id, taskId: Id): map<Id, Execution> {
    map k | k in executions ::
      if Displaced(executions[k], sessionId, taskId) then Release(executions[k]) else executions[k]
  }

  /** `g` is `COALESCE(MAX(generation), 0)` over the task's executions. */
  ghost predicate IsMaxGeneration(executions: map<Id, Execution>, taskId: Id, g: nat) {
    && (forall k :: k in executions && executions[k].taskId == taskId ==> executions[k].generation <= g)
    && (g == 0 || exists k :: k in executions && executions[k].taskId == taskId && executions[k].generation == g)
  }

  lemma {:induction false} MaxGenerationExists(executions: map<Id, Execution>, taskId: Id)
    ensures exists g: nat :: IsMaxGeneration(executions, taskId, g)
    decreases |executions|
  {
    if k :| k in executions {
      var rest := executions - {k};
      MaxGenerationExists(rest, taskId);
      var g: nat :| IsMaxGeneration(rest, taskId, g);
      var x := executions[k];
      assert forall j :: j in executions ==> j == k || (j in rest && rest[j] == executions[j]);
      if x.taskId == taskId && x.generation > g {
        assert IsMaxGeneration(executions, taskId, x.generation);
      } else {
        assert IsMaxGeneration(executions, taskId, g);
      }
    } else {
      assert IsMaxGeneration(executions, taskId, 0);
    }
  }

  ghost function MaxGeneration(executions: map<Id, Execution>, taskId: Id): (g: nat)
    ensures IsMaxGeneration(executions, taskId, g)
  {
    MaxGenerationExists(executions, taskId);
    var g: nat :| IsMaxGeneration(executions, taskId, g);
    g
  }

  lemma {:induction false} MaxGenerationUnique(executions: map<Id, Execution>, taskId: Id, g: nat)
    requires IsMaxGeneration(executions, taskId, g)
    ensures g == MaxGeneration(executions, taskId)
  {
    var m := MaxGeneration(executions, taskId);
    assert IsMaxGeneration(executions, taskId, m);
  }

  ghost function ClaimExecution(h: Home, x: Execution, expected: Option<nat>, now: nat): (r: Result<Home, Error>)
    ensures r.Success? ==> r.value.turns == h.turns
  {
    var future := x.expiresAt > now;
    :- Need(future, InvalidValue);
    var session :- RequireSession(h.sessions, x.sessionId);
    :- Need(!SessionHeld(h.executions, x.sessionId, now), LeaseConflict);
    var task :- RequireTask(h.tasks, x.taskId);
    :- Need(VersionMatches(task.version, expected), StaleVersion);
    :- Need(task.sessionId == Some(x.sessionId), InvalidValue);
    :- Need(!task.condition.RecoveryRequired?, RecoveryIsRequired);
    :- Need(!TaskHeld(h.executions, x.taskId, now), LeaseConflict);
    :- Need(x.id !in h.executions, AlreadyExists);
    :- Need(forall k :: k in h.executions ==> h.executions[k].token != x.token, InvalidValue);
    var takeover := exists k :: k in h.executions && Displaced(h.executions[k], x.sessionId, x.taskId);
    var claimed := x.(generation := MaxGeneration(h.executions, x.taskId) + 1, status := ExecutionRunning);
    Journal(h.(executions := Expire(h.executions, x.sessionId, x.taskId)[x.id := claimed],
               tasks := h.tasks[task.id := task.(condition := Running, version := task.version + 1)]),
            session,
            EventId(if takeover then "lease.takeover" else "lease.acquired", claimed.id, Number(claimed.generation)),
            Some(task.id), "")
  }

  ghost function RenewExecution(h: Home, g: Guard, now: nat, expiresAt: nat): (r: Result<Home, Error>)
    ensures r.Success? ==> r.value.turns == h.turns
  {
    var future := expiresAt > now;
    :- Need(future, InvalidValue);
    :- Need(GuardLive(h.executions, g, now), LeaseLost);
    var x := h.executions[g.executionId];
    Success(h.(executions := h.executions[g.executionId := x.(expiresAt := expiresAt, version := x.version + 1)]))
  }

  ghost function ReleaseExecution(h: Home, g: Guard, now: nat): (r: Result<Home, Error>)
    ensures r.Success? ==> r.value.turns == h.turns
  {
    var live := GuardLive(h.executions, g, now);
    :- Need(live, LeaseLost);
    var released := Release(h.executions[g.executionId]);
    var task :- RequireTask(h.tasks, released.taskId);
    var idle := if task.condition.Running? then task.(condition := Idle, version := task.version + 1) else task;
    JournalTask(h.(executions := h.executions[g.executionId := released], tasks := h.tasks[released.taskId := idle]),
                task, EventId("lease.released", released.id, Number(released.version)))
  }

  ghost function MarkCommandRecoveryRequired(h: Home, executionId: Id, commandId: Id): (r: Result<Home, Error>)
    ensures r.Success? ==> r.value.turns == h.turns
  {
    var known := executionId in h.executions;
    :- Need(known, NotFound);
    var x := h.executions[executionId];
    var task :- RequireTask(h.tasks, x.taskId);
    var stopped := task.(condition := RecoveryRequired, version := task.version + 1);
    JournalTask(h.(executions := h.executions[executionId := x.(status := ExecutionRecoveryRequired, version := x.version + 1)],
                   tasks := h.tasks[x.taskId := stopped]),
                task, EventId("command.recovery_required", commandId, Number(stopped.version)))
  }

  ghost function AcquireWorkspace(h: Home, lease: WorkspaceLease, g: Guard, now: nat): (r: Result<Home, Error>)
    ensures r.Success? ==> r.value.turns == h.turns
  {
    var future := lease.expiresAt > now;
    :- Need(future, InvalidValue);
    :- Need(GuardLive(h.executions, g, now), LeaseLost);
    var x := h.executions[g.executionId];
    :- Need(lease.executionId == x.id && lease.sessionId == x.sessionId && lease.taskId == x.taskId
            && lease.ownerId == x.ownerId, LeaseLost);
    var known := lease.workspaceId in h.workspaces;
    :- Need(known ==> h.workspaces[lease.workspaceId].expiresAt <= now, LeaseConflict);
    :- Need(known ==> h.workspaces[lease.workspaceId].token != lease.token, InvalidValue);
    var acquired := lease.(generation := if known then h.workspaces[lease.workspaceId].generation + 1 else 1);
    var prior := if known then h.workspaces[lease.workspaceId].executionId else x.id;
    var takeover := known && prior in h.executions && IsActive(h.executions[prior].status);
    var session :- RequireSession(h.sessions, acquired.sessionId);
    Journal(h.(workspaces := h.workspaces[lease.workspaceId := acquired]), session,
            EventId(if takeover then "lease.takeover" else "lease.acquired", acquired.workspaceId,
                    Number(acquired.generation)), Some(acquired.taskId), "")
  }

  ghost function RenewWorkspace(h: Home, g: WorkspaceGuard, now: nat, expiresAt: nat): (r: Result<Home, Error>)
    ensures r.Success? ==> r.value.turns == h.turns
  {
    var future := expiresAt > now;
    :- Need(future, InvalidValue);
    :- Need(WorkspaceGuardLive(h.workspaces, g, now), LeaseLost);
    Success(h.(workspaces := h.workspaces[g.workspaceId := h.workspaces[g.workspaceId].(expiresAt := expiresAt)]))
  }

  ghost function ReleaseWorkspace(h: Home, g: WorkspaceGuard, now: nat): (r: Result<Home, Error>)
    ensures r.Success? ==> r.value.turns == h.turns
  {
    var live := WorkspaceGuardLive(h.workspaces, g, now);
    :- Need(live, LeaseLost);
    var w := h.workspaces[g.workspaceId];
    var session :- RequireSession(h.sessions, w.sessionId);
    Journal(h.(workspaces := h.workspaces[g.workspaceId := w.(expiresAt := now)]), session,
            EventId("lease.released", w.workspaceId, Scoped(w.generation, w.executionId)), Some(w.taskId), "")
  }
}
