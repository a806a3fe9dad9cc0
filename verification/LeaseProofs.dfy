/** Every ownership transaction keeps the invariants and the row histories. */
module LeaseProofs {
  import opened Wrappers
  import opened StoreModel
  import opened StoreInvariants
  import opened HomeMoves
  import opened LeaseSpec

  // ------------------------------------------------------------ lease tables

  lemma {:induction false} ClaimExecutionLeases(h: Home, x: Execution, expected: Option<nat>, now: nat)
    requires LeasesExclusive(h.executions)
    ensures KeepsLeases(h, ClaimExecution(h, x, expected, now))
  {
    hide LeasesExclusive;
    var r := ClaimExecution(h, x, expected, now);
    if r.Success? {
      var expired := Expire(h.executions, x.sessionId, x.taskId);
      ExpireKeepsLeases(h.executions, x.sessionId, x.taskId);
      var g := MaxGeneration(h.executions, x.taskId);
      var claimed := x.(generation := g + 1, status := ExecutionRunning);
      assert r.value.executions == expired[x.id := claimed];
      assert forall k :: k in expired && expired[k].taskId == x.taskId ==> h.executions[k].generation <= g;
      InsertKeepsLeases(expired, claimed);
    }
  }

  lemma {:induction false} ExpireKeepsLeases(executions: map<Id, Execution>, sessionId: Id, taskId: Id)
    requires LeasesExclusive(executions)
    ensures LeasesExclusive(Expire(executions, sessionId, taskId))
    ensures ExecutionsEvolve(executions, Expire(executions, sessionId, taskId))
  {
  }

  lemma {:induction false} InsertKeepsLeases(executions: map<Id, Execution>, x: Execution)
    requires LeasesExclusive(executions) && x.id !in executions
    requires forall k :: k in executions ==> executions[k].token != x.token
    requires forall k :: k in executions ==> !(IsActive(executions[k].status)
                                               && (executions[k].taskId == x.taskId || executions[k].sessionId == x.sessionId))
    requires forall k :: k in executions && executions[k].taskId == x.taskId ==> executions[k].generation < x.generation
    ensures LeasesExclusive(executions[x.id := x])
  {
  }

  /** A row rewritten in place, without reviving it, keeps the exclusion. */
  lemma {:induction false} RewriteKeepsLeases(executions: map<Id, Execution>, x: Execution)
    requires LeasesExclusive(executions) && x.id in executions
    requires var o := executions[x.id];
      && o.taskId == x.taskId && o.sessionId == x.sessionId && o.token == x.token && o.generation == x.generation
      && o.ownerId == x.ownerId && (IsActive(x.status) ==> IsActive(o.status))
    ensures LeasesExclusive(executions[x.id := x]) && ExecutionsEvolve(executions, executions[x.id := x])
  {
  }

  lemma {:induction false} RenewExecutionLeases(h: Home, g: Guard, now: nat, expiresAt: nat)
    requires LeasesExclusive(h.executions)
    ensures KeepsLeases(h, RenewExecution(h, g, now, expiresAt))
  {
    var r := RenewExecution(h, g, now, expiresAt);
    if r.Success? {
      RewriteKeepsLeases(h.executions, r.value.executions[g.executionId]);
    }
  }

  lemma {:induction false} ReleaseExecutionLeases(h: Home, g: Guard, now: nat)
    requires LeasesExclusive(h.executions)
    ensures KeepsLeases(h, ReleaseExecution(h, g, now))
  {
    var r := ReleaseExecution(h, g, now);
    if r.Success? {
      RewriteKeepsLeases(h.executions, r.value.executions[g.executionId]);
    }
  }

  lemma {:induction false} MarkCommandRecoveryRequiredLeases(h: Home, executionId: Id, commandId: Id)
    requires LeasesExclusive(h.executions)
    ensures KeepsLeases(h, MarkCommandRecoveryRequired(h, executionId, commandId))
  {
    var r := MarkCommandRecoveryRequired(h, executionId, commandId);
    if r.Success? {
      RewriteKeepsLeases(h.executions, r.value.executions[executionId]);
    }
  }

  // ----------------------------------------------------------- session side

  lemma {:induction false} ClaimExecutionHome(h: Home, x: Execution, expected: Option<nat>, now: nat, scope: Scope)
    requires HomeSound(h, scope)
    ensures KeepsHome(h, ClaimExecution(h, x, expected, now), scope)
  {
    hide EventsNumbered, Gap, TurnsDense, CursorsBehind;
    var r := ClaimExecution(h, x, expected, now);
    if r.Success? {
      var tasked := h.(tasks := r.value.tasks);
      TaskMove(h, x.taskId, r.value.tasks[x.taskId], scope);
      ExecutionsMove(tasked, r.value.executions, scope);
      var written := tasked.(executions := r.value.executions);
      JournalMove(written, r.value, x.sessionId, scope);
    }
  }

  lemma {:induction false} RenewExecutionHome(h: Home, g: Guard, now: nat, expiresAt: nat, scope: Scope)
    requires HomeSound(h, scope)
    ensures KeepsHome(h, RenewExecution(h, g, now, expiresAt), scope)
  {
    var r := RenewExecution(h, g, now, expiresAt);
    if r.Success? {
      ExecutionsMove(h, r.value.executions, scope);
    }
  }

  lemma {:induction false} ReleaseExecutionHome(h: Home, g: Guard, now: nat, scope: Scope)
    requires HomeSound(h, scope)
    ensures KeepsHome(h, ReleaseExecution(h, g, now), scope)
  {
    var r := ReleaseExecution(h, g, now);
    if r.Success? {
      ExecutionHome(h, r.value, g.executionId, scope);
    }
  }

  lemma {:induction false} MarkCommandRecoveryRequiredHome(h: Home, executionId: Id, commandId: Id, scope: Scope)
    requires HomeSound(h, scope)
    ensures KeepsHome(h, MarkCommandRecoveryRequired(h, executionId, commandId), scope)
  {
    var r := MarkCommandRecoveryRequired(h, executionId, commandId);
    if r.Success? {
      ExecutionHome(h, r.value, executionId, scope);
    }
  }

  /** One execution and its task are rewritten and the session is told. */
  lemma {:induction false} ExecutionHome(h: Home, h': Home, k: Id, scope: Scope)
    requires HomeSound(h, scope) && k in h.executions && k in h'.executions
    requires var t := h.executions[k].taskId;
      && t in h'.tasks && h'.tasks == h.tasks[t := h'.tasks[t]] && h'.tasks[t].id == t
      && (t in h.tasks ==> && (h'.tasks[t] == h.tasks[t] || h'.tasks[t].version > h.tasks[t].version)
                           && h'.tasks[t].sessionId == h.tasks[t].sessionId && h'.tasks[t].outcome == h.tasks[t].outcome)
    requires h'.executions == h.executions[k := h'.executions[k]] && h'.executions[k].taskId == h.executions[k].taskId
             && h'.executions[k].sessionId == h.executions[k].sessionId
    requires Journaled(h, h', h.executions[k].sessionId)
    requires h'.sessions[h.executions[k].sessionId]
             == h.sessions[h.executions[k].sessionId].(eventSequence := h'.sessions[h.executions[k].sessionId].eventSequence)
    requires h' == h.(executions := h'.executions, tasks := h'.tasks, sessions := h'.sessions, events := h'.events)
    ensures HomeSound(h', scope) && HomeEvolves(h, h', scope)
  {
    var t := h.executions[k].taskId;
    TaskMove(h, t, h'.tasks[t], scope);
    var tasked := h.(tasks := h'.tasks);
    ExecutionsMove(tasked, h'.executions, scope);
    JournalMove(tasked.(executions := h'.executions), h', h.executions[k].sessionId, scope);
  }

  lemma {:induction false} AcquireWorkspaceHome(h: Home, lease: WorkspaceLease, g: Guard, now: nat, scope: Scope)
    requires HomeSound(h, scope)
    ensures KeepsHome(h, AcquireWorkspace(h, lease, g, now), scope)
  {
    hide EventsNumbered, Gap, TurnsDense, CursorsBehind;
    var r := AcquireWorkspace(h, lease, g, now);
    if r.Success? {
      JournalMove(h.(workspaces := r.value.workspaces), r.value, lease.sessionId, scope);
    }
  }

  lemma {:induction false} ReleaseWorkspaceHome(h: Home, g: WorkspaceGuard, now: nat, scope: Scope)
    requires HomeSound(h, scope)
    ensures KeepsHome(h, ReleaseWorkspace(h, g, now), scope)
  {
    var r := ReleaseWorkspace(h, g, now);
    if r.Success? {
      JournalMove(h.(workspaces := r.value.workspaces), r.value, h.workspaces[g.workspaceId].sessionId, scope);
    }
  }
}
