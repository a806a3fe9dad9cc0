/**
 Specification of the effect, approval and recovery transactions.
 */
module EffectSpec {
  import opened Wrappers
  import opened StoreModel
  import opened SessionSpec

  // -------------------------------------------------------------- preparing

  /** What an insert into the effect table requires of its keys. */
  predicate Insertable(effects: map<Id, Effect>, e: Effect) {
    && e.id !in effects && !IdentityTaken(effects, e)
    && (e.retryOf.Some? ==> e.retryOf.value in effects)
  }

  predicate Known(effects: map<Id, Effect>, e: Effect) {
    e.id in effects || IdentityTaken(effects, e)
  }

  /** An effect already stored under this id or identity has this content too. */
  predicate CompatibleWith(effects: map<Id, Effect>, e: Effect) {
    if e.id in effects then IdentityCompatible(effects[e.id], e)
    else forall k :: k in effects && SameIdentity(effects[k], e) ==> effects[k].content == e.content
  }

  /** The members of the batch that the table does not know, in order. */
  function NewEffects(effects: map<Id, Effect>, batch: seq<Effect>): seq<Effect> {
    if |batch| == 0 then []
    else
      var rest := NewEffects(effects, batch[..|batch| - 1]);
      if Known(effects, batch[|batch| - 1]) then rest else rest + [batch[|batch| - 1]]
  }

  function InsertAll(effects: map<Id, Effect>, batch: seq<Effect>): Result<map<Id, Effect>, Error> {
    if |batch| == 0 then Success(effects)
    else
      var done :- InsertAll(effects, batch[..|batch| - 1]);
      var e := batch[|batch| - 1];
      :- Need(Insertable(done, e), IntegrityError);
      Success(done[e.id := e])
  }

  function EffectIds(batch: seq<Effect>): seq<Id> {
    seq(|batch|, i requires 0 <= i < |batch| => batch[i].id)
  }

  predicate BatchMatchesStep(step: StepRow, batch: seq<Effect>) {
    && step.response.Some? && step.effectIds == EffectIds(batch)
    && forall i :: 0 <= i < |batch| ==>
         batch[i].taskId == step.taskId && batch[i].stepId == step.id && batch[i].position == i
  }

  /** A stored step keeps its id, its response and its effect list. */
  predicate StepAccepts(steps: map<(Id, nat), StepRow>, step: StepRow) {
    (step.taskId, step.index) in steps ==>
      var stored := steps[(step.taskId, step.index)];
      && stored.id == step.id
      && (stored.response.None? || stored.response == step.response)
      && (stored.effectIds == [] || stored.effectIds == step.effectIds)
  }

  predicate OwnsTask(executions: map<Id, Execution>, task: Task, guard: Option<Guard>, now: nat) {
    task.sessionId.None? || (guard.Some? && guard.value.taskId == task.id && GuardLive(executions, guard.value, now))
  }

  ghost function PrepareEffectBatch(s: State, step: StepRow, batch: seq<Effect>, expected: nat,
                                    guard: Option<Guard>, now: nat): (r: Result<State, Error>)
    ensures r.Success? ==> SameLeases(s.home, r.value.home) && r.value.home.turns == s.home.turns
  {
    var matches := BatchMatchesStep(step, batch);
    :- Need(matches, InvalidValue);
    var task :- RequireTask(s.home.tasks, step.taskId);
    :- Need(OwnsTask(s.home.executions, task, guard, now), LeaseLost);
    :- Need(task.version == expected, StaleVersion);
    :- Need(StepAccepts(s.work.steps, step), IdentityConflict);
    :- Need(forall i :: 0 <= i < |batch| && Known(s.work.effects, batch[i]) ==> CompatibleWith(s.work.effects, batch[i]),
            IdentityConflict);
    var added := NewEffects(s.work.effects, batch);
    var effects :- InsertAll(s.work.effects, added);
    var home :- if added == [] then Success(s.home)
                else JournalTask(s.home, task, EventId("effects.prepared", task.id, Ids(EffectIds(added))));
    Success(State(home, s.work.(effects := effects, steps := s.work.steps[(step.taskId, step.index) := step])))
  }

  // -------------------------------------------------------------- approvals

  /** `Approval.same_request`: the identical request, still undecided on both sides. */
  predicate SameRequest(a: Approval, b: Approval) {
    && a.id == b.id && a.effectId == b.effectId && a.fingerprint == b.fingerprint && a.arguments == b.arguments
    && a.workspaceRef == b.workspaceRef && a.policyVersion == b.policyVersion
    && a.configVersion == b.configVersion && a.summary == b.summary && a.status.Pending? && b.status.Pending?
  }

  function JournalApproval(h: Home, effects: map<Id, Effect>, a: Approval, kind: string): (r: Result<Home, Error>)
    ensures r.Success? ==> SameLeases(h, r.value) && r.value.turns == h.turns
  {
    var e :- RequireEffect(effects, a.effectId);
    var task :- RequireTask(h.tasks, e.taskId);
    JournalTask(h, task, EventId(kind, a.id, Number(a.version)))
  }

  /** Execution and task stop for the approval. */
  function Yield(h: Home, x: Execution, task: Task): Home {
    h.(executions := h.executions[x.id := x.(status := ExecutionWaiting, version := x.version + 1)],
       tasks := h.tasks[task.id := task.(condition := WaitingForApproval, version := task.version + 1)])
  }

  ghost function RequestEffectApproval(s: State, effectId: Id, a: Approval, expected: nat, g: Guard, now: nat)
    : (r: Result<State, Error>)
    ensures r.Success? ==> r.value.home.turns == s.home.turns
  {
    var live := GuardLive(s.home.executions, g, now);
    :- Need(live, LeaseLost);
    var x := s.home.executions[g.executionId];
    var e :- RequireEffect(s.work.effects, effectId);
    :- Need(e.taskId == x.taskId, LeaseLost);
    :- Need(e.version == expected, StaleVersion);
    :- Need(a.effectId == effectId, InvalidValue);
    if e.status.EffectWaiting? then
      :- Need(e.approvalId.Some? && e.approvalId.value in s.work.approvals
              && SameRequest(s.work.approvals[e.approvalId.value], a), ApprovalConflict);
      var task :- RequireTask(s.home.tasks, e.taskId);
      Success(State(Yield(s.home, x, task), s.work))
    else
      :- Need(e.status.Prepared?, InvalidValue);
      :- Need(a.status.Pending?, InvalidValue);
      :- Need(a.id !in s.work.approvals && !ApprovalExistsFor(s.work.approvals, effectId), ApprovalConflict);
      var task :- RequireTask(s.home.tasks, e.taskId);
      :- Need(task.condition.Running?, InvalidValue);
      var waiting := e.(status := EffectWaiting, approvalId := Some(a.id), version := e.version + 1);
      var work := s.work.(effects := s.work.effects[effectId := waiting], approvals := s.work.approvals[a.id := a]);
      var home :- JournalApproval(Yield(s.home, x, task), work.effects, a, "approval.requested");
      Success(State(home, work))
  }

  function Decided(a: Approval, status: ApprovalStatus, source: string): Approval {
    a.(status := status, source := Some(source), version := a.version + 1)
  }

  /** A waiting task goes back to idle once its request is closed. */
  function Unblocked(t: Task): Task {
    if t.condition.WaitingForApproval? then t.(condition := Idle, version := t.version + 1) else t
  }

  /** What a decision makes of the approval: expired when the conditions it was bound to changed. */
  function Verdict(a: Approval, matched: bool, approved: bool, source: string): Approval {
    Decided(a, if !matched then Expired else if approved then Approved else ApprovalDenied, source)
  }

  /** What it makes of the effect that waits on the approval. */
  function Resumed(e: Effect, matched: bool, approved: bool): Effect {
    if !matched then e.(status := Prepared, approvalId := None, version := e.version + 1)
    else e.(status := if approved then Prepared else Denied, version := e.version + 1)
  }

  /** The conditions the approval was requested under are the ones given and the ones in force. */
  predicate InForce(sessions: map<Id, Session>, task: Task, e: Effect, a: Approval,
                    workspaceRef: string, policyVersion: string, configVersion: string)
  {
    && workspaceRef == task.repository
    && (task.sessionId.Some? && task.sessionId.value in sessions ==> configVersion == sessions[task.sessionId.value].configVersion)
    && Binds(a, e, workspaceRef, policyVersion, configVersion)
  }

  ghost function ResolveEffectApproval(s: State, approvalId: Id, approved: bool, source: string, expected: nat,
                                       workspaceRef: string, policyVersion: string, configVersion: string)
    : (r: Result<State, Error>)
    ensures r.Success? ==> SameLeases(s.home, r.value.home) && r.value.home.turns == s.home.turns
  {
    var known := approvalId in s.work.approvals;
    :- Need(known, NotFound);
    var a := s.work.approvals[approvalId];
    var e :- RequireEffect(s.work.effects, a.effectId);
    var task :- RequireTask(s.home.tasks, e.taskId);
    if !a.status.Pending? then
      :- Need(a.source == Some(source)
              && (if approved then a.status.Approved? || a.status.Consumed? else a.status.ApprovalDenied?), ApprovalConflict);
      Success(s)
    else
      :- Need(a.version == expected, StaleVersion);
      :- Need(task.sessionId.None? || task.sessionId.value in s.home.sessions, NotFound);
      var matched := InForce(s.home.sessions, task, e, a, workspaceRef, policyVersion, configVersion);
      var decided := Verdict(a, matched, approved, source);
      var work := s.work.(approvals := s.work.approvals[approvalId := decided],
                          effects := s.work.effects[e.id := Resumed(e, matched, approved)]);
      var home :- JournalApproval(s.home.(tasks := s.home.tasks[task.id := Unblocked(task)]), work.effects, decided,
                                  if matched then "approval.decided" else "approval.expired");
      Success(State(home, work))
  }

  ghost function DecideApproval(s: State, a: Approval, expected: Option<nat>): (r: Result<State, Error>)
    ensures r.Success? ==> SameLeases(s.home, r.value.home) && r.value.home.turns == s.home.turns
  {
    var e :- RequireEffect(s.work.effects, a.effectId);
    var work := s.work.(approvals := s.work.approvals[a.id := a]);
    if !ApprovalExistsFor(s.work.approvals, a.effectId) then
      :- Need(a.id !in s.work.approvals, IntegrityError);
      var home :- JournalApproval(s.home, s.work.effects, a, "approval.requested");
      Success(State(home, work))
    else
      :- Need(a.id in s.work.approvals && s.work.approvals[a.id].effectId == a.effectId, ApprovalConflict);
      var existing := s.work.approvals[a.id];
      if existing == a then Success(s)
      else
        :- Need(VersionMatches(existing.version, expected), StaleVersion);
        :- Need(existing.status.Pending? && (a.status.Approved? || a.status.ApprovalDenied? || a.status.Expired?),
                ApprovalConflict);
        :- Need(a.version == existing.version + 1, StaleVersion);
        var home :- JournalApproval(s.home, s.work.effects, a, "approval.decided");
        Success(State(home, work))
  }

  // ----------------------------------------------------- claiming, finishing

  datatype ClaimTerms = ClaimTerms(fingerprint: Option<Content>, workspaceRef: Option<string>,
                                   policyVersion: Option<string>, configVersion: Option<string>,
                                   decision: Option<Decision>, inputSequence: Option<nat>)

  function ActualConfig(sessions: map<Id, Session>, task: Task, terms: ClaimTerms): string
    requires task.sessionId.Some? ==> task.sessionId.value in sessions
  {
    Given(if task.sessionId.None? then terms.configVersion else Some(sessions[task.sessionId.value].configVersion), "1")
  }

  /** The approval that a claim consumes, already marked, or the refusal. */
  function ApprovalToConsume(approvals: map<Id, Approval>, e: Effect, task: Task, config: string, terms: ClaimTerms)
    : Result<Option<Approval>, Error>
  {
    if e.approvalId.Some? then
      :- Need(e.approvalId.value in approvals, ApprovalConflict);
      var a := approvals[e.approvalId.value];
      :- Need(a.status.Approved?, ApprovalConflict);
      :- Need(Binds(a, e, Given(terms.workspaceRef, task.repository), Given(terms.policyVersion, a.policyVersion),
                    Given(terms.configVersion, config)), ApprovalConflict);
      Success(Some(a.(status := Consumed, version := a.version + 1)))
    else if e.content.decision.RequireApproval? then Failure(ApprovalConflict)
    else Success(None)
  }

  /** Every condition on a claim other than the approval. */
  ghost function ClaimAllowed(s: State, effectId: Id, expected: nat, g: Guard, terms: ClaimTerms, now: nat)
    : Result<(Effect, Task), Error>
  {
    var live := GuardLive(s.home.executions, g, now);
    :- Need(live, LeaseLost);
    var e :- RequireEffect(s.work.effects, effectId);
    :- Need(e.version == expected, StaleVersion);
    :- Need(e.status.Prepared?, LeaseConflict);
    var task :- RequireTask(s.home.tasks, e.taskId);
    :- Need(!ControlPending(s.home.controls, task.id), ControlIsRequested);
    :- Need(terms.inputSequence.None? || task.sessionId.None?
            || MaxTurn(s.home.turns, task.sessionId.value) == terms.inputSequence.value, InputRevisionConflict);
    :- Need(task.sessionId.None? || task.sessionId.value in s.home.sessions, NotFound);
    var config := ActualConfig(s.home.sessions, task, terms);
    :- Need(terms.fingerprint.None? || terms.fingerprint.value == e.content, IdentityConflict);
    :- Need(terms.workspaceRef.None? || terms.workspaceRef.value == task.repository, LeaseConflict);
    :- Need(terms.configVersion.None? || terms.configVersion.value == config, LeaseConflict);
    :- Need(e.content.preparationError.None? && !e.content.decision.Deny?, InvalidValue);
    :- Need(terms.decision.None? || terms.decision.value == e.content.decision, InvalidValue);
    Success((e, task))
  }

  function Started(e: Effect, approvalConsumed: bool): Effect {
    e.(status := Executing, approvalId := None, approvalConsumed := approvalConsumed, version := e.version + 1)
  }

  ghost function ClaimEffect(s: State, effectId: Id, expected: nat, g: Guard, terms: ClaimTerms, now: nat)
    : (r: Result<State, Error>)
    ensures r.Success? ==> SameLeases(s.home, r.value.home) && r.value.home.turns == s.home.turns
  {
    var (e, task) :- ClaimAllowed(s, effectId, expected, g, terms, now);
    :- Need(task.sessionId.None? || task.sessionId.value in s.home.sessions, NotFound);
    var consumed :- ApprovalToConsume(s.work.approvals, e, task, ActualConfig(s.home.sessions, task, terms), terms);
    var claimed := Started(e, consumed.Some?);
    var work := s.work.(effects := s.work.effects[effectId := claimed],
                        approvals := if consumed.Some? then s.work.approvals[consumed.value.id := consumed.value]
                                     else s.work.approvals);
    var noted :- if consumed.Some? then JournalApproval(s.home, work.effects, consumed.value, "approval.consumed")
                 else Success(s.home);
    var home :- JournalTask(noted, task, EventId("effect.claimed", effectId, Number(claimed.version)));
    Success(State(home, work))
  }

  /** A call already observed with other content refuses; the first observation stays. */
  function Observe(observations: map<(Id, Id), Observation>, taskId: Id, o: Observation): Result<map<(Id, Id), Observation>, Error> {
    if (taskId, o.call.id) in observations then
      :- Need(observations[(taskId, o.call.id)] == o, InvalidValue);
      Success(observations)
    else Success(observations[(taskId, o.call.id) := o])
  }

  ghost function CommitEffect(s: State, effect: Effect, expected: nat, call: Option<ToolCall>, result: Option<ToolResult>,
                              g: Guard, now: nat): (r: Result<State, Error>)
    ensures r.Success? ==> SameLeases(s.home, r.value.home) && r.value.home.turns == s.home.turns
  {
    var live := GuardLive(s.home.executions, g, now);
    :- Need(live, LeaseLost);
    var current :- RequireEffect(s.work.effects, effect.id);
    :- Need(current.version == expected, StaleVersion);
    :- Need(IdentityCompatible(current, effect), IdentityConflict);
    :- Need(current.status.Executing?, InvalidValue);
    :- Need(effect.status.Succeeded? || effect.status.EffectFailed? || effect.status.Unknown?, InvalidValue);
    :- Need(call.Some? == result.Some?, InvalidValue);
    :- Need(call.Some? ==> call.value.id == current.callId && result.value.callId == call.value.id, InvalidValue);
    var observations :- if call.None? then Success(s.work.observations)
                        else Observe(s.work.observations, effect.taskId, Observation(call.value, result.value));
    var committed := effect.(version := current.version + 1);
    var task :- RequireTask(s.home.tasks, committed.taskId);
    :- Need(task.sessionId.Some?, InvalidValue);
    var home :- JournalTask(s.home, task, EventId("effect.committed", committed.id, Number(committed.version)));
    Success(State(AdvanceCursor(home, task, Some(committed.id)),
                  s.work.(effects := s.work.effects[effect.id := committed], observations := observations)))
  }

  ghost function MarkEffectUnknown(s: State, effectId: Id, expected: nat, g: Guard, now: nat): (r: Result<State, Error>)
    ensures r.Success? ==> SameLeases(s.home, r.value.home) && r.value.home.turns == s.home.turns
  {
    var live := GuardLive(s.home.executions, g, now);
    :- Need(live, LeaseLost);
    var e :- RequireEffect(s.work.effects, effectId);
    :- Need(e.taskId == s.home.executions[g.executionId].taskId, LeaseLost);
    :- Need(e.version == expected, StaleVersion);
    :- Need(e.status.Executing? || e.status.Unknown?, InvalidValue);
    var unknown := if e.status.Executing? then e.(status := Unknown, version := e.version + 1) else e;
    var task :- RequireTask(s.home.tasks, e.taskId);
    var stopped := if task.condition.RecoveryRequired? then task
                   else task.(condition := RecoveryRequired, version := task.version + 1);
    var home :- JournalTask(s.home.(tasks := s.home.tasks[task.id := stopped]), task,
                            EventId("effect.recovery_required", unknown.id, Number(unknown.version)));
    Success(State(AdvanceCursor(home, task, Some(effectId)), s.work.(effects := s.work.effects[effectId := unknown])))
  }

  /** A settled effect closes the undecided approval it names. */
  function CloseRequest(approvals: map<Id, Approval>, e: Effect): map<Id, Approval> {
    if e.approvalId.Some? && e.approvalId.value in approvals && approvals[e.approvalId.value].status.Pending?
    then approvals[e.approvalId.value := Decided(approvals[e.approvalId.value], Expired, "effect_settled")]
    else approvals
  }

  ghost function SettleUnexecutedEffect(s: State, effectId: Id, status: EffectStatus, expected: nat, call: ToolCall,
                                        result: ToolResult, g: Guard, now: nat): (r: Result<State, Error>)
    ensures r.Success? ==> SameLeases(s.home, r.value.home) && r.value.home.turns == s.home.turns
  {
    var closing := status.Denied? || status.EffectCancelled?;
    :- Need(closing, InvalidValue);
    :- Need(GuardLive(s.home.executions, g, now), LeaseLost);
    var e :- RequireEffect(s.work.effects, effectId);
    :- Need(e.taskId == s.home.executions[g.executionId].taskId, LeaseLost);
    :- Need(e.version == expected, StaleVersion);
    :- Need(e.status.Prepared? || e.status.EffectWaiting? || e.status == status, InvalidValue);
    :- Need(call.id == e.callId && result.callId == call.id, InvalidValue);
    var o := Observation(call, result);
    if (e.taskId, call.id) in s.work.observations then
      :- Need(s.work.observations[(e.taskId, call.id)] == o && e.status == status, InvalidValue);
      Success(s)
    else
      var task :- RequireTask(s.home.tasks, e.taskId);
      var settled := e.(status := status, version := e.version + 1);
      var home :- JournalTask(s.home, task, EventId("effect.settled", settled.id, Number(settled.version)));
      Success(State(AdvanceCursor(home, task, Some(effectId)),
                    s.work.(effects := s.work.effects[effectId := settled],
                            approvals := CloseRequest(s.work.approvals, e),
                            observations := s.work.observations[(e.taskId, call.id) := o])))
  }

  // --------------------------------------------------------------- recovery

  datatype Remedy = Remedy(call: Option<ToolCall>, result: Option<ToolResult>, retry: Option<Effect>, approval: Option<Approval>)

  /** The confirmed observation is of the very call the effect prepared. */
  predicate Confirms(e: Effect, call: ToolCall, result: ToolResult) {
    && call.id == e.callId && call.name == e.content.tool && call.arguments == e.content.arguments
    && result.callId == call.id && result.toolName == call.name
  }

  /** A new effect that repeats the unknown one exactly and must be approved first. */
  predicate RetriesExactly(task: Task, unknown: Effect, d: Disposition, retry: Effect, a: Approval) {
    && d.retryEffectId == Some(retry.id) && retry.id != unknown.id && retry.taskId == task.id
    && retry.retryOf == Some(unknown.id) && retry.status.Prepared? && retry.content.preparationError.None?
    && retry.content.tool == unknown.content.tool && retry.content.arguments == unknown.content.arguments
    && retry.content.decision.RequireApproval? && retry.content.approvalRequired
    && a.effectId == retry.id && a.status.Pending? && a.fingerprint == retry.content
    && a.arguments == retry.content.arguments && a.workspaceRef == task.repository
  }

  /** `validate_recovery_resolution`: the condition the task leaves recovery with. */
  function ValidateResolution(task: Task, unknown: Effect, d: Disposition, r: Remedy): Result<Condition, Error> {
    var evident := d.evidence != "";
    :- Need(evident, InvalidValue);
    var confirmation := r.call.Some? || r.result.Some?;
    var retrying := r.retry.Some? || r.approval.Some?;
    match d.kind
    case ConfirmResult =>
      :- Need(r.call.Some? && r.result.Some? && !retrying, InvalidValue);
      :- Need(Confirms(unknown, r.call.value, r.result.value), InvalidValue);
      Success(if task.outcome.Active? then Idle else Ended)
    case CreateRetry =>
      :- Need(d.riskAcknowledged, InvalidValue);
      :- Need(task.outcome.Active?, InvalidValue);
      :- Need(r.retry.Some? && r.approval.Some? && !confirmation, InvalidValue);
      :- Need(RetriesExactly(task, unknown, d, r.retry.value, r.approval.value), InvalidValue);
      Success(WaitingForApproval)
    case Abandon =>
      :- Need(!confirmation && !retrying && d.retryEffectId.None?, InvalidValue);
      Success(Ended)
  }

  /** What the disposition writes besides itself, the task and the journal. */
  function ApplyRemedy(w: Work, task: Task, unknown: Effect, r: Remedy): Result<Work, Error> {
    if r.call.Some? && r.result.Some? then
      var observations :- Observe(w.observations, task.id, Observation(r.call.value, r.result.value));
      var status := if r.result.value.success then Succeeded else EffectFailed;
      Success(w.(observations := observations,
                 effects := w.effects[unknown.id := unknown.(status := status, version := unknown.version + 1)]))
    else if r.retry.Some? && r.approval.Some? then
      var retry, a := r.retry.value, r.approval.value;
      :- Need(!Known(w.effects, retry), IdentityConflict);
      :- Need(a.id !in w.approvals && !ApprovalExistsFor(w.approvals, retry.id), ApprovalConflict);
      :- Need((task.id, unknown.callId) !in w.observations, IntegrityError);
      var placeholder := Observation(ToolCall(unknown.callId, unknown.content.tool, unknown.content.arguments),
                                     ToolResult(unknown.callId, unknown.content.tool, false, "unknown; execute the explicit retry"));
      Success(w.(effects := w.effects[retry.id := retry.(status := EffectWaiting, approvalId := Some(a.id))],
                 approvals := w.approvals[a.id := a],
                 observations := w.observations[(task.id, unknown.callId) := placeholder]))
    else Success(w)
  }

  predicate Disposed(dispositions: map<Id, Disposition>, d: Disposition) {
    exists k :: k in dispositions && (k == d.id || dispositions[k].unknownEffectId == d.unknownEffectId)
  }

  function KindName(k: DispositionKind): string {
    match k
    case ConfirmResult => "confirm_result"
    case CreateRetry => "create_retry"
    case Abandon => "abandon"
  }

  /** The task leaves recovery; an abandoned one ends and its session lets it go. */
  ghost function LeaveRecovery(h: Home, task: Task, d: Disposition, target: Condition): (r: Result<Home, Error>)
    ensures r.Success? ==> SameLeases(h, r.value) && r.value.turns == h.turns
  {
    var updated := task.(condition := target, version := task.version + 1,
                         outcome := if d.kind.Abandon? then Cancelled else task.outcome);
    var written := h.(tasks := h.tasks[task.id := updated]);
    if task.sessionId.None? then Success(written)
    else
      var session :- RequireSession(h.sessions, task.sessionId.value);
      var owner := if d.kind.Abandon? then Deactivate(session, task.id) else session;
      var told :- Journal(written, owner, EventId("recovery.resolved", d.id, Text(KindName(d.kind))), Some(task.id), "");
      Success(AdvanceCursor(told, task, None))
  }

  ghost function ResolveRecovery(s: State, d: Disposition, taskId: Id, expected: nat, remedy: Remedy): (r: Result<State, Error>)
    ensures r.Success? ==> SameLeases(s.home, r.value.home) && r.value.home.turns == s.home.turns
  {
    var task :- RequireTask(s.home.tasks, taskId);
    if Disposed(s.work.dispositions, d) then
      :- Need(d.id in s.work.dispositions && s.work.dispositions[d.id] == d, RecoveryIsRequired);
      Success(s)
    else
      :- Need(task.version == expected, StaleVersion);
      :- Need(task.condition.RecoveryRequired?, RecoveryIsRequired);
      var unknown :- RequireEffect(s.work.effects, d.unknownEffectId);
      :- Need(unknown.taskId == taskId && unknown.status.Unknown?, RecoveryIsRequired);
      var target :- ValidateResolution(task, unknown, d, remedy);
      var mended :- ApplyRemedy(s.work, task, unknown, remedy);
      :- Need(d.retryEffectId.Some? ==> d.retryEffectId.value in mended.effects, IntegrityError);
      var home :- LeaveRecovery(s.home, task, d, target);
      Success(State(home, mended.(dispositions := s.work.dispositions[d.id := d])))
  }
}
