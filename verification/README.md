# PatchLoop runtime: verified model

PatchLoop runs coding agents against a SQLite store that several processes share. This
project models the parts of it whose correctness depends on more than one function, and
proves what they promise.

* **The store** (`StoreModel`, `SessionSpec`, `LeaseSpec`, `EffectSpec`). Each store method
  is one write transaction that commits or rolls back. The specification functions map
  the tables before a call to the tables after it or to the error. `StoreRuns` lets any
  number of processes interleave them; the `*Proofs` and `*Moves` modules show that each
  keeps the invariants of `StoreInvariants`; `EffectHistory`, `LeaseHistory`,
  `StoreTheorems` and `StoreGuarantees` draw the consequences for whole runs, and
  `StoreLimits` gives the exact conditions where a promise depends on the caller. The
  `*Outcomes` modules say of the stored rows alone what each transaction leaves behind and
  when the central ones go through, and `StoreOutcomes` what this means in later states.
  `SqliteStore` is the store as an object, its methods proved against the specification and
  to keep the invariants.
* **The runtime loop** (`RuntimeModel`, `RuntimeProofs`): the checkpointed run of a task as
  a machine with durable and volatile state, one action per durable write, and crash and
  resume anywhere.
* **The context engine** (`ContextText`, `ContextSelect`, `ContextEngine`): truncation,
  token estimates, grouping, greedy selection, shrinking memory, assembly under budget.
* **The event exporter** (`JsonLines`, `Exporter`): a JSONL file that may be torn at any byte.
* **Secret-safe tool arguments** (`JsonPointer`, `SecretArguments`, `SecretRoundTrip`,
  `SecretSecrecy`).
* **The prefix-cache simulator** (`CacheSimulator`).

Check everything with `dafny verify dfyconfig.toml`.

## Findings

The model follows the code. Where a promise does not hold without help from callers, the
exact condition is proved in `StoreLimits` and a run from the empty store in `StoreExamples`
shows the failure:

* `decide_approval` may insert an approval for an effect that has none. If it inserts a PENDING
  one behind a started effect, approving it resets the effect to PREPARED and it can start again
  (`StoreExamples.OpenedBehindStartsTwice`); if it inserts a CONSUMED one, a gated effect looks
  paid for without having run (`StoreExamples.OpenedConsumedNeverRan`). The run theorems about
  effects assume that a call that goes through decides a stored request, or opens one that is not
  consumed and, if undecided, is the one its effect waits on (`StoreRuns.Deciding`);
  `StoreLimits.DecideKeepsWorkIff` shows that this is the exact condition. Nothing in the runtime
  or the services opens a request with it.
* A session may be created with an event counter above zero or with an active task. Its events
  are then not numbered from one for ever (`StoreTheorems.LogsAreDense`), or its active task is
  not its own (`StoreLimits.CreateSessionSettledIff`).
* An unbound task that is already ended can be prepared and claimed; its row then fails its
  own validation on every later read (`StoreLimits.PreparedIsLiveIff`,
  `StoreLimits.ClaimedEndedIsUnreadable`). Only `StoreTheorems.AcquiredTaskIsLive` assumes that
  this does not happen.
* Abandoning recovery overwrites a terminal outcome with CANCELLED, although task updates
  treat a terminal outcome as immutable (`StoreLimits.OutcomeKeptIff`).
* Journal ids are derived from entity and version, so an effect that was reported unknown cannot be
  reported again (`StoreLimits.ReportUnknownIff`, `StoreLimits.ReportedOnce`), although the code has
  a branch for it: a resume that meets such an effect ends with an integrity error. An effect that
  became UNKNOWN when its result was committed can be reported once.
* The store moves effects along edges that the transition table of the effect record does
  not list (PREPARED to CANCELLED, UNKNOWN to SUCCEEDED or FAILED); the model follows the store.
* A JSONL record may hold U+0085, U+2028 or U+2029 unescaped. `splitlines` breaks there, and
  every later export of the file raises; `Exporter.Export` states exactly when.

## Model

| member | source | states |
|---|---|---|
| `StoreTheorems.EffectsRunAtMostOnce` | src/patchloop/persistence.py:2089-2690 | in every run, with any takeovers and failures, an effect comes to EXECUTING at most once, whether it was claimed or stored so |
| `StoreTheorems.GatedEffectsArePaid` | src/patchloop/persistence.py:2373-2402 | an effect whose policy decision is require_approval has run if and only if an approval of it is CONSUMED |
| `StoreTheorems.RetriesAreBudgeted` | src/patchloop/persistence.py:2840-3047 | an effect, its retries and their retries start at most once plus once per CREATE_RETRY disposition among them |
| `StoreTheorems.UnknownDecidedOnce` | src/patchloop/persistence.py:2862-2876 | an UNKNOWN effect gets one disposition for ever, of whatever kind, and never starts again; a retried or abandoned one stays UNKNOWN |
| `StoreTheorems.LogsAreDense` | src/patchloop/persistence.py:3703-3728 | in every run turns of a session are numbered exactly 1..n (so MAX agrees with the count), events without holes up to event_sequence, and no checkpoint cursor passes its log; events are numbered exactly 1..event_sequence if and only if the session was not created with a counter above zero |
| `StoreTheorems.ResubmissionChangesNothing` | src/patchloop/persistence.py:1120-1140 | sending an accepted client submission again at any later time and version succeeds and changes nothing |
| `StoreTheorems.LoggedIsReplayed` | src/patchloop/persistence.py:1126-1135 | a stored submission id is replayed if and only if role, content and task agree, otherwise refused with a submission conflict |
| `StoreTheorems.SubmissionsRun` | src/patchloop/persistence.py:1120-1182 | a session never holds two turns of one submission id, and the turn log only grows |
| `StoreTheorems.AcquiredTaskIsLive` | src/patchloop/persistence.py:1230-1274 | given that unbound tasks are active when bound, preparing a task and claiming it at the returned version owns only an active task outside recovery, whatever is written in between |
| `LeaseHistory.OldGuardFenced` | src/patchloop/persistence.py:3468-3496 | after a claim on the task succeeds, every later transaction that presents a guard of an earlier execution fails and changes nothing, at any clock value |
| `LeaseHistory.OneOwner` | src/patchloop/persistence.py:1346-1453 | two active executions at any time differ in session and in task |
| `LeaseHistory.TokensNeverReused` | src/patchloop/persistence.py:1406-1416 | rows stored at any two times with the same lease token, or the same generation of a task, are one row |
| `LeaseHistory.InactiveForGood` | src/patchloop/persistence.py:3447-3466 | an execution that is no longer active never becomes active again |
| `LeaseHistory.ClaimRaisesGeneration` | src/patchloop/persistence.py:1412-1424 | a claim hands out a live guard with a generation above every earlier one of the task, all of whose executions are inactive afterwards |
| `LeaseHistory.AcquireIssuesNext` | src/patchloop/persistence.py:1514-1613 | acquiring a workspace needs that no guard of it validates, raises the generation by one and touches no other workspace |
| `LeaseHistory.OneWriter` | src/patchloop/persistence.py:3527-3548 | two guards that validate on a workspace are the same guard |
| `LeaseHistory.WorkspaceStep` | src/patchloop/persistence.py:1514-1671 | every transaction keeps a workspace row, extends or ends a running lease, or replaces an expired one by the next generation with a new token |
| `LeaseHistory.DeadWriterForGood` | src/patchloop/persistence.py:1673-1677 | under a clock that does not run backwards a released, expired or superseded workspace guard never validates again |
| `StoreGuarantees.LiveOwnerUndisturbed` | src/patchloop/persistence.py:1361-1405 | while a lease runs no transaction other than its own release or a recovery mark makes its guard fail |
| `StoreGuarantees.OneWinnerPerVersion` | src/patchloop/persistence.py:1296-1344 | of all updates of a task that expect one version at most one in a run succeeds |
| `StoreGuarantees.ClosedApprovalNeverRuns` | src/patchloop/persistence.py:2217-2283 | a gated effect whose approval was denied or expired never starts |
| `StoreGuarantees.ResolutionDecidesClaim` | src/patchloop/persistence.py:2179-2283 | an approval under matching conditions can be consumed under them; any other resolution refuses a gated effect |
| `StoreGuarantees.ResultIsReplayable` | src/patchloop/persistence.py:2415-2518 | a committed tool result is what every later look-up of that call finds |
| `StoreGuarantees.PreparingAgainAddsNothing` | src/patchloop/persistence.py:1943-2023 | preparing a batch keeps stored effects, stores the step, and leaves nothing for a second preparation to add |
| `StoreGuarantees.RecoveryDecidedForGood` | src/patchloop/persistence.py:2862-2876 | repeating a disposition changes nothing and no second disposition of its effect is accepted |
| `StoreLimits.DecideKeepsWorkIff` | src/patchloop/persistence.py:2043-2087 | decide_approval keeps the effect-side invariants and histories exactly when it decides a stored request, or opens one that is not consumed and, if undecided, is the one its effect waits on |
| `StoreLimits.OpenedBehindResets` | src/patchloop/persistence.py:2179-2283 | approving a request opened behind a started effect puts the effect back to PREPARED |
| `StoreExamples.OpenedBehindStartsTwice` | src/patchloop/persistence.py:2043-2087 | a seven-step run, with decide_approval opening a request behind a started effect, starts it twice |
| `StoreLimits.PreparedIsLiveIff` | src/patchloop/persistence.py:1230-1274 | preparing leaves an active task unless an unbound task was handed in already ended |
| `StoreLimits.ClaimedEndedIsUnreadable` | src/patchloop/persistence.py:1380-1432 | a claimed task can no longer be read exactly when its outcome was already terminal |
| `StoreLimits.OutcomeKeptIff` | src/patchloop/persistence.py:3006-3018 | a disposition keeps the task's outcome unless it abandons one that is not cancelled already |
| `StoreLimits.ReportedOnce` | src/patchloop/persistence.py:2520-2579 | after a successful report every later report of that effect in the run fails |
| `StoreLimits.CreateSessionSettledIff` | src/patchloop/persistence.py:1065-1078 | creating a session keeps events numbered from one and active tasks bound to their session exactly when it arrives with counter zero and no active task |
| `StoreExamples.OpenedConsumedNeverRan` | src/patchloop/persistence.py:2043-2087 | a four-step run, with decide_approval opening a consumed approval, leaves a gated effect that looks paid for and never ran |
| `StoreExamples.ArrivesAhead` | src/patchloop/persistence.py:1065-1078 | a session created with counter 5 has one event and counter 6 |
| `StoreExamples.ArrivesWithForeignTask` | src/patchloop/persistence.py:1065-1078 | a session can be created with an active task that has ended and is not bound to it |
| `StoreExamples.EndedTaskIsClaimed` | src/patchloop/persistence.py:1230-1274 | a completed task handed in unbound is prepared and claimed and can then not be read any more |
| `StoreExamples.CompletedTaskIsCancelled` | src/patchloop/persistence.py:3006-3018 | a run completes a task in recovery and then cancels it by abandoning its unknown effect |
| `StoreLimits.ReportUnknownIff` | src/patchloop/persistence.py:2520-2579 | the owner of an effect that is already UNKNOWN can report it if and only if this version of it was not reported before |
| `StoreRuns.WorkStep` | src/patchloop/sqlite_support.py:92-110 | every transaction, committed or rolled back, keeps: at most one approval per effect, PENDING approvals backed by a waiting effect, sound dispositions; and only legal status edges happen |
| `StoreRuns.LeaseInvariantStep` | src/patchloop/sqlite_support.py:92-110 | every transaction keeps ownership exclusive and revives no execution |
| `StoreRuns.HomeStep` | src/patchloop/sqlite_support.py:92-110 | every transaction keeps bindings, logs and cursors and raises the version of each task it writes; hosted and live active tasks too, when what it hands in allows |
| `EffectHistory.AtMostOnce` | src/patchloop/persistence.py:2306-2413 | in a history of effect tables an effect comes to EXECUTING at most once and then stays started |
| `EffectHistory.EvolvesBetween` | src/patchloop/persistence.py:2141-2145 | between any two states started effects stay started, an UNKNOWN row is kept until its result is confirmed, CONSUMED, DENIED and EXPIRED are never left, and dispositions and observations are kept |
| `EffectHistory.ConsumedMeansEntered` | src/patchloop/persistence.py:2373-2402 | behind every consumed approval is exactly one start of its effect |
| `EffectHistory.EnteredMeansConsumed` | src/patchloop/persistence.py:2373-2402 | a gated effect that started has a consumed approval of its own |
| `EffectHistory.RetriesBoundExecutions` | src/patchloop/persistence.py:2840-3047 | starts in a retry family are bounded by its CREATE_RETRY dispositions plus one |
| `EffectHistory.DisposedForGood` | src/patchloop/persistence.py:2840-3047 | a disposition is never changed or doubled and its effect never starts again; a given-up one stays UNKNOWN |
| `EffectProofs.PrepareEffectBatchWork` | src/patchloop/persistence.py:1943-2023 | preparing a batch keeps the effect-side invariants and performs only legal status edges, with every start paid for |
| `EffectProofs.RequestEffectApprovalWork` | src/patchloop/persistence.py:2089-2177 | requesting an approval keeps the effect-side invariants and performs only legal status edges, with every start paid for |
| `EffectProofs.ResolveEffectApprovalWork` | src/patchloop/persistence.py:2179-2283 | resolving an approval keeps the effect-side invariants and performs only legal status edges, with every start paid for |
| `EffectProofs.DecideApprovalWork` | src/patchloop/persistence.py:2043-2087 | deciding a stored approval, or opening one safely, keeps the effect-side invariants and performs only legal status edges, with every start paid for |
| `EffectProofs.ClaimEffectWork` | src/patchloop/persistence.py:2306-2413 | claiming an effect keeps the effect-side invariants and performs only legal status edges, with every start paid for |
| `EffectProofs.CommitEffectWork` | src/patchloop/persistence.py:2415-2518 | committing an effect keeps the effect-side invariants and performs only legal status edges, with every start paid for |
| `EffectProofs.MarkEffectUnknownWork` | src/patchloop/persistence.py:2520-2579 | marking an effect unknown keeps the effect-side invariants and performs only legal status edges, with every start paid for |
| `EffectProofs.SettleUnexecutedEffectWork` | src/patchloop/persistence.py:2581-2690 | settling an effect that did not run keeps the effect-side invariants and performs only legal status edges, with every start paid for |
| `EffectProofs.ResolveRecoveryWork` | src/patchloop/persistence.py:2840-3047 | resolving recovery keeps the effect-side invariants and performs only legal status edges, with every start paid for |
| `LeaseProofs.ClaimExecutionLeases` | src/patchloop/persistence.py:1346-1453 | claiming keeps owners exclusive and generations and tokens unique, and revives no row |
| `SessionProofs.PrepareTaskExecutionHome` | src/patchloop/persistence.py:1230-1274 | preparing a task keeps bindings, the activity of active tasks, dense logs and cursors behind their logs |
| `SessionProofs.UpdateTaskHome` | src/patchloop/persistence.py:1296-1344 | updating a task keeps bindings, the activity of active tasks, dense logs and cursors behind their logs |
| `SessionProofs.CancelTaskHome` | src/patchloop/persistence.py:960-1047 | cancelling a task keeps bindings, the activity of active tasks, dense logs and cursors behind their logs |
| `SessionProofs.AppendTurnHome` | src/patchloop/persistence.py:1120-1182 | appending a turn keeps bindings, the activity of active tasks, dense logs and cursors behind their logs |
| `SessionProofs.CommitCheckpointHome` | src/patchloop/persistence.py:3070-3106 | committing a checkpoint keeps bindings, the activity of active tasks, dense logs and cursors behind their logs |
| `LeaseProofs.ClaimExecutionHome` | src/patchloop/persistence.py:1346-1453 | claiming an execution keeps bindings, the activity of active tasks, dense logs and cursors behind their logs |
| `EffectHomeProofs.CommitEffectHome` | src/patchloop/persistence.py:2415-2518 | committing an effect keeps bindings, the activity of active tasks, dense logs and cursors behind their logs |
| `EffectHomeProofs.ResolveRecoveryHome` | src/patchloop/persistence.py:2840-3047 | resolving recovery keeps bindings, the activity of active tasks, dense logs and cursors behind their logs |
| `SqliteStore.SQLiteStore.constructor` | src/patchloop/persistence.py:764-791 | starts from empty tables, which are valid |
| `SqliteStore.SQLiteStore.ClaimExecution` | src/patchloop/persistence.py:1346-1453 | sweeps expired owners of session and task in two loops and installs the next generation, whose guard is then the only one of the task that validates; on a valid store it goes through if and only if the rows allow it; the tables end as specified, or unchanged with the same error, and a valid store stays valid |
| `SqliteStore.SQLiteStore.RenewExecution` | src/patchloop/persistence.py:1455-1470 | goes through if and only if the guard is held and the new end is in the future, which is then the end of the lease; the tables end as specified, or unchanged with the same error, and a valid store stays valid |
| `SqliteStore.SQLiteStore.ReleaseExecution` | src/patchloop/persistence.py:1472-1508 | ends the lease, after which the guard fails; the tables end as specified, or unchanged with the same error, and a valid store stays valid |
| `SqliteStore.SQLiteStore.AcquireWorkspace` | src/patchloop/persistence.py:1514-1613 | installs the next writer generation; the tables end as specified, or unchanged with the same error, and a valid store stays valid |
| `SqliteStore.SQLiteStore.RenewWorkspace` | src/patchloop/persistence.py:1615-1630 | extends a live writer lease; the tables end as specified, or unchanged with the same error, and a valid store stays valid |
| `SqliteStore.SQLiteStore.ReleaseWorkspace` | src/patchloop/persistence.py:1632-1671 | ends the writer lease, after which the guard fails; the tables end as specified, or unchanged with the same error, and a valid store stays valid |
| `SqliteStore.SQLiteStore.MarkCommandRecoveryRequired` | src/patchloop/persistence.py:1818-1860 | stops execution and task for recovery; the tables end as specified, or unchanged with the same error, and a valid store stays valid |
| `SqliteStore.SQLiteStore.CreateSession` | src/patchloop/persistence.py:1065-1078 | stores a session and journals it; the tables end as specified, or unchanged with the same error, and a valid store stays valid |
| `SqliteStore.SQLiteStore.CloseSession` | src/patchloop/persistence.py:1098-1118 | closes a session without an active task; the tables end as specified, or unchanged with the same error, and a valid store stays valid |
| `SqliteStore.SQLiteStore.AppendTurn` | src/patchloop/persistence.py:1120-1182 | replays a known submission or numbers and stores the turn, which then stands at its number in the session log; the tables end as specified, or unchanged with the same error, and a valid store stays valid |
| `SqliteStore.SQLiteStore.StartTask` | src/patchloop/persistence.py:1196-1228 | stores a task as the session's active one; the tables end as specified, or unchanged with the same error, and a valid store stays valid |
| `SqliteStore.SQLiteStore.PrepareTaskExecution` | src/patchloop/persistence.py:1230-1274 | stores a missing task and binds an unbound one; the tables end as specified, or unchanged with the same error, and a valid store stays valid |
| `SqliteStore.SQLiteStore.CreateTask` | src/patchloop/persistence.py:1276-1294 | stores a task; the tables end as specified, or unchanged with the same error, and a valid store stays valid |
| `SqliteStore.SQLiteStore.UpdateTask` | src/patchloop/persistence.py:1296-1344 | writes a task at the expected version; the tables end as specified, or unchanged with the same error, and a valid store stays valid |
| `SqliteStore.SQLiteStore.CancelTask` | src/patchloop/persistence.py:960-1047 | asks the owner to stop or ends an unowned task; the tables end as specified, or unchanged with the same error, and a valid store stays valid |
| `SqliteStore.SQLiteStore.RequestControl` | src/patchloop/persistence.py:2744-2780 | stores a control request; the tables end as specified, or unchanged with the same error, and a valid store stays valid |
| `SqliteStore.SQLiteStore.SettleControl` | src/patchloop/persistence.py:2782-2816 | moves a control request along its edges; the tables end as specified, or unchanged with the same error, and a valid store stays valid |
| `SqliteStore.SQLiteStore.AppendEvent` | src/patchloop/persistence.py:2692-2720 | replays a known event or appends it; the tables end as specified, or unchanged with the same error, and a valid store stays valid |
| `SqliteStore.SQLiteStore.CommitCheckpoint` | src/patchloop/persistence.py:3070-3106 | validates references in a loop and stores the checkpoint as given; the tables end as specified, or unchanged with the same error, and a valid store stays valid |
| `SqliteStore.SQLiteStore.PrepareEffectBatch` | src/patchloop/persistence.py:1943-2023 | sorts the batch into known and new effects and inserts the new ones; the tables end as specified, or unchanged with the same error, and a valid store stays valid |
| `SqliteStore.SQLiteStore.RequestEffectApproval` | src/patchloop/persistence.py:2089-2177 | parks effect, execution and task for an approval; the tables end as specified, or unchanged with the same error, and a valid store stays valid |
| `SqliteStore.SQLiteStore.ResolveEffectApproval` | src/patchloop/persistence.py:2179-2283 | decides a pending approval and frees its effect; the tables end as specified, or unchanged with the same error, and a valid store stays valid |
| `SqliteStore.SQLiteStore.DecideApproval` | src/patchloop/persistence.py:2043-2087 | opens or decides an approval row; the tables end as specified, or unchanged with the same error, and a valid store stays valid if it decides or opens safely |
| `SqliteStore.SQLiteStore.ClaimEffect` | src/patchloop/persistence.py:2306-2413 | on a valid store, starts the effect if and only if the rows allow it, consumes exactly its approval, and touches no other row; the tables end as specified, or unchanged with the same error, and a valid store stays valid |
| `SqliteStore.SQLiteStore.CommitEffect` | src/patchloop/persistence.py:2415-2518 | on a valid store, goes through if and only if the rows allow it; the row of the effect is then the given one, status included, at the next version, with its observation stored and every other effect and approval as before; the tables end as specified, or unchanged with the same error, and a valid store stays valid |
| `SqliteStore.SQLiteStore.MarkEffectUnknown` | src/patchloop/persistence.py:2520-2579 | marks a started effect unknown and the task for recovery; the tables end as specified, or unchanged with the same error, and a valid store stays valid |
| `SqliteStore.SQLiteStore.SettleUnexecutedEffect` | src/patchloop/persistence.py:2581-2690 | closes an effect that did not run; the tables end as specified, or unchanged with the same error, and a valid store stays valid |
| `SqliteStore.SQLiteStore.ResolveRecovery` | src/patchloop/persistence.py:2840-3047 | applies a disposition, which is then the only one of its effect; the tables end as specified, or unchanged with the same error, and a valid store stays valid |
| `SqliteStore.SessionCall` | src/patchloop/persistence.py:1065-1344 | every session, task, control and checkpoint transaction on a valid store gives a valid store |
| `SqliteStore.LeaseCall` | src/patchloop/persistence.py:1346-1677 | every ownership transaction on a valid store gives a valid store |
| `SqliteStore.EffectCall` | src/patchloop/persistence.py:1943-3047 | every effect, approval and recovery transaction on a valid store gives a valid store, decide_approval when it decides or opens safely |
| `SqliteStore.CallIsStep` | src/patchloop/sqlite_support.py:92-110 | a call that ran as specified is a step of the run relation |
| `SqliteStore.ExpireLoop` | src/patchloop/persistence.py:1374-1379 | releases all given rows unless one still runs |
| `SqliteStore.SweepsDisplace` | src/patchloop/persistence.py:1361-1405 | sweeping the session's rows and then the task's releases exactly the active rows of either |
| `SqliteStore.LatestGeneration` | src/patchloop/persistence.py:1412-1416 | the largest generation of the task's rows, or zero |
| `SqliteStore.SortBatch` | src/patchloop/persistence.py:1992-2001 | splits a batch into compatible known effects and new ones, in order |
| `SqliteStore.InsertLoop` | src/patchloop/persistence.py:2011-2012 | inserts the new effects one by one or fails on the first clash |
| `SqliteStore.LatestTurn` | src/patchloop/persistence.py:1144-1149 | the largest turn sequence of the session |
| `SqliteStore.PendingBelong` | src/patchloop/persistence.py:3229-3234 | accepts pending effects exactly when all are stored for the task |
| `StoreOutcomes.ClaimSawLatestInput` | src/patchloop/persistence.py:2306-2413 | in every run a claim that goes through found its owner current, exactly the turns it was told of in the session's log, no pause or cancellation asked for, and an approval, if any, of exactly this content, workspace, policy and configuration |
| `StoreOutcomes.CommittedIsShown` | src/patchloop/persistence.py:2466-2474 | after a commit the effect has the committed status, its old content and the next version, with every other effect and approval unchanged; every later state of the run shows a committed SUCCEEDED or FAILED, and a committed UNKNOWN row until it is confirmed |
| `StoreOutcomes.UnknownUntilConfirmed` | src/patchloop/persistence.py:2840-3047 | no transaction but a confirming recovery decision changes an UNKNOWN effect |
| `StoreOutcomes.ConfirmedIsClosed` | src/patchloop/persistence.py:2840-3047 | in every run an effect with a confirming disposition has succeeded or failed |
| `StoreOutcomes.UnknownIffUnconfirmed` | src/patchloop/persistence.py:2840-3047 | an effect that was UNKNOWN once is still UNKNOWN if and only if nothing confirmed it |
| `StoreOutcomes.OneWriterPerVersion` | src/patchloop/persistence.py:3185-3188 | of all claims, commits, marks, settlements and requests that expect one version of an effect at most one in a run writes it |
| `EffectOutcomes.ClaimEffectIff` | src/patchloop/persistence.py:2306-2413 | a claim goes through if and only if the guard's row is held, the effect is PREPARED at the expected version, no control is open, the session has as many turns as the caller says, content, workspace, configuration and decision are as the caller says, an approval of exactly this is APPROVED or none is needed, and the journal ids are new; then the effect is EXECUTING, its approval CONSUMED, both journaled, and nothing else changed |
| `EffectOutcomes.CommitEffectIff` | src/patchloop/persistence.py:2415-2518 | a commit goes through if and only if the guard's row is held, the effect is EXECUTING at the expected version with the same identity and content, its result belongs to its call and contradicts no stored one, and the journal id is new; then exactly the given result is stored |
| `EffectOutcomes.MarkEffectUnknownOutcome` | src/patchloop/persistence.py:2520-2579 | the effect is UNKNOWN, one version on if it was running, its task waits for recovery, the checkpoint no longer waits for it, and nothing else changed |
| `EffectOutcomes.SettleUnexecutedEffectOutcome` | src/patchloop/persistence.py:2581-2690 | an effect that never ran is closed with the given status, its open request expired and its answer stored, or it was so already and nothing changed |
| `DecisionOutcomes.PrepareEffectBatchOutcome` | src/patchloop/persistence.py:1943-2023 | the batch is the step's effects in order, the step is stored without contradicting an earlier answer, and the caller owned the task at the expected version |
| `DecisionOutcomes.PreparedEffects` | src/patchloop/persistence.py:1992-2012 | each member of the batch is stored as given or was known with the same content; no stored effect changes and nothing else is added |
| `DecisionOutcomes.RequestEffectApprovalOutcome` | src/patchloop/persistence.py:2089-2177 | effect, execution and task wait on a new open request, or on one that asked for exactly the same |
| `DecisionOutcomes.ResolveEffectApprovalOutcome` | src/patchloop/persistence.py:2179-2283 | APPROVED frees the effect, DENIED closes it, and conditions that changed since the request make it EXPIRED and take it off the effect; the task stops waiting; a repeated decision changes nothing |
| `DecisionOutcomes.DecideApprovalOutcome` | src/patchloop/persistence.py:2043-2087 | the row is stored as given, as the first of its effect or the next version of an open one, and nothing else changed |
| `DecisionOutcomes.ConfirmOutcome` | src/patchloop/execution/recovery.py:269-348 | a confirmation gives the effect the success or failure of a result of its own call, stores it, and lets the task go on or stay ended |
| `DecisionOutcomes.RetryOutcome` | src/patchloop/execution/recovery.py:269-348 | a retry is a new gated effect with the same tool and arguments that waits on a new open approval of exactly that; the unknown effect stays and its call is answered as unsuccessful |
| `DecisionOutcomes.AbandonOutcome` | src/patchloop/execution/recovery.py:269-348 | an abandonment changes no effect and cancels the task |
| `DecisionOutcomes.AbandonedLetGo` | src/patchloop/persistence.py:3006-3018 | an abandoned task is not the active task of its session any more |
| `LeaseOutcomes.GuardMeansOwner` | src/patchloop/persistence.py:3468-3496 | every transaction that relies on a guard goes through only while the row has its task, owner, token and generation, is in use, and ends after the transaction's own time |
| `LeaseOutcomes.GuardMeansWriter` | src/patchloop/persistence.py:3527-3548 | the same for the guard of a workspace |
| `LeaseOutcomes.ClaimExecutionIff` | src/patchloop/persistence.py:1346-1453 | a claim goes through if and only if everyone in use in the session or on the task has run out of time, the task can be read, belongs to the session, is not in recovery and is at the expected version, and id, token and journal id are new; then everyone in the way is released, the new row has the next generation and the task runs |
| `LeaseOutcomes.RenewExecutionIff` | src/patchloop/persistence.py:1455-1470 | a renewal goes through if and only if the guard is held and the new end is to come, and moves only the end |
| `LeaseOutcomes.ReleaseExecutionOutcome` | src/patchloop/persistence.py:1472-1508 | the lease is released, its running task idle, and the release journaled |
| `LeaseOutcomes.MarkCommandRecoveryRequiredOutcome` | src/patchloop/persistence.py:1818-1860 | the execution and its task need recovery, and this is journaled |
| `LeaseOutcomes.AcquireWorkspaceOutcome` | src/patchloop/persistence.py:1514-1613 | the owner takes a free workspace in its own name with a new token and the next generation |
| `LeaseOutcomes.RenewWorkspaceIff` | src/patchloop/persistence.py:1615-1630 | a writer's renewal goes through if and only if its guard is held and the new end is to come |
| `LeaseOutcomes.ReleaseWorkspaceOutcome` | src/patchloop/persistence.py:1632-1671 | the writer lease ends at once and keeps its generation |
| `SessionOutcomes.CreateSessionOutcome` | src/patchloop/persistence.py:1065-1078 | a new session is stored as given and journaled |
| `SessionOutcomes.CloseSessionOutcome` | src/patchloop/persistence.py:1098-1118 | only a session without an active task at the expected version is closed |
| `SessionOutcomes.AppendTurnOutcome` | src/patchloop/persistence.py:1120-1182 | a new turn is numbered by the count of the session's turns, goes to the given task of that session or to its active one, and raises the session's version |
| `SessionOutcomes.StartTaskOutcome` | src/patchloop/persistence.py:1196-1228 | a new active task is bound to an open session that had none |
| `SessionOutcomes.PrepareTaskExecutionOutcome` | src/patchloop/persistence.py:1230-1274 | the task is stored and the active one of the session it is bound to, its runtime session if it was unbound |
| `SessionOutcomes.CreateTaskOutcome` | src/patchloop/persistence.py:1276-1294 | a new task is stored as given and journaled |
| `SessionOutcomes.UpdateTaskOutcome` | src/patchloop/persistence.py:1296-1344 | the task is as written at the next version, in the same session, with a terminal outcome kept and recovery not left; an ended task is let go by its session |
| `SessionOutcomes.CancelTaskOutcome` | src/patchloop/persistence.py:960-1047 | a live owner is asked, a task without one ends at once, and a repeated request changes nothing |
| `SessionOutcomes.RequestControlOutcome` | src/patchloop/persistence.py:2744-2780 | a new control request is stored as given and journaled |
| `SessionOutcomes.SettleControlOutcome` | src/patchloop/persistence.py:2782-2816 | a request moves only from requested to acknowledged to settled, or to a failed cleanup |
| `SessionOutcomes.AppendEventOutcome` | src/patchloop/persistence.py:2692-2720 | an event is appended under the next number or is there already, alike, and nothing changes |
| `SessionOutcomes.CommitCheckpointOutcome` | src/patchloop/persistence.py:3070-3106 | the owner's checkpoint replaces the old one, is behind the session's turns and events, names a turn of the session, and waits for distinct effects of the task |
| `RuntimeProofs.ToolsStartOnce` | src/patchloop/runtime.py:1234-1246 | over every schedule of crashes and resumptions at most one action starts a given effect; a finished or cancelled effect keeps its phase and is not started again |
| `RuntimeProofs.AnswersRecountedOnce` | src/patchloop/runtime.py:688-695 | over every schedule the conversation holds the stored answer of each finished step exactly once, in the order of the steps |
| `RuntimeProofs.CommitFinishes` | src/patchloop/runtime.py:1490-1514 | a tool call that comes back leaves its effect finished and its observation as the last message |
| `RuntimeProofs.AnswerStored` | src/patchloop/runtime.py:619-631 | a durable answer is stored as given and prepares the effects it names that are not known yet |
| `RuntimeProofs.ClaimStartsIff` | src/patchloop/runtime.py:1234-1246 | a prepared effect starts if and only if the step's cursor is the end of the turn log |
| `RuntimeProofs.ConversationGrows` | src/patchloop/runtime.py:383-990 | whatever crashes and resumptions come, the stored messages and the step counter only grow, and a process continues what is stored |
| `RuntimeProofs.StepEndStoresAll` | src/patchloop/runtime.py:383-990 | ending a step stores everything said and observed in it; a step overtaken by new input stores that input behind it |
| `RuntimeProofs.InputDeliveredOnce` | src/patchloop/runtime.py:996-1122 | for every schedule of crashes and resumptions the checkpoint's turn-derived messages are the initial history followed by this task's later user turns up to the cursor, each once and in order |
| `RuntimeProofs.ClaimsSeeWholeLog` | src/patchloop/runtime.py:1234-1246 | in the runtime machine a tool starts only when the step's cursor is the end of the turn log, so the conversation holds every turn, and with no other effect running or unresolved |
| `RuntimeProofs.NeverAskedAgain` | src/patchloop/runtime.py:440-447 | once a step's answer is durable it never changes and the provider is never asked for that step again |
| `RuntimeProofs.CallsAreNeeded` | src/patchloop/runtime.py:602-622 | the provider is asked only for a step without a stored answer and with no unresolved effect |
| `RuntimeProofs.UsageCountedOnce` | src/patchloop/runtime.py:651-666 | accounted steps are 0, 1, ... each once with a durable answer, and the persisted total is the sum of their usage |
| `RuntimeProofs.RepeatedCallsAreOnRecord` | src/patchloop/runtime.py:2011-2039 | a step the provider was asked for more than once is recorded as having unknown usage |
| `RuntimeProofs.UnresolvedBlocks` | src/patchloop/runtime.py:279-281 | a resume that finds an UNKNOWN effect without disposition reaches neither provider nor tool and writes no checkpoint, until someone decides |
| `RuntimeProofs.ReconcileEffects` | src/patchloop/runtime.py:1405-1488 | settles every running effect, or stops exactly when one stays unknown without a decision, as the machine does in the returned actions |
| `RuntimeProofs.InvKept` | src/patchloop/runtime.py:383-990 | every action keeps delivery, alignment of step and checkpoint cursors, accounting, supervision of effects, one recount per answer and honesty about lost calls |
| `RuntimeProofs.StartedInv` | src/patchloop/runtime.py:205-261 | the state after the first checkpoint satisfies the invariant |
| `ContextEngine.Engine.Build` | src/patchloop/context/engine.py:84-207 | fails exactly when the mandatory messages exceed the budget or the history budget is negative; otherwise the window fits, so the budget error after assembly never occurs, and its messages are, in this order and nothing else: the first prefix message, with the memory text appended when it is merged, the rest of the prefix, the pinned messages, the runtime memory, the memory when it is not merged, and the greedy choice of whole groups |
| `ContextEngine.Engine.Groups` | src/patchloop/context/engine.py:317-354 | cuts the history into measured step groups that partition it, each opened by its assistant message |
| `ContextEngine.Engine.Spend` | src/patchloop/context/engine.py:145-183 | the greedy choice, and as much of the memory of what it drops as fits the rest of the history budget |
| `ContextEngine.FitMemory` | src/patchloop/context/engine.py:401-441 | ends for every memory and limit, with nothing or a memory whose message fits, and keeps a memory that fits |
| `ContextEngine.Fit` | src/patchloop/context/engine.py:401-441 | the first memory along the shrinking chain that fits, else the minimal one, else nothing |
| `ContextEngine.FitKeepsOrigin` | src/patchloop/context/engine.py:401-441 | what shrinking leaves keeps the omissions and prefixes of the lists, and never loses the last unfinished item |
| `ContextEngine.ShrinkShrinks` | src/patchloop/context/engine.py:412-428 | each shrinking step lowers the number of entries, or keeps it and lowers the number of characters |
| `ContextEngine.FittingHistoryIsKept` | src/patchloop/context/engine.py:145-172 | a history that fits its budget is in the window completely: prefix, pinned messages, runtime memory and history, with no memory added |
| `ContextEngine.OpeningCost` | src/patchloop/context/engine.py:185-199 | the opening costs no more than prefix, pinned messages, runtime memory and task memory apart |
| `ContextSelect.SplitGroups` | src/patchloop/context/engine.py:323-333 | the groups concatenate to the messages and a group starts at each assistant message only |
| `ContextSelect.SplitIsUnique` | src/patchloop/context/engine.py:323-333 | no other split has these properties, so a tool message stays with its assistant message |
| `ContextSelect.Rank` | src/patchloop/context/engine.py:155-162 | sorts by recency, relevance and position, and permutes |
| `ContextSelect.Select` | src/patchloop/context/engine.py:163-168 | takes each ranked group exactly when it fits what the ones taken before leave |
| `ContextSelect.LoopIsGreedy` | src/patchloop/context/engine.py:155-168 | the loop's choice is: a group is chosen if and only if it fits the budget left by chosen groups ranked above it |
| `ContextSelect.GreedyChoiceUnique` | src/patchloop/context/engine.py:163-168 | that condition determines the choice |
| `ContextSelect.AllFit` | src/patchloop/context/engine.py:148-168 | if all groups fit together none is dropped |
| `ContextText.TruncateText` | src/patchloop/context/engine.py:44-51 | truncates exactly the longer texts, to exactly the larger of limit and marker length: two thirds of the room from the head, the marker, and the rest from the tail |
| `ContextText.TruncationShrinks` | src/patchloop/context/engine.py:44-51 | a truncated text is strictly shorter at the limits the engine uses |
| `ContextText.TruncationIdempotentIff` | src/patchloop/context/engine.py:44-51 | truncating twice equals truncating once exactly when the marker fits the limit or is as long as the text |
| `ContextText.MergingIsCheaper` | src/patchloop/context/engine.py:186-191 | appending a message's text to another costs no more tokens than sending it apart |
| `ContextText.SerializedBytes` | src/patchloop/context/engine.py:489-498 | the bytes that the estimate counts are the UTF-8 bytes of the JSON text of the message, with its keys, escapes and separators |
| `ContextText.EstimateIsThird` | src/patchloop/context/engine.py:489-498 | the estimate of a message is four more than a third, rounded up, of its serialized bytes |
| `ContextSelect.RankingOrder` | src/patchloop/context/engine.py:155-162 | a strict total order: recent groups first, then the more relevant, then the later |
| `ContextSelect.ChoiceUnique` | src/patchloop/context/engine.py:163-168 | groups in any order admit one greedy choice |
| `ContextSelect.StayExact` | src/patchloop/context/engine.py:170-172 | the groups that stay are the chosen ones in their order, the dropped ones the others in theirs |
| `ContextEngine.FitOrder` | src/patchloop/context/engine.py:412-428 | decisions give way first, then evidence, failures and unfinished work down to one each, and texts are shortened only after that |
| `ContextEngine.OpeningLaid` | src/patchloop/context/engine.py:185-203 | prefix, memory, pinned messages, runtime memory and history are at their places and nothing else is in the window |
| `ContextEngine.LaidUnique` | src/patchloop/context/engine.py:185-203 | no other sequence of messages has these places |
| `ContextEngine.WindowDetermined` | src/patchloop/context/engine.py:84-207 | the conditions that a window satisfies determine its messages, its memory and what it keeps |
| `Exporter.Export` | src/patchloop/events.py:89-112 | over any torn prefix the file stays a prefix of the rendered journal, and on completion equals it, reporting as present the records that were there, as exported the missing ones, and as repaired whether a tail was torn; it raises exactly when one of the records already in the file holds a raw line break, and with power enough completes if none of the journal does |
| `Exporter.RunSchedule` | src/patchloop/events.py:89-160 | over every schedule of journal growth, exports and crashes at any byte, from no file, the file is a byte prefix of the rendered journal, and equal to it after a completed export |
| `Exporter.ReadCompletePrefix` | src/patchloop/events.py:114-147 | drops a torn tail and reads the records that are left |
| `Exporter.ReadLoop` | src/patchloop/events.py:126-147 | parses lines in order, forgives only a bad last one, rejects another session |
| `Exporter.TornFile` | src/patchloop/events.py:117-125 | cutting a torn file at its last newline leaves the first k records of the journal |
| `Exporter.ReadsBack` | src/patchloop/events.py:126-147 | reading a rendered journal gives the journal |
| `Exporter.ReadFailsIff` | src/patchloop/events.py:126-135 | reading back a complete export fails exactly when some record holds a character that splitlines breaks at |
| `Exporter.AppendRecords` | src/patchloop/events.py:103-109 | appends records until power is lost, leaving a byte prefix of them |
| `Exporter.Bring` | src/patchloop/events.py:92-112 | extends a file that agrees with the journal and counts present and missing records, replaces one that does not |
| `JsonLines.LineReadBack` | src/patchloop/events.py:127-127 | a record without break characters is one line of the split |
| `JsonLines.LineCut` | src/patchloop/events.py:127-127 | a record with one is cut there and leaves something behind |
| `JsonLines.RawBreaksOccur` | src/patchloop/events.py:158-160 | records with U+0085, U+2028 or U+2029 are such records |
| `SecretRoundTrip.RoundTrip` | src/patchloop/security.py:153-179 | for executable arguments and paths that part ways, materializing what was persisted with the true secrets gives exactly the original arguments when redacted_paths is empty and is refused otherwise |
| `SecretRoundTrip.ReportedPathsLead` | src/patchloop/security.py:221-230 | every reported path, parsed as a pointer, leads to a string that holds the marker |
| `SecretRoundTrip.CollectCounts` | src/patchloop/security.py:221-230 | one path is reported per marked string |
| `SecretRoundTrip.ExecutableIffNothingReported` | src/patchloop/security.py:182-197 | arguments are executable exactly when no path is reported and no credential key exists |
| `SecretRoundTrip.PersistToolArguments` | src/patchloop/security.py:161-179 | redacts, writes a reference at each path in order, and reports what stays redacted, or fails on a missing path |
| `SecretRoundTrip.Materialize` | src/patchloop/security.py:153-158 | resolves each reference in order and returns only executable arguments |
| `SecretArguments.GetSet` | src/patchloop/security.py:200-218 | what is written at a path is read there |
| `SecretArguments.GetSetApart` | src/patchloop/security.py:200-218 | a write does not change what is read at a path that parts ways with it |
| `SecretArguments.SetIffGet` | src/patchloop/security.py:200-218 | a path can be written exactly when it can be read |
| `SecretArguments.CountSet` | src/patchloop/security.py:200-218 | a write removes the markers of the old value and adds those of the new one |
| `SecretArguments.ExecutableIff` | src/patchloop/security.py:182-197 | executable means no marked string and no credential key at any depth |
| `SecretArguments.RedactVeils` | src/patchloop/security.py:109-127 | what redaction changes holds the marker or a credential object |
| `SecretArguments.UnveiledIsOriginal` | src/patchloop/security.py:182-197 | a value that differs from the arguments only by markers and references is the arguments once it is executable |
| `SecretSecrecy.RedactedAt` | src/patchloop/security.py:109-127 | path by path: outside sensitive keys the value is shown with its text redacted, the value of a sensitive key is the marker unless it is a credential reference, and nothing below it exists |
| `SecretSecrecy.SecretsStayOut` | src/patchloop/security.py:161-179 | arguments that differ only below sensitive keys, or in what is wiped from texts, are persisted as the same record |
| `SecretSecrecy.BoundSecretsStayOut` | src/patchloop/security.py:161-179 | so are arguments that differ only in the string at the path of a credential binding |
| `SecretSecrecy.CollectFinds` | src/patchloop/security.py:221-230 | every marked string below the top is reported under the pointer to it |
| `JsonPointer.UnescapeEscape` | src/patchloop/security.py:201-201 | unescaping undoes escaping for every key |
| `JsonPointer.EscapeUnescapeIff` | src/patchloop/security.py:225-225 | escaping undoes unescaping exactly on tokens of the grammar |
| `JsonPointer.ParseJoin` | src/patchloop/security.py:200-201 | parsing a joined pointer gives back its parts |
| `CacheSimulator.Simulator.Observe` | src/patchloop/evaluation/cache_simulator.py:65-80 | hits and misses add up to the input, hits come from the longest common prefix with the previous wire, which is replaced |
| `CacheSimulator.Simulator.constructor` | src/patchloop/evaluation/cache_simulator.py:12-14 | starts without a previous wire |
| `CacheSimulator.Simulator.Reset` | src/patchloop/evaluation/cache_simulator.py:16-18 | forgets the previous wire |
| `CacheSimulator.LongestCommonPrefix` | src/patchloop/evaluation/cache_simulator.py:87-94 | the length of the longest common prefix |
| `CacheSimulator.ObserveAll` | src/patchloop/evaluation/cache_simulator.py:65-80 | a fresh simulator gives every request its usage against its predecessor |
| `CacheSimulator.MissesCoverLast` | src/patchloop/evaluation/cache_simulator.py:65-84 | misses add up to at least the estimate of the last wire, and to exactly it if and only if each wire reuses all tokens of the one before |
| `CacheSimulator.AppendOnlyTelescopes` | src/patchloop/evaluation/cache_simulator.py:65-84 | if each wire extends the previous one, the misses telescope to the estimate of the last wire |

## Left out

- Identifiers and lease tokens are integers and digests are replaced by what they are computed from, so SHA-256 is taken to be free of collisions.
- Timestamps other than lease times, evidence texts, result references, trace ids and event payloads of the store's own events are dropped.
- A task's `status` field is not kept apart from its outcome, from which it can be derived.
- `save_task`, `delete_task`, `prepare_effects`, `record_tool_call`, `commit_tool_result`, artifacts, memory tables and managed-command tables are not part of this model; `save_checkpoint` and `record_step` appear only as durable writes of the runtime machine.
- Redaction of rows before they are stored, SQL text, schema migration, backups and pydantic validation are not part of this model, except the task rule that is checked on each read.
- Where an id and an identity both match stored effects, the look-up of an existing effect takes the row with the id.
- The store's writes are held in local copies until commit instead of being undone by rollback; what other processes can see is the same.
- The store accepts a batch whose effects already carry another status than PREPARED; an effect stored as EXECUTING counts as a start for at-most-once, but what is said about approvals concerns claims of stored effects.
- EffectSpec.ClaimEffect: does not require that the guard's task is the effect's task, because the store does not check it either.
- The runtime machine covers the legacy prompt layout; prompt-cache epochs, memory managers, budgets on time and repetition, and reports are not part of it, and a stop for any reason is a crash of the process.
- RuntimeModel.Do: a process resumes from the checkpoint that is stored when it takes ownership; resuming with an older copy held by the caller is not modelled.
- The machine lets a claim take any prepared effect and reconcile effects in any order, which allows more runs than the code does.
- Messages of the conversation carry a tag that says where they came from; the code keeps only role and text.
- Relevance scoring, summarizing of dropped steps, memory rendering and the tool-specification estimate enter `ContextEngine` as functions or numbers; normalization and exclusion of superseded values happen before it. Relevance is compared as the number of shared words, since all groups share the denominator.
- Tool calls of a message enter the size estimate as their JSON text; lone surrogates, which cannot be encoded, are not modelled.
- The exporter takes rendering and parsing of records as functions, with the properties it needs of them as hypotheses (records parse back, and are single lines or no proper prefix of a record parses); decoding errors of a file that is not UTF-8 are not modelled.
- JsonPointer.Index: accepts ASCII digits only, while `str.isdigit` accepts digits of other scripts.
- `redact_text` and the test for sensitive keys are functions; a text is assumed to be left alone or to end up holding the marker.
- Values are updated by building new ones; `_set_json_pointer` changes a private deep copy in place, so aliasing does not arise.
- Providers, tool gateway, sandbox, command line, observability, diagnostics of the cache layout and the rest of the evaluation package are not part of this model.
