# Verified model of the agent runtime

A Dafny model of the runtime that executes founder requests: the orchestrator that drives a state machine and
records every step, the frozen replay that must reach the recorded outcome again, the idempotent outbox on two
backends, session locks, outbox workers, the approval workflow, and the arithmetic that adapts policy, tool
routing and context. `dafny verify dfyconfig.toml` checks all of it.

Code that changes state is modelled as classes and loops proved against specification functions
(`Transactions.MemoryStore` against `PersistSpec`, `FrozenReplay.Run` against `Accepts`, and so on); code that
only computes is modelled as functions. Concurrency is modelled as steps: the orchestrator lets requests with
other ids persist anything before each of its own persist calls, and locks, workers and approvals are step
relations with invariants over every interleaving. LLM answers, tool results, health flags, profiles and the
clock are arbitrary. Floats are reals and `round` is any function that returns a nearest multiple of its unit.
SHA-256 is an injective wrapper around the hashed text.

## Structure

| module | about |
|---|---|
| Json, Canonical | JSON trees, printer and reader (sections 4, 5 and 7 of RFC 8259), the normaliser, hashes |
| RuntimeStates | the state machine and its table |
| Persistence, Transactions | the tables, their projections, `persist_runtime_tx` in memory, deduplication |
| FrozenReplay, LiveReplay | loading and replaying a session; replaying with the tools run again |
| ReplayRecords, BaselineSensitivity | which stored records a replay reports, and which later ones a baseline notices |
| SessionCloses | what a close with any payload leaves for validation |
| RunLogs | what one request may find and leave in the tables |
| FounderRequests, FounderTables, Orchestration | what a request records; the same spelled out kind by kind; the orchestrator itself |
| Spans, SpanDelivery | pending spans and how they reach the store |
| SessionLocks | requests of many sessions interleaved |
| OutboxDrain, OutboxWorkers, OutboxFlow | the in-memory batch loop; concurrent Postgres workers; from persist calls to workers |
| PostgresBackend | the Postgres path against the in-memory path |
| Approvals, ApprovalRaces | bindings, tampering, interleaved executions and which of them are safe |
| AdaptivePolicies, ToolReliability, ContextPriority, ContextWindows | the adaptive arithmetic |
| Wrappers, Text, Reals, Seqs | shared helpers |

## What the proofs found

Each line names the lemma or method that proves it.

- Two dict keys with one text (`1` and `"1"`) make the normal form depend on insertion order: it is order-free
  exactly when no such pair has different normal forms (`Canonical.OrderFreeExactly`).
- A binding does not see volatile parameters, so whatever is done to them passes validation
  (`Approvals.VolatileTamperingPasses`), and every proposal can be changed that way
  (`Approvals.EveryProposalForgeable`); it sees every other change (`Approvals.BindingExact`).
- `execute_approved_action_in_session` lets the caller choose the lock. As long as nothing is raised after the tool
  call, an approval's tool is called at most once in every interleaving if and only if all its executes lock the same
  session id (`ApprovalRaces.AtMostOnceExactly`); the same condition decides whether a status settles only once
  (`ApprovalRaces.StatusSettlesExactly`). If something can be raised there, only a single execute per approval is
  safe (`ApprovalRaces.OnceDespiteCrashesExactly`).
- A refused session close has already drained the pending spans; they never reach the store
  (`SpanDelivery.LostSpansStayLost`, with an input in `SpanDelivery.SpanLost`), although docs/RRM2.1.md promises
  causal reconstruction from spans. On Postgres the same refused close has already inserted its outbox row, in memory
  it has not (`PostgresBackend.BackendsAgree`).
- In memory the close fingerprints the replay before its own rows are appended, on Postgres after. A close in memory
  that carries a decision of its own correlation stores a baseline that no longer validates
  (`SessionCloses.DecisionInvalidates`). Exactly the closes whose rows change nothing the outcome shows validate there
  (`SessionCloses.CloseValidatesExactly`), and the same condition decides agreement with Postgres, but for a close
  that repeats the stored entry (`PostgresBackend.BackendsAgree`). The orchestrator's closes carry no rows.
- A delegation that stops on the context budget reports no exception, yet the session fails: the CEO's snapshot
  names a delegation for which the replay finds no CTO tool. A skipped last tool leaves the machine in WAITING_TOOL,
  from which it cannot complete (`Orchestration.ManualOrchestrator.RunLocked`). Under the default settings a delegated
  message of 16000 characters is enough under context pressure, and one timed-out call makes the tool one that is
  skipped (`FounderRequests.LongMessagesFail`, `FounderRequests.EachOutcomeHappens`).
- `evaluate` would let every action pass in a compliance crisis, because that crisis caps the level at 1
  (`AdaptivePolicies.AllowedExactly`). `detect_crisis` never finds one, so as far as it is concerned only an open
  critical incident lets more through, by one level (`AdaptivePolicies.AllowedWhenDetected`).
- `process_outbox_batch` selects failed events again. A pending event whose handler would succeed is processed by some
  batch if and only if fewer events before it fail than a batch holds; otherwise it waits for ever
  (`OutboxDrain.StuckExactly`). Apart from that nothing persisted gets lost (`OutboxFlow.NothingGetsLost`).
- When layer L1 alone reaches `max_tokens`, `build_context` reports the maximum although L1 and L2 exceed it
  (`ContextWindows.BuildContext`).

## Model

| member | source | states |
|---|---|---|
| `Json.ReadPrint` | core/canonical.py:50-53 | For every tree, reading its printed text followed by a delimiter gives the tree with every object rebuilt as a dict (first place, last value) and stops exactly where the text ended |
| `Json.RebuiltExactly` | core/canonical.py:50-53 | Rebuilding as dicts changes a tree if and only if some object in it repeats a key |
| `Json.ParsePrint` | core/canonical.py:50-53 | `json.loads` of the printed text is the rebuilt tree, and the tree itself if and only if no object in it repeats a key |
| `Canonical.NormalizeIsCanonical` | core/canonical.py:26-47 | Every normal form has strictly ascending keys at every depth and, when stripping, no volatile key anywhere |
| `Canonical.NormalizeIdempotent` | core/canonical.py:26-47 | Normalising a normal form changes nothing |
| `Canonical.DictOrderIrrelevant` | core/canonical.py:39-44 | Values that differ only in dict order, at any depth, have one normal form, as long as no dict has two keys with one text |
| `Canonical.OrderFreeExactly` | core/canonical.py:39-44 | A dict's normal form is independent of its order if and only if no two members with one kept key text normalise differently |
| `Canonical.CanonicalRoundTrip` | core/canonical.py:50-53 | Parsing canonical text gives back the normal form |
| `Canonical.SameTextSameTree` | core/canonical.py:50-57 | Equal canonical texts mean equal normal forms |
| `Canonical.SameHashSameTree` | core/canonical.py:56-57 | Equal stable hashes mean equal normal forms |
| `Canonical.CanonicalParams` | tools/router.py:44-49 | The router's parameters are always a canonical object; None and an empty dict give the empty one |
| `Canonical.CanonicalParamsKeep` | tools/router.py:44-49 | Every parameter is kept with its normalised value, volatile or not, and none is added |
| `Canonical.VolatileUnseen` | core/canonical.py:26-47 | Removing every volatile member, at every depth, leaves the stripped normal form as it was |
| `Canonical.CanonicalParamsIdempotent` | tools/router.py:44-49 | Canonicalising canonical parameters changes nothing |
| `Canonical.MemberSeenExactly` | core/canonical.py:13-23 | A further dict member changes the stable hash if and only if its key is none of the seven volatile ones |
| `Canonical.AlikeKinds` | core/canonical.py:26-47 | Texts, enum members, tuples and models normalise as their text, value, list and dump |
| `Text.StrLessExactly` | core/canonical.py:39-44 | In the order of keys the first difference decides, and a proper prefix comes first |
| `RuntimeStates.RuntimeStateMachine.Transition` | core/runtime.py:34-40 | Accepts exactly table edges and self loops, appends to the history, and changes nothing when it refuses |
| `RuntimeStates.RuntimeStateMachine.DetectStuck` | core/runtime.py:45-52 | The fifth call in a row without progress forces REPLANNING, exactly where the table has that edge |
| `RuntimeStates.RuntimeStateMachine.Fail` | core/runtime.py:54-57 | Reaches FAILED from every state |
| `RuntimeStates.RuntimeStateMachine.Complete` | core/runtime.py:59-60 | Succeeds exactly from REASONING, EXECUTING, OBSERVING, ESCALATED and COMPLETED |
| `RuntimeStates.TerminalStays` | schemas/runtime.py:21-50 | A run of the table that is FAILED or COMPLETED once stays in that state |
| `RuntimeStates.StepByName` | schemas/runtime.py:21-50 | The accepted steps, by the names the log stores, are the thirty edges of the table and standing still |
| `Persistence.IdempotencyKeyExact` | core/transaction.py:81-88 | Two keys are equal if and only if correlation, type, effective business key and the payload's normal form are |
| `Persistence.DefaultBusinessKey` | core/transaction.py:81-88 | No business key, an empty one and the event type are one key, and every other one is a different key |
| `Persistence.PutSnapshot` | core/replay_store.py:34-38 | Pads with empty snapshots, writes the one slot and keeps every other |
| `Persistence.PutSpan` | core/intelligence_store.py:30-35 | A known span id keeps its place and takes the new value, a new one goes to the end, and every other row stays |
| `Persistence.SortTextsSorts` | core/frozen_replay_executor.py:127-142 | The sorted approvals are an ascending permutation |
| `FrozenReplay.LoadBundle` | core/frozen_replay_executor.py:31-95 | The loaded bundle is the projection of the session's snapshots, log, version and last founder intent |
| `FrozenReplay.BundleExactly` | core/frozen_replay_executor.py:31-95 | The bundle spelled out: version, states with COMPLETED as default, tool results, delegations, and exactly the session's transitions |
| `FrozenReplay.ReplayTransitions` | core/frozen_replay_executor.py:154-172 | Accepts exactly the logs that walk from PERCEIVING along table edges and self loops; an unknown target state is its own error |
| `FrozenReplay.Run` | core/frozen_replay_executor.py:97-142 | Succeeds if and only if the bundle is version-compatible, non-empty, connected, finishable, has its delegations served and its last snapshot agrees; the outcome is then COMPLETED with the recorded tools, the ids of exactly the correlation's decisions and effects in table order, and of its approvals in ascending order, each as often as stored |
| `FrozenReplay.AcceptedExactly` | core/frozen_replay_executor.py:97-125 | Which bundles replay, spelled out by version, state names and tool names |
| `FrozenReplay.AfterLastExactly` | core/frozen_replay_executor.py:66-75 | The tail of a message is what follows the last occurrence of the marker |
| `Transactions.IntentIsNewest` | core/frozen_replay_executor.py:66-75 | A replay takes the intent tool from a newest founder intent of the correlation, and none if there is none |
| `BaselineSensitivity.ApprovalNoticed` | core/frozen_replay_executor.py:134-141 | One more stored approval ends a session's validity if and only if it has the session's correlation |
| `BaselineSensitivity.DecisionNoticed` | core/frozen_replay_executor.py:132-141 | One more decision ends a session's validity if and only if it has the session's correlation |
| `BaselineSensitivity.EffectNoticed` | core/frozen_replay_executor.py:132-141 | One more side effect ends a session's validity if and only if it has the session's correlation |
| `FrozenReplay.CollectToolSequence` | core/frozen_replay_executor.py:174-184 | The tool names of all snapshots in order, or the intent's tool when there are none |
| `FrozenReplay.VerifyDelegationRouting` | core/frozen_replay_executor.py:186-194 | Passes if and only if no step delegates to the CTO or some CTO tool is in the sequence |
| `FrozenReplay.CanFinishIsTable` | core/runtime.py:59-60 | The finishable end states are COMPLETED and those with an edge to it |
| `FrozenReplay.AcceptedHasTransitions` | core/frozen_replay_executor.py:109-125 | An accepted bundle always has transitions, although a bundle of snapshots alone passes the first check |
| `FrozenReplay.FingerprintInjective` | schemas/replay.py:38-47 | Equal fingerprints mean equal outcomes, field by field |
| `FrozenReplay.ValidateFrozenReplay` | core/replay_validator.py:48-73 | True exactly when the session has a baseline, replays, and reaches the baseline's fingerprint; only an unknown state escapes as an exception |
| `Transactions.MemoryStore.PersistRuntimeTx` | core/transaction.py:242-284 | The in-memory path: a call under a new key that goes through adds one unprocessed event with the given id, time, correlation, type and payload, one row for each part of the payload and its snapshot slot; a duplicate adds nothing; only a close touches baseline and health; a refused close leaves the tables untouched; pending spans are drained either way |
| `Transactions.MemoryStore.CompleteSessionClose` | core/transaction.py:196-239 | Stores the baseline and rates the replay against the previous one exactly when the replay is accepted |
| `Transactions.CallEffects` | core/transaction.py:196-284 | What one call adds, without its parts; its spans, and the pending ones if it drains, are appended; a close's health row says 1.0 if there was no baseline or the same one, else 0.0, and replaces only its own |
| `Transactions.OutboxKeysDistinct` | core/transaction.py:272-284 | Over every sequence of calls keys stay pairwise distinct and no stored event is removed or changed |
| `Transactions.RetryReturnsFirstEvent` | core/transaction.py:272-280 | After any other calls, a repeated key returns the first event and leaves outbox, decisions, effects, transitions, snapshots and retry traces as they were |
| `Transactions.SameReplay` | core/frozen_replay_executor.py:97-152 | The replay depends only on the session's log, snapshots and intent tool and the correlation's decisions, effects and approvals |
| `Transactions.StepKeepsView` | core/persistence.py:583-617 | A call under other ids, or a quiet close of any session, changes nothing a session's replay reads |
| `Transactions.QuietCloseValidates` | core/transaction.py:196-208 | A close without rows of its own that goes through leaves a session that validates, with the replay it had before |
| `Transactions.ForeignKeepValid` | core/replay_validator.py:48-73 | A validating session keeps validating, with the same baseline, under any calls with other ids |
| `SessionCloses.CloseValidatesExactly` | core/transaction.py:242-284 | Any close that goes through leaves a validating session if and only if it is a duplicate, or adds no decision or effect of its correlation and its snapshot and transition still replay to the same tools |
| `SessionCloses.DecisionInvalidates` | core/transaction.py:272-284 | A close under a new key with a decision of its own correlation stores a baseline that does not validate |
| `SessionCloses.AppendedReplay` | core/persistence.py:583-617 | The replay over the rows a close appends, in terms of the tables before: accepted if and only if the longer log is, and with the same outcome if and only if the tools are the same and no decision or effect was added |
| `SessionCloses.BaselineStable` | core/replay_validator.py:28-73 | After any close and any foreign calls, the baseline is as stored and validation is true if and only if the close kept the outcome; then closing again rewrites the same baseline with confidence 1.0, and a repeat of the same close leaves it valid |
| `SpanDelivery.SpansReachTheStore` | core/transaction.py:103-108 | However the writes of other requests fall in between, after a successful persist stored ids are distinct and are those of the others plus all started spans but those lost in refused closes; if none was lost, recorded parents are stored too |
| `SpanDelivery.LostSpansStayLost` | core/transaction.py:279-284 | Spans drained by a refused close are never stored nor pending again, whatever other requests write |
| `SpanDelivery.ParentIsLatestOrchestration` | core/spans.py:85-95 | Over every sequence of acts each started span of the six inner kinds has the latest earlier orchestration span as parent, or none if there is none; orchestration and retry spans have none |
| `SpanDelivery.StoredSpansHaveRoots` | core/spans.py:85-108 | After a successful persist with nothing lost, every inner span started under an orchestration span is stored under that span, which is a stored root |
| `SpanDelivery.LosesExactly` | core/transaction.py:279-284 | A call loses spans if and only if it is a refused close with spans pending |
| `SpanDelivery.SpanLost` | core/transaction.py:279-284 | On empty tables a span and a close without any transition: the span is lost |
| `Spans.SpanManager.StartSpan` | core/spans.py:72-111 | The new span is pending, parented to the orchestration span except for ORCHESTRATION and RETRY |
| `RunLogs.RunReplay` | core/frozen_replay_executor.py:97-142 | What a run on fresh ids leaves replays if and only if its state can finish and its delegations are served, and then to exactly the tools, decisions and effects it recorded |
| `RunLogs.RunClosed` | core/transaction.py:196-208 | Its close stores the fingerprint of that outcome as a validating baseline exactly in that case, and otherwise changes nothing |
| `RunLogs.OthersKeepInv` | core/persistence.py:583-617 | Whatever other requests persist meanwhile, what the run recorded and the keys still free to it stay as they are |
| `RunLogs.Inserted` | core/transaction.py:281-284 | A call of the run under a free key adds exactly its rows to the session's log, snapshots, decisions, effects and event types, and leaves later keys free |
| `RunLogs.FreeAfter` | core/transaction.py:81-88 | One more event takes no transition number above, no snapshot step from and no decision id outside those already used |
| `RunLogs.OwnIsForeign` | core/orchestrator.py:67-83 | What a request persists is foreign to every session with other ids |
| `RunLogs.RunsKeepWellKeyed` | core/transaction.py:242-260 | Over every sequence of calls each stored key is the key of the event that holds it |
| `RunLogs.EmptyIsFresh` | core/transaction.py:242-260 | In an empty store all ids are fresh, so the results on fresh ids have a start |
| `Orchestration.ManualOrchestrator.RecordTransition` | core/orchestrator.py:53-83 | A legal transition is recorded under a key no earlier one used; an illegal one records nothing |
| `Orchestration.ManualOrchestrator.RunTools` | core/orchestrator.py:569-631 | The loop's transitions, cumulative snapshots, results, event types and final state are those of the plan with its skipped tools |
| `Orchestration.ManualOrchestrator.DelegateToSpecialist` | core/orchestrator.py:483-561 | Raises exactly when the CTO is degraded; returns without work exactly when over budget |
| `Orchestration.ManualOrchestrator.RunDeterministicTool` | core/orchestrator.py:300-357 | Always completes and validates, and its recorded outcome is the one tool with no decision or effect |
| `Orchestration.ManualOrchestrator.RunLocked` | core/orchestrator.py:359-481 | On fresh ids, for every oracle and interleaving: COMPLETED with a validating baseline, the fingerprint of the named outcome, exactly when none of the three failures happens, else FAILED without a baseline; and for each kind of request the exact transitions by name, tools, decisions, effects and event types, told by signals, profiles and message alone |
| `FounderTables.ConditionsMean` | core/adaptive_policy.py:25-89 | When a request delegates, is too long, runs one tool or passes over one, in terms of signals, lengths and profiles |
| `FounderTables.OneToolTold` | core/orchestrator.py:571-580 | Under latency pressure or tool failures the delegated run calls `get_repo_health` alone, whatever the profiles say |
| `FounderTables.ThreeToolsTold` | core/orchestrator.py:569-631 | Otherwise it goes through the three tools in order, with the exact log and snapshots for each choice of tools it passes over |
| `Orchestration.ManualOrchestrator.RunFounder` | core/orchestrator.py:384-479 | The `try` body: an exception reaches the handler exactly when the request cannot complete |
| `FounderRequests.ServedExactly` | core/frozen_replay_executor.py:186-194 | The founder run's snapshots serve their delegations if and only if it did not delegate over budget |
| `FounderRequests.EachOutcomeHappens` | core/orchestrator.py:384-479 | Inputs for delegated work that completes and for each of the three failures alone |
| `FounderRequests.LongMessagesFail` | core/orchestrator.py:516-561 | With default settings and context pressure, every delegated message of 16000 characters is over budget and fails |
| `FounderRequests.UpdateKeepsRest` | core/orchestrator.py:582-606 | Updating a tool's profile inside the loop decides no later round |
| `SessionLocks.MemoryLocks.Enter` | core/runtime_session.py:59-63 | Enters exactly when the session is unlocked and then holds the lock |
| `SessionLocks.MemoryLocks.Leave` | core/runtime_session.py:64-65 | Frees this session's lock and no other |
| `SessionLocks.LogsInLockOrder` | core/runtime_session.py:46-74 | Over every interleaving of requests with distinct correlations: one inside per session, and each session's log is the concatenation in lock order of everything its requests recorded, nothing lost to deduplication |
| `SessionLocks.EntersExactly` | core/runtime_session.py:59-63 | In every reachable state a request gets in if and only if no other request of its session is inside, and is then last in lock order |
| `SessionLocks.TablesFollowCalls` | core/runtime_session.py:46-74 | Over every interleaving the tables are those of all persist calls made, one after the other |
| `SessionLocks.RefusedIsInert` | core/runtime_session.py:59-60 | A refused request writes nothing, frees nobody's lock and has no further step |
| `SessionLocks.SecondRequestBreaksReplay` | core/persistence.py:620-625 | A second request's log does not connect to the first one's, so such a session is never replayed |
| `OutboxDrain.OutboxProcessor.ProcessBatch` | workers/outbox_processor.py:63-79 | One batch under any handler: of the first `limit` pending events exactly those whose handler succeeds are processed and counted |
| `OutboxDrain.BatchProcesses` | workers/outbox_processor.py:63-79 | The same of its specification, with the backlog that is left and its order |
| `OutboxDrain.BacklogFifo` | workers/outbox_processor.py:65-68 | The backlog holds exactly the unprocessed events, by correlation, then time, then arrival |
| `OutboxDrain.StuckExactly` | workers/outbox_processor.py:63-79 | Over repeated batches under any handler an event is processed if and only if fewer than `limit` events before it fail |
| `OutboxDrain.BatchKeepsAgree` | workers/outbox_processor.py:69-78 | Under any handler an event is processed if and only if its key is in the processed set |
| `OutboxDrain.SortedUnique` | workers/outbox_processor.py:65-68 | Two lists of the same events sorted by correlation, time and position are the same list |
| `OutboxDrain.DrainInOrder` | workers/outbox_processor.py:63-79 | With succeeding handlers, repeated batches of any limit handle the backlog in the order of one stable sort |
| `OutboxDrain.DrainFinishes` | workers/outbox_processor.py:63-79 | The backlog is empty after exactly ceil(n / limit) batches, each event handled once |
| `OutboxWorkers.EachRowOnce` | workers/outbox_processor.py:24-60 | Over every interleaving of workers, commits, aborts and inserts: locked batches are disjoint, no row is updated twice, committed counts sum to the newly processed rows, `processed_idempotency` is exactly the keys of processed rows |
| `OutboxWorkers.SelectExactly` | workers/outbox_processor.py:25-35 | A worker locks the first `limit` rows of the backlog that no other worker holds |
| `OutboxWorkers.TransactionExactly` | workers/outbox_processor.py:24-60 | Whatever locks the others hold, one transaction processes exactly those of its rows whose handler succeeds |
| `OutboxWorkers.TransactionIsBatch` | workers/outbox_processor.py:24-79 | With no other worker busy, a Postgres transaction leaves what a batch in memory leaves |
| `OutboxWorkers.FailedStaysUnprocessed` | workers/outbox_processor.py:41-60 | From any reachable state, a row whose handler failed is processed by nobody for the rest of that batch, up to and including the commit or abort that ends it |
| `OutboxWorkers.AbortKeeps` | workers/outbox_processor.py:82-88 | An abort leaves every row and key as committed before, frees the worker's rows and disturbs no other worker |
| `OutboxFlow.NothingGetsLost` | core/transaction.py:251-284 | Over every run of persist calls and batches in memory, every event persisted is still in the backlog or was handled by exactly one batch, and nothing but its flag changes |
| `OutboxFlow.PersistedReachesWorkers` | core/transaction.py:251-284 | A call under a new key, anywhere in such a run: its event keeps id, time, correlation, type and payload, starts in the backlog and is later there or handled |
| `OutboxFlow.EverythingDrains` | workers/outbox_processor.py:63-79 | After any such run ceil(n / limit) batches with succeeding handlers process every event |
| `OutboxFlow.PersistIsAppend` | core/transaction.py:324-347 | On Postgres a persist call is to the workers no move, or the insert of an unprocessed row with the payload under a new key |
| `OutboxFlow.NothingGetsLostPg` | core/transaction.py:286-394 | Over every interleaving of persist calls with workers, commits and aborts, every event persisted is in the backlog or was updated by exactly one committed batch |
| `PostgresBackend.PostgresStore.PersistRuntimeTx` | core/transaction.py:286-394 | The Postgres path: a call under a new key adds one unprocessed event and the rows of its payload, except records whose id is stored, then replays over what it inserted; a refused close leaves its rows for the caller's transaction; a duplicate inserts nothing |
| `PostgresBackend.CallEffectsPg` | core/transaction.py:286-394 | The same of its specification; a stored baseline keeps the correlation of the first close |
| `PostgresBackend.QueriedByTime` | core/persistence.py:412-450 | Whatever the insertion order, the queries return the stored decisions, effects and transitions by time |
| `PostgresBackend.UpsertWrites` | core/transaction.py:348-359 | The upsert sets the row of one step and leaves every other row |
| `PostgresBackend.UpsertIsPut` | core/transaction.py:348-359 | For contiguous steps the upsert and the padded in-memory list agree |
| `PostgresBackend.BackendsAgree` | core/transaction.py:272-394 | One regular call with any payload: when each backend accepts it, and the core tables and fingerprints agree afterwards if and only if it is no close under a new key, or one that goes through and keeps the outcome, or one only memory accepts and that repeats the stored entry |
| `PostgresBackend.QuietClosesAgree` | core/transaction.py:272-394 | A close without rows of its own gives the same result on both, and the same tables if and only if it is not a refused close under a new key |
| `PostgresBackend.RunsAgree` | core/transaction.py:272-394 | Over every run of regular calls whose new closes go through and keep the outcome, core tables, baselines and the replay of every session agree |
| `PostgresBackend.EmptyAgree` | core/transaction.py:272-394 | Both backends start in agreement, so every such run from empty tables is covered |
| `Approvals.BindingExact` | core/approval_service.py:125-134 | The prepared binding admits exactly the proposals with the same action, agent and parameters up to volatile keys and dict order |
| `Approvals.VolatileTamperingPasses` | core/approval_service.py:125-134 | Parameters that differ from the prepared ones only in volatile members, at any depth, pass the binding |
| `Approvals.EveryProposalForgeable` | core/approval_service.py:125-134 | Any value under any volatile key can be added to any prepared proposal and passes |
| `Approvals.ChecksumExact` | core/approval_service.py:23-24 | Two proposals have one checksum if and only if all frozen fields agree, parameters up to volatile keys and dict order |
| `Approvals.ApprovalService.PrepareApproval` | core/approval_service.py:70-122 | Stores a pending approval with its binding for a signed proposal; one that was changed after signing is refused and stores nothing |
| `Approvals.ApprovalService.ExecuteApprovedAction` | core/approval_service.py:137-218 | Undisturbed: an approval as prepared runs its action once and is approved up to its expiry, and expires after it; one that is not pending, or whose proposal was changed under its checksum in any frozen field, is refused and changes nothing |
| `Approvals.ToolRunsAtMostOnce` | core/approval_service.py:230-244 | If every execute of an approval locks one session id and no exception escapes after the call, then over every interleaving and tampering its tool is called at most once, and only as prepared |
| `ApprovalRaces.CallsAsPrepared` | core/approval_service.py:137-218 | Over every interleaving, tampering, exception and choice of locks, only prepared actions are called |
| `ApprovalRaces.TamperedIsRefused` | core/approval_service.py:146-151 | A pending proposal changed under its checksum, or lost, stops the next execute: no call, the lock freed, the approval still pending |
| `ApprovalRaces.CallsInTime` | core/approval_service.py:149-160 | Over every interleaving whose tampering keeps the prepared checksums, a tool is only called for the very proposal that was prepared, and not after its expiry |
| `ApprovalRaces.AtMostOnceExactly` | core/approval_service.py:230-244 | Without exceptions after the call, every interleaving calls each tool at most once if and only if all executes of an approval lock one session id |
| `ApprovalRaces.OnceDespiteCrashesExactly` | core/approval_service.py:175-209 | With exceptions after the call, if and only if no two executes are for one approval |
| `ApprovalRaces.StatusSettlesExactly` | core/governance_store.py:85-100 | Over whole runs, exceptions included, a status moves only from PENDING, to APPROVED or EXPIRED, if and only if all executes of an approval lock one session id |
| `Approvals.UndisturbedExecute` | core/approval_service.py:230-244 | The steps of one undisturbed execute add up to one tool call, status APPROVED and a freed lock |
| `Approvals.TwoLocksTwoRuns` | core/approval_service.py:230-244 | Under two different free locks some interleaving calls the tool twice |
| `Approvals.CrashRunsAgain` | core/approval_service.py:175-209 | An exception between the tool call and the status update lets the next execute call the tool again |
| `LiveReplay.LiveBundle.RefreshToolResults` | core/live_replay_adapter.py:62-92 | In the copy every record that names a tool is what that tool answers to the recorded agent, or the default one, and its dict parameters; other records are kept |
| `LiveReplay.LiveEqualsFrozen` | core/live_replay_adapter.py:36-95 | An executor that answers under the asked name gives, for every bundle, the frozen acceptance, outcome and errors |
| `LiveReplay.RunLiveOutcome` | core/live_replay_adapter.py:50-60 | For any executor the live run succeeds as its refreshed bundle does and drifts by its difference; if tools answer under their names it succeeds and fails as the frozen one, with its outcome and an empty drift map |
| `LiveReplay.DiffEmptyExactly` | core/replay_diff.py:8-24 | The drift map is empty if and only if the outcomes are equal |
| `LiveReplay.DiffExactly` | core/replay_diff.py:8-24 | A field is in the drift map if and only if it differs, with the expected and the actual value |
| `AdaptivePolicies.Derive` | core/adaptive_policy.py:25-89 | The staged derivation equals a closed form with one clamp at the end |
| `AdaptivePolicies.DeriveAntitone` | core/adaptive_policy.py:25-89 | For any settings, signals at least as bad give a policy at least as tight in all six fields |
| `AdaptivePolicies.DefaultRanges` | core/adaptive_policy.py:25-89 | With default settings the ratio lies in [0.3, 1.0], memory in [2400, 8000] and the bias in {0, 0.5, 1, 1.5} |
| `AdaptivePolicies.DefaultPolicy` | core/adaptive_policy.py:25-89 | With default settings each field in terms of the signals, with the thresholds and discounts as numbers |
| `AdaptivePolicies.LimitsBind` | core/adaptive_policy.py:84-89 | A configured limit that binds replaces the field it limits and nothing else |
| `AdaptivePolicies.DefaultBudget` | core/cognitive_budget.py:10-17 | The budget that a default policy gives, in terms of the signals |
| `AdaptivePolicies.BudgetAntitone` | core/cognitive_budget.py:10-17 | A tighter policy never gets a larger cognitive budget |
| `AdaptivePolicies.WorseSignalsNeverAllow` | core/policy.py:44-70 | For a fixed crisis, worse signals never turn ESCALATE into ALLOW |
| `AdaptivePolicies.EvaluateMonotone` | core/policy.py:44-70 | More bias never turns ESCALATE into ALLOW, and the answer is never DENY |
| `AdaptivePolicies.AllowedExactly` | core/policy.py:44-70 | Exactly which level, crisis, session bias and extra bias are allowed |
| `AdaptivePolicies.PolicyEngine.ActivateCrisisIfNeeded` | core/policy.py:31-42 | The active crisis becomes an infrastructure crisis on an open critical incident, else a financial one below three months of runway, else none |
| `AdaptivePolicies.AllowedWhenDetected` | core/policy.py:31-70 | In a detected crisis exactly the actions up to level 1 are allowed, or up to 2 with an open critical incident, the bias added in whole units |
| `ToolReliability.RoundedMeanError` | core/tool_reliability.py:67-69 | A mean rounded at every step is within unit * (n + 1) / 4 of the exact one |
| `ToolReliability.StoredMeansError` | core/tool_reliability.py:49-92 | Stored rates are within 0.00005 * (n + 1) / 2 and latency within 0.005 * (n + 1) / 2 of the exact means |
| `ToolReliability.ScoresInRange` | core/tool_reliability.py:11-27 | Every confidence score of a run lies in [0, 0.95] |
| `ToolReliability.ScoreCosts` | core/tool_reliability.py:11-27 | What lost success, timeouts, unstable replay, drift and latency each cost a perfect score |
| `ToolReliability.ScoreMonotone` | core/tool_reliability.py:11-27 | More success, fewer timeouts and less latency never lower the score before rounding |
| `ToolReliability.UpdateMeans` | core/tool_reliability.py:49-92 | One result stores the means and the score rounded to their digits, and the band that the threshold of the previous band decides |
| `ToolReliability.NoFlapping` | core/tool_reliability.py:30-45 | k switches of the routing band cost at least (k - 1) * (exit - enter) of total variation of the score |
| `ToolReliability.DefaultFlapping` | core/tool_reliability.py:30-45 | With the configured thresholds that is 0.12 a switch |
| `ToolReliability.OneTimeoutDegrades` | core/tool_reliability.py:49-92 | A single failed call that timed out leaves a tool DEGRADED at confidence 0.4 |
| `ToolReliability.HalfUpIsValid` | core/tool_reliability.py:67-69 | Rounding half up is a rounding of the kind the other results assume |
| `ContextPriority.SelectLayers` | core/context_priority.py:42-70 | Drops the first m layers of the drop order, with m the first number (at least one) after which the rest fits or nothing droppable is left |
| `ContextPriority.DropsCheapestFirst` | core/context_priority.py:54-70 | L1 and L2 stay, no dropped layer outranks a kept one, and with two or more dropped the last one would not have fitted |
| `ContextPriority.CompositeOrder` | core/context_priority.py:19-39 | Whatever the utilization and age, layers go in the order L5, L4, L3 |
| `ContextPriority.PriorityCosts` | core/context_priority.py:19-39 | What each layer loses against a governed one, whatever the utilization and age; a key is governed when it names a governance source in any case |
| `ContextWindows.BuildContext` | core/context.py:42-83 | The layers stay within `max_tokens`, and the report equals the sum over L1 to L4, if and only if layer L1 leaves something; exactly when L3, L4 and L5 are included, and how far they are cut |

## Left out

- LLM calls, MCP, HTTP, Redis, JWT, OpenTelemetry and the UI: arbitrary oracles or absent.
- Binary floating point: means, scores and ratios are reals; SHA-256 collisions are excluded.
- JSON lone surrogates, NaN and infinities; enum payload values stand as scalars.
- Role tables, permission tables and the preprocessor keywords: finite tables.
- Payload bodies of decisions, adaptive policies, context priorities and reliability updates: arbitrary; only their event types are tracked.
- Span starts of the orchestrator: made as in the code, but a run's contract does not name its spans; SpanDelivery does.
- `mark_event_processed`, and the policy check of prepare and execute: `evaluate` never answers DENY.
- Telemetry, prompt lineage, anomalies, diagnostics, adaptive snapshots and stability events: written in the same calls, read by no replay.
- World state versions and updates: `update_world` is used by no modelled caller.
- The layers `select_layers` keeps for a prompt: they do not reach the budget decision of a delegation.
- Several requests in one session: the replay refuses their joint log, so whole runs need fresh session ids.
- The frozen tool sequence as a record of execution: snapshots carry cumulative results and the CTO's step 0 replaces the CEO's.
- The persisted EXPIRED status on Postgres: the raise that follows rolls it back; the model is the in-memory status.
- The unique action hash of the Postgres approvals table, which refuses a second approval of the same action and agent.
- Retry traces on Postgres: upserted by agent and step where memory appends; the backend agreement does not cover them.
- Span end status: an ended span that was drained earlier is not updated in Postgres.
- `hashtext` collisions between session ids: they only refuse more requests.
- Negative replay steps and limits of the Postgres query; the in-memory batch limit is any integer.
- `PolicyEngine.approve`, diagnostics, timelines and session lists: they would only add easy members.
- OutboxWorkers.EachRowOnce: a batch selects its rows in one step, so rows that Postgres rechecks after a concurrent commit only shrink a batch.
- The router inside an approved execution: it re-evaluates policy and may answer WAITING_APPROVAL without running the handler; the model counts calls of the router.
- Approvals.ToolRunsAtMostOnce: preparing takes no lock in the model, because its id is a fresh uuid.
