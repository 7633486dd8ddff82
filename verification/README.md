# Verified model of the engine's turn lifecycle

This project models, in Dafny 4.11, how the engine turns bursts of inbound messages into
serialized, cancellable pipeline runs, what each run may commit, and a few smaller algorithms
around it, and proves properties of that model for every input, every interleaving or every
sequence of calls. `dafny verify dfyconfig.toml` checks all of it.

| file | models |
|---|---|
| CoordinatorModel.dfy, CoordinatorProofs.dfy, CoordinatorTheorems.dfy | the per-conversation protocol of the message coordinator: steps, what every step keeps, whole-run theorems |
| MessageCoordinator.dfy | the coordinator's maps and mutable burst state; each method is one step of the protocol on its own conversation |
| IntermediateText.dfy | the stream filters and the buffered reply for text written in tool-calling steps |
| StateBuffer.dfy | the conversation state buffer and its upsert |
| HookRunner.dfy | one round of hooks with deadlines, aborts and abandoned handlers |
| PipelinePost.dfy | what a finished turn may write, for an abort landing anywhere |
| TurnCost.dfy, ResponseReplay.dfy | turn pricing; the replay loop and its folded spend |
| ConversationStore.dfy, ConversationContents.dfy | the stored message counters and the operations that move them; where each message and row is after any run |
| Permissions.dfy, RoleBinding.dfy | role levels, the permission matrix, role assignment and removal |
| PerAgentTables.dfy | the foreign-key closure |
| ActivityBus.dfy, ActivityFeeds.dfy | bus replay and dispatch; connection accounting |
| SplitMessage.dfy | splitting a message at a channel's limit |

Each imperative method is proved against a specification function or states its result outright;
the theorems are lemmas about those functions. Event-driven code is a total step function, so
"every run" is every sequence of events.

## What does not hold, and exactly when

- **A burst can be stranded.** When the handler fails with an error that looks like an abort
  although nobody aborted its signal, the coordinator restores the fragments but arms no timer
  (`message-coordinator.ts:345`). `CoordinatorTheorems.StrandedExactly` proves that a burst is
  stranded if and only if this happened with no timer armed and no live run queued, and no
  fragment has arrived since; `FinishesUnlessStranded` proves that every other reachable state can
  finish without another fragment. The same error adds a handler call that no restart paid for, so
  the bound on handler calls carries a term for it; `RestartBoundReached` shows that the bound is
  reached for every cap and every number of such errors.
- **A subscriber can miss events.** The bus comment says a throwing listener affects the producer;
  the emitter also stops calling the listeners registered after it. `ActivityBus.SubscriberSeesHistory`
  proves that a subscriber sees a gap-free history if and only if no handler registered before it
  threw on an event.
- **Counters are wrong once a row adopts stored messages.** The schema permits messages under an id
  that has no conversation row. `ConversationStore.CountersKept` proves that an operation keeps every
  stored counter right if and only if it neither creates a row for, nor moves one onto, an id that
  already has messages; `CountersThroughout` proves the same over any run, and `LateEnsureMiscounts`
  is the two-step run. The analytics filter drops a message exactly when such a row adopts one newer
  than the last it knows of (`FilterDropsNothing`).
- **`discard` agrees on both paths exactly when** every step but the last called a tool or wrote
  nothing (`IntermediateText.DiscardSameOnBothPaths`).
- **Two flushes commute exactly when** the runs did the same to the keys both changed
  (`StateBuffer.FlushOrder`).

## Assumptions

- The timings resolver of the coordinator never rejects (`channel-manager.ts:86-94`).
- Microtask hops are not preempted in two places: when timings arrive, the waiting messages are
  appended right after the burst is installed; when a run drops its burst, the links queued behind
  it end in the same step. Everywhere else a fragment, timer or gate may come in between, also
  where the code would not let it.
- A flush of the state buffer and each database transaction is one atomic step.
- Money is `real` and times are integers; rounding and clocks are not modelled.

## Model

| member | source | states |
|---|---|---|
| `CoordinatorTheorems.FragmentsConserved` | packages/engine/src/channels/message-coordinator.ts:147-195 | in every reachable state the messages received, in order, are those of the finalized runs, then the running run's, then the buffered, then those waiting for the timings, and every run carries exactly the texts and attachments of its own messages |
| `CoordinatorTheorems.BalanceKept` | packages/engine/src/channels/message-coordinator.ts:379-414 | one step keeps that balance, with the ledger moved as the step moves the fragments |
| `CoordinatorTheorems.SettledFinalizedAll` | packages/engine/src/channels/message-coordinator.ts:405-413 | when no burst is left, every message received was in a finalized run and no handler call is open |
| `CoordinatorTheorems.BurstEndsOnlyWhenDone` | packages/engine/src/channels/message-coordinator.ts:398-414 | a burst is removed only by a run that finalizes, with an empty buffer and no handler running |
| `CoordinatorTheorems.GateAndAbortExclude` | packages/engine/src/channels/message-coordinator.ts:178-185 | whatever is interleaved, a run whose tool gate answered true is never aborted later, and an aborted run's gate never answers true |
| `CoordinatorProofs.GatesKept` | packages/engine/src/channels/message-coordinator.ts:314-324 | each step keeps gated and aborted runs disjoint, and shields a gated run that a fragment could still reach, also when a queued run replaced it as current |
| `CoordinatorTheorems.FragmentCancels` | packages/engine/src/channels/message-coordinator.ts:176-192 | a fragment aborts at most the newest run, and that one, while it is live, exactly if restarts are left and no tool shields it; one that leaves a live run alone arms no timer |
| `CoordinatorProofs.ControlledKept` | packages/engine/src/channels/message-coordinator.ts:379-399 | in every step the current controller is the newest run's for as long as that run is queued or in progress and not aborted |
| `CoordinatorTheorems.MarkedExactly` | packages/engine/src/channels/message-coordinator.ts:314-324 | the burst is shielded exactly since its current run's gate answered true, until a run starts or is finalized |
| `CoordinatorTheorems.RunsStartInTurn` | packages/engine/src/channels/message-coordinator.ts:281-293 | handlers are called in the order the timers created their runs |
| `CoordinatorTheorems.HandlerEnds` | packages/engine/src/channels/message-coordinator.ts:341-376 | an aborted run is restored whatever it returned, with nothing sent or finalized; a live one sends its text or is finalized with its own batch, unless its error looks like an abort |
| `CoordinatorProofs.SafeAlways` | packages/engine/src/channels/message-coordinator.ts:281-331 | in every reachable state: distinct queued runs, a current controller that is queued or running and not aborted, one handler at most, gates and restart accounting |
| `CoordinatorTheorems.RestartsBounded` | packages/engine/src/channels/message-coordinator.ts:178-185 | at most one handler call in flight; since the last finalization at most maxRestarts aborts and at most maxRestarts + 1 handler calls beyond those lost to spurious aborts |
| `CoordinatorTheorems.RestartBoundReached` | packages/engine/src/channels/message-coordinator.ts:344-348 | for every cap and every number of spurious aborts there is a run that reaches that bound on calls |
| `CoordinatorTheorems.StrandedExactly` | packages/engine/src/channels/message-coordinator.ts:292-313 | a burst has no armed timer and no live run if and only if the handler failed abort-like on a live signal with nothing scheduled, and no fragment came since |
| `CoordinatorTheorems.StrandedStep` | packages/engine/src/channels/message-coordinator.ts:176-192 | the same, step by step: which events strand a burst and that only a fragment frees it |
| `CoordinatorTheorems.StrandedExample` | packages/engine/src/channels/message-coordinator.ts:119-122 | the run that strands a burst, for every restart cap |
| `CoordinatorTheorems.FinishesUnlessStranded` | packages/engine/src/channels/message-coordinator.ts:249-254 | from a reachable state the conversation can finish without a new fragment if and only if it is not stranded |
| `CoordinatorTheorems.FinalizedIsRunning` | packages/engine/src/channels/message-coordinator.ts:305-312 | a queued link of an installed burst never finds an empty buffer; only a run past its handler is finalized |
| `MessageCoordinator.Coordinator.OnMessage` | packages/engine/src/channels/message-coordinator.ts:147-195 | start, wait for the start, or append and cancel or re-arm; other conversations untouched |
| `MessageCoordinator.Coordinator.TimingsResolved` | packages/engine/src/channels/message-coordinator.ts:219-247 | install the burst, then the waiting messages in arrival order |
| `MessageCoordinator.Coordinator.OnPipelineTimer` | packages/engine/src/channels/message-coordinator.ts:281-292 | a fresh controller becomes current and its link joins the chain |
| `MessageCoordinator.Coordinator.LinkStarts` | packages/engine/src/channels/message-coordinator.ts:293-327 | skip if superseded, else snapshot and clear the buffer and call the handler |
| `MessageCoordinator.Coordinator.ToolGate` | packages/engine/src/channels/message-coordinator.ts:320-324 | answers false exactly to an aborted run, and marks the burst when the run is current |
| `MessageCoordinator.Coordinator.HandlerReturned` | packages/engine/src/channels/message-coordinator.ts:354-376 | restore if aborted meanwhile, else send or finalize |
| `MessageCoordinator.Coordinator.HandlerThrew` | packages/engine/src/channels/message-coordinator.ts:344-352 | restore on an abort or an abort-like error, else finalize |
| `MessageCoordinator.Coordinator.SendEnded` | packages/engine/src/channels/message-coordinator.ts:360-376 | finalize whether or not the send failed, and although the run was aborted while sending |
| `MessageCoordinator.Coordinator.RestoreOnAbort` | packages/engine/src/channels/message-coordinator.ts:379-391 | fragments and attachments go back to the head of the buffer |
| `MessageCoordinator.Coordinator.FinalizePipeline` | packages/engine/src/channels/message-coordinator.ts:398-414 | reset the burst, then re-arm for what accumulated or drop it |
| `IntermediateText.DiscardSameOnBothPaths` | packages/engine/src/ai-gateway/intermediate-text.ts:15-17 | for every turn, finished, cut between steps or cut inside one, stream and buffer deliver the same text under discard if and only if every step but the last called a tool or wrote nothing |
| `IntermediateText.DiscardDelivers` | packages/engine/src/ai-gateway/intermediate-text.ts:62-67 | for every turn, however its stream ends: the text of earlier steps without a tool call, then the last step's text, tool call or not |
| `IntermediateText.DiscardedTurn` | packages/engine/src/ai-gateway/intermediate-text.ts:88-122 | the whole output on every turn: each step's other parts at once and its text at its end unless it called a tool; the last step's withheld text before the finish part, or at the end of a stream cut short |
| `IntermediateText.DiscardOnAnyStream` | packages/engine/src/ai-gateway/intermediate-text.ts:88-122 | on any stream non-text parts pass unchanged in order, and the text parts let through are a subsequence of the source's |
| `IntermediateText.DiscardToolStepText` | packages/engine/src/ai-gateway/intermediate-text.ts:88-122 | the loop computes that filter |
| `IntermediateText.ReplySameOnBothPaths` | packages/engine/src/ai-gateway/intermediate-text.ts:37-51 | for every turn the separated deltas are the joined step texts the buffered reply carries |
| `IntermediateText.SeparatedOnAnyStream` | packages/engine/src/ai-gateway/intermediate-text.ts:124-140 | on any stream the deltas are the joined texts between step boundaries and end with the last of them |
| `IntermediateText.SeparatedWhole` | packages/engine/src/ai-gateway/intermediate-text.ts:124-140 | the whole output on every stream: every part unchanged and in order, and a separator exactly before a delta with words whose last words before it lie before a step boundary |
| `IntermediateText.SeparatedNonText` | packages/engine/src/ai-gateway/intermediate-text.ts:138-138 | every part that is no text passes unchanged and in order |
| `IntermediateText.PolicyOnBothPaths` | packages/engine/src/ai-gateway/intermediate-text.ts:45-86 | what each policy makes of a turn on a stream against the buffered reply; an unset policy passes the stream through and replies with the last step |
| `IntermediateText.ApplyIntermediateTextPolicy` | packages/engine/src/ai-gateway/intermediate-text.ts:74-86 | the policy picks the filter |
| `IntermediateText.ProgressEndsWithReply` | packages/engine/src/ai-gateway/intermediate-text.ts:68-72 | under progress the buffered reply is a suffix of what was streamed |
| `IntermediateText.SeparateStepTexts` | packages/engine/src/ai-gateway/intermediate-text.ts:124-140 | the loop computes that separation |
| `IntermediateText.TextDeltas` | packages/engine/src/ai-gateway/intermediate-text.ts:142-148 | the non-empty text deltas of a stream, in order |
| `StateBuffer.BufferRefinesDirectWrites` | packages/engine/src/conversations/state.buffer.ts:86-93 | after any writes and flushes the marks are consistent and a flush leaves stored what the writes make of the loaded blob, fresh row or not |
| `StateBuffer.ApplyTracks` | packages/engine/src/conversations/state.buffer.ts:121-157 | each write keeps unmarked keys as stored and is the write made directly |
| `StateBuffer.LastWriteWins` | packages/engine/src/conversations/state.buffer.ts:121-157 | a key holds what its last write left: its value, nothing, or what was there if the write was refused |
| `StateBuffer.UnnamedKeysStay` | packages/engine/src/conversations/state.buffer.ts:121-157 | a key no write names holds what it held |
| `StateBuffer.MarksOfWrite` | packages/engine/src/conversations/state.buffer.ts:116-157 | an identity already there, an absent key and a refused write mark nothing; any other write marks its key |
| `StateBuffer.FlushOrder` | packages/engine/src/conversations/state.store.ts:34-37 | two runs leave the same row in either flush order if and only if they did the same to the keys both changed |
| `StateBuffer.ConcurrentRunsCommute` | packages/engine/src/conversations/state.store.ts:31-72 | two runs that loaded one row and wrote disjoint keys store the same row whoever flushes first |
| `StateBuffer.DisjointRunsCommute` | packages/engine/src/conversations/state.store.ts:52-71 | neither run's written or removed keys are lost to the other's flush |
| `StateBuffer.StateStore.FlushConversationState` | packages/engine/src/conversations/state.store.ts:41-72 | merge then remove, one key at a time; a fresh row is the changed keys; no-op when nothing changed |
| `StateBuffer.ConversationStateBuffer.Set` | packages/engine/src/conversations/state.buffer.ts:138-150 | stores and marks, or refuses an unserializable or oversized write and changes nothing |
| `StateBuffer.ConversationStateBuffer.Delete` | packages/engine/src/conversations/state.buffer.ts:152-157 | removes and marks a present key |
| `StateBuffer.ConversationStateBuffer.SeedChannel` | packages/engine/src/conversations/state.buffer.ts:121-127 | writes the channel identity only when it differs |
| `StateBuffer.ConversationStateBuffer.Flush` | packages/engine/src/conversations/state.buffer.ts:185-192 | upserts the marked keys and clears the marks |
| `HookRunner.AbandonedHooksAreInert` | packages/engine/src/hooks/hook-runner.ts:109-131 | for any events, the round ends as if no hook abandoned by its deadline or by the abort had written or returned anything afterwards |
| `HookRunner.StateIsLiveWrites` | packages/engine/src/hooks/hook-runner.ts:132-154 | the state holds exactly the fold of the writes made while the writer's signal was live |
| `HookRunner.ExpiredHookDoesNothing` | packages/engine/src/hooks/hook-runner.ts:119-124 | after its deadline passes, what a hook writes or returns makes no difference to the rest of the round |
| `HookRunner.NothingAfterAbort` | packages/engine/src/hooks/hook-runner.ts:178-205 | after the pipeline aborts the state does not change, no halt is captured and no further hook starts |
| `HookRunner.SummariesInOrder` | packages/engine/src/hooks/hook-runner.ts:178-259 | the summaries are those of a prefix of the known hooks in order, and only the last can carry a halt |
| `HookRunner.AllHooksRun` | packages/engine/src/hooks/hook-runner.ts:178-259 | a round that ended without an abort and without a halt has run every known hook |
| `HookRunner.RoundGoesOn` | packages/engine/src/hooks/hook-runner.ts:178-184 | a round starts at the first known hook and only the end of the awaited one moves it: to the next known hook, unless it halted, the pipeline was aborted or none is left |
| `HookRunner.SummariesRecord` | packages/engine/src/hooks/hook-runner.ts:206-257 | each summary carries how its hook ended, no success after a deadline, and a halt exactly if the hook had returned one while live |
| `HookRunner.SignalsExactly` | packages/engine/src/hooks/hook-runner.ts:196-205 | a hook's signal fires exactly by its own deadline or the pipeline's abort |
| `HookRunner.RoundState` | packages/engine/src/hooks/hook-runner.ts:132-154 | the round's state is the fold of the live writes over the buffer it began with |
| `HookRunner.HookRun.FencedWrite` | packages/engine/src/hooks/hook-runner.ts:141-154 | a write passes exactly while its hook's signal is live |
| `HookRunner.HookRun.Capture` | packages/engine/src/hooks/actions/function-action.ts:82-93 | a returned halt is captured exactly while its hook's signal is live |
| `HookRunner.HookRun.Settled` | packages/engine/src/hooks/hook-runner.ts:206-257 | record the awaited hook, then stop on its halt or go on |
| `HookRunner.HookRun.Expired` | packages/engine/src/hooks/hook-runner.ts:119-130 | the deadline aborts the hook's signal and records it as failed |
| `PipelinePost.RunPipelinePost` | packages/engine/src/pipeline.ts:723-870 | for every point an abort lands and both values of persist: what is written to trace, state, messages and context prompt, and when nothing is |
| `PipelinePost.StoredIsLiveWrites` | packages/engine/src/pipeline.ts:740-867 | the stored state is what all live writes of both rounds, in order, make of the run's own state, up to the last flush that worked; a round run before by the replay loop writes nothing again |
| `PipelinePost.WritesOfTurn` | packages/engine/src/pipeline.ts:745-755 | a live round's writes count once; a round run before by the replay loop adds none of its own |
| `PipelinePost.Deliver` | packages/engine/src/pipeline.ts:813-870 | past the third gate: the messages, then the response_sent hooks and the second flush |
| `PipelinePost.TryFlush` | packages/engine/src/pipeline.ts:803-809 | a failed flush leaves the row and the marks for the next one |
| `TurnCost.TurnCostsItsCalls` | packages/engine/src/ai-gateway/config.ts:325-361 | a reported turn of well-formed calls costs exactly the sum of its calls, by whichever way it is priced |
| `TurnCost.LinearPricing` | packages/engine/src/ai-gateway/config.ts:329-331 | without prompt-length rates and fast calls, pricing the summed usage equals the sum of the prices |
| `TurnCost.TotalNeverBelowCalls` | packages/engine/src/ai-gateway/config.ts:325-349 | for long rates at least the base rates, pricing the total is never below the sum of the calls |
| `TurnCost.ThresholdGap` | packages/engine/src/ai-gateway/config.ts:226-229 | two calls under the threshold whose sum is over it are priced strictly apart |
| `TurnCost.MalformedUsageBreaksShortcut` | packages/engine/src/ai-gateway/config.ts:292-297 | cached tokens beyond the prompt of one call break the shortcut |
| `TurnCost.CostIsCorrectedFullPrice` | packages/engine/src/ai-gateway/config.ts:232-247 | a call costs its prompt at the input rate, corrected per cached bucket by the difference of rates |
| `TurnCost.RatesByPromptLength` | packages/engine/src/ai-gateway/config.ts:226-229 | over the threshold a call costs what it would at a model with only the long rates, at or below it what it would with only the base rates |
| `TurnCost.PartsOfCall` | packages/engine/src/ai-gateway/config.ts:239-315 | each part of a call's price apart, for any usage: cached tokens at their own or the input rate, 5-minute writes capped at all writes, the rest of the prompt at the input rate |
| `TurnCost.TurnPricedBy` | packages/engine/src/ai-gateway/config.ts:348-360 | for any usage each part of a turn's price is summed over its reported calls when the model has long rates or a call ran fast, and taken from its total otherwise |
| `TurnCost.UnknownIsFree` | packages/engine/src/ai-gateway/config.ts:285-286 | a model that is not in the catalog costs nothing |
| `TurnCost.FastMultiplies` | packages/engine/src/ai-gateway/config.ts:287-290 | fast mode multiplies every part of a call's price, by one when no multiplier is catalogued |
| `TurnCost.TurnAddsUp` | packages/engine/src/ai-gateway/config.ts:307-315 | however priced: total = input + cache + output, cache = read + write, no part negative |
| `TurnCost.EstimateTurnCostBreakdown` | packages/engine/src/ai-gateway/config.ts:336-361 | the loop and its shortcut compute the turn price |
| `ResponseReplay.GenerateWithReplay` | packages/engine/src/hooks/response-replay.ts:92-113 | at most maxRegenerations + 1 passes, each asked for by the one before; a pending request only at the cap or on abort, and then the raw last output |
| `ResponseReplay.TotalIsSum` | packages/engine/src/hooks/response-replay.ts:32-76 | every count of the folded spend is the sum over the passes, and an optional part is absent only if every pass left it out |
| `ResponseReplay.CostsByPart` | packages/engine/src/hooks/response-replay.ts:63-75 | the folded cost sums each of its parts |
| `ResponseReplay.TotalAddsUp` | packages/engine/src/hooks/response-replay.ts:63-75 | the fold keeps the cost adding up and 5-minute writes within the writes |
| `ConversationStore.CountersKept` | packages/engine/src/conversations/store.ts:379-442 | an operation keeps every messageCount, userMessageCount and lastMessageAt right if and only if no row comes to stand for messages stored under its id before |
| `ConversationStore.TalliesKept` | packages/engine/src/conversations/store.ts:1140-1174 | the counts alone, for each operation: kept exactly by those that adopt nothing |
| `ConversationStore.TimesKept` | packages/engine/src/conversations/store.ts:430-439 | lastMessageAt alone: kept exactly by those that adopt nothing newer than it |
| `ConversationStore.DriftKept` | packages/engine/src/conversations/store.ts:421-439 | right or wrong, the counters move with the rows: appending and replacing leave them as far off as they were |
| `ConversationContents.StoredExactly` | packages/engine/src/conversations/store.ts:379-1342 | over any run a message is stored if and only if it was appended or inserted as a summary and not replaced or deleted since |
| `ConversationContents.StoredWhereFollowed` | packages/engine/src/conversations/store.ts:1219-1232 | a message is stored exactly under the id its conversation was last renamed to, and under no other |
| `ConversationContents.RowsAfter` | packages/engine/src/conversations/store.ts:349-376 | which conversations have a row after each operation, and what the row says besides its counters |
| `ConversationContents.LastMoves` | packages/engine/src/conversations/store.ts:422-438 | lastMessageAt moves only to the time of a message just stored |
| `ConversationStore.CountersThroughout` | packages/engine/src/conversations/store.ts:349-442 | over any run of ensure, append, replace, rename and delete the counters are right throughout if and only if no operation adopts stored messages |
| `ConversationStore.LateEnsureMiscounts` | packages/engine/src/conversations/store.ts:359-373 | a message appended before its conversation is created is never counted |
| `ConversationStore.UniqueIdsKept` | packages/engine/src/conversations/store.ts:1219-1232 | every operation keeps message ids unique across conversations |
| `ConversationStore.FilterDropsNothing` | packages/engine/src/analytics/analytics.store.ts:152-159 | throughout any run the last-message filter drops no message of any window if and only if no row adopts a message newer than the last it knows of |
| `ConversationStore.ConversationStore.AppendMessages` | packages/engine/src/conversations/store.ts:379-442 | rows in and counters moved in one transaction |
| `ConversationStore.ConversationStore.ReplaceOldestMessages` | packages/engine/src/conversations/store.ts:1140-1174 | the requested number of oldest rows out, or all there are, one summary in, counters moved by the difference |
| `ConversationStore.SelectionExists` | packages/engine/src/conversations/store.ts:1144-1149 | ordering by creation time always yields that many oldest rows |
| `ConversationStore.ConversationStore.RenameConversation` | packages/engine/src/conversations/store.ts:1219-1282 | rows and messages move together, refused onto another conversation or out of tenant |
| `ConversationStore.ConversationStore.DeleteConversation` | packages/engine/src/conversations/store.ts:1284-1342 | row and messages go together |
| `ConversationStore.ConversationStore.EnsureConversation` | packages/engine/src/conversations/store.ts:349-376 | creates a missing row with its defaults, else updates channel, user identifier and a non-empty context prompt, and says which |
| `RoleBinding.OwnerRemains` | packages/engine/src/authz/role-binding.service.ts:43-55 | after any calls by anyone an organization that had an Owner has one |
| `RoleBinding.NoEscalation` | packages/engine/src/authz/role-binding.service.ts:119-135 | actors that start below a level and are no platform admins never change who is at or above it |
| `RoleBinding.GrantsOnlyOwnPermissions` | packages/engine/src/authz/role-binding.service.ts:146-151 | a granted role carries only permissions the actor's own role has |
| `RoleBinding.AssignAccepted` | packages/engine/src/authz/role-binding.service.ts:64-94 | an assignment is accepted exactly for a provisioned system role and a target within the actor's reach that leaves an Owner, and binds that role |
| `RoleBinding.RemoveAccepted` | packages/engine/src/authz/role-binding.service.ts:97-117 | a removal is accepted exactly for someone else within the actor's reach who is not the sole Owner, leaves that user without a role and everyone else unchanged |
| `RoleBinding.RefusalNamesFirst` | packages/engine/src/authz/role-binding.service.ts:136-190 | a refused call names the first check that fails |
| `RoleBinding.OwnershipTransfers` | packages/engine/src/authz/role-binding.service.ts:172-190 | an Owner can appoint another and then step down, and not the other way round |
| `RoleBinding.PlatformAdminBootstraps` | packages/engine/src/authz/role-binding.service.ts:129-145 | a platform admin without a role can appoint the first Owner |
| `RoleBinding.RoleBindingService.AssignMemberRole` | packages/engine/src/authz/role-binding.service.ts:64-94 | the checks in order, the error of the first that fails, or the binding set |
| `RoleBinding.RoleBindingService.RemoveMember` | packages/engine/src/authz/role-binding.service.ts:97-117 | the same for a removal, self-removal refused first |
| `Permissions.LevelsOrderPermissions` | packages/engine/src/authz/permissions.ts:60-155 | a role's level is at most another's if and only if its permissions are among the other's |
| `PerAgentTables.PerAgentTables` | packages/engine/src/database/per-agent-tables.ts:43-63 | returns exactly the tables with a foreign-key path to a seed, for any cyclic schema and iteration order |
| `PerAgentTables.PerAgentIsLeast` | packages/engine/src/database/per-agent-tables.ts:38-42 | having such a path is the least property the seeds have and foreign keys pass on |
| `PerAgentTables.Sweep` | packages/engine/src/database/per-agent-tables.ts:51-61 | a sweep adds only reachable tables and reports growth exactly when it added one |
| `ActivityBus.SubscriberSeesHistory` | packages/engine/src/activity-stream/activity-bus.ts:66-83 | a subscriber sees a gap-free run of the history from at most 100 events back if and only if no handler registered before it threw on an event |
| `ActivityBus.EmitReaches` | packages/engine/src/activity-stream/activity-bus.ts:58-64 | a listener is given a live event exactly when none registered before it throws on it |
| `ActivityBus.ReachedIs` | packages/engine/src/activity-stream/activity-bus.ts:58-64 | a listener is called for an event exactly when none registered before it throws on it |
| `ActivityBus.HistoryIsEmitted` | packages/engine/src/activity-stream/activity-bus.ts:58-64 | the history is every event emitted, in order, whatever the listeners do |
| `ActivityBus.ListenersInOrder` | packages/engine/src/activity-stream/activity-bus.ts:84-87 | the listeners are those who subscribed and did not unsubscribe since, in the order they subscribed |
| `ActivityBus.LeaversHearNothing` | packages/engine/src/activity-stream/activity-bus.ts:85-87 | one who unsubscribed is given nothing more |
| `ActivityBus.ThrowingListenerHidesEvent` | packages/engine/src/activity-stream/activity-bus.ts:22-25 | a second subscriber misses an event the first throws on |
| `ActivityBus.ActivityBus.EmitEvent` | packages/engine/src/activity-stream/activity-bus.ts:58-64 | buffer the event, keep the last 100, call the listeners in order until one throws |
| `ActivityBus.ActivityBus.Subscribe` | packages/engine/src/activity-stream/activity-bus.ts:73-88 | replay the buffer, then listen |
| `ActivityFeeds.FeedRegistry.OpenFeed` | packages/engine/src/activity-stream/activity-stream.controller.ts:122-146 | a slot is taken unless the user is at the cap; the counters equal the open feeds |
| `ActivityFeeds.FeedRegistry.WriteFails` | packages/engine/src/activity-stream/activity-stream.controller.ts:161-176 | a failed write closes the feed, which still owes its teardown |
| `ActivityFeeds.TeardownKeepsRegistry` | packages/engine/src/activity-stream/activity-stream.controller.ts:220-250 | a teardown keeps the counters equal to the open feeds, changes nothing when repeated, and ends each response exactly once unless a write to it failed |
| `ActivityFeeds.OpenTakesSlot` | packages/engine/src/activity-stream/activity-stream.controller.ts:132-146 | an accepted feed is open, with one more connection in all and one more of its user, and nothing else changed |
| `ActivityFeeds.TeardownFreesSlot` | packages/engine/src/activity-stream/activity-stream.controller.ts:209-250 | tearing an open feed down gives back exactly its slot and its user's count |
| `ActivityFeeds.FailClosesFeed` | packages/engine/src/activity-stream/activity-stream.controller.ts:166-176 | a failed write closes the feed, once, and gives nothing back |
| `ActivityFeeds.FeedRegistry.Teardown` | packages/engine/src/activity-stream/activity-stream.controller.ts:233-250 | releases a slot once however often it runs |
| `ActivityFeeds.FeedRegistry.DecrementCounters` | packages/engine/src/activity-stream/activity-stream.controller.ts:209-218 | counts down once, and drops a user's entry instead of keeping a zero |
| `ActivityFeeds.FeedRegistry.CloseActivityStreams` | packages/engine/src/activity-stream/activity-stream.controller.ts:63-72 | closes every open feed, returns how many, and leaves the counters empty |
| `ActivityFeeds.OpenKeepsCounts` | packages/engine/src/activity-stream/activity-stream.controller.ts:132-146 | an open keeps each user's count equal to that user's open feeds |
| `ActivityFeeds.CloseKeepsCounts` | packages/engine/src/activity-stream/activity-stream.controller.ts:209-218 | a close keeps it too, with no zero entries |
| `ActivityFeeds.OpenKeepsCaps` | packages/engine/src/activity-stream/activity-stream.controller.ts:133-144 | no user passes a cap that bounds the caps of every connection |
| `SplitMessage.SplitLosesOnlySpace` | packages/engine/src/channels/split-message.ts:20-26 | the text is the chunks in order with only white space removed at the seams |
| `SplitMessage.SplitFits` | packages/engine/src/channels/split-message.ts:8-30 | every chunk fits the limit |
| `SplitMessage.EmptyChunks` | packages/engine/src/channels/split-message.ts:12-27 | only the first chunk can be empty: for an empty text, or exactly when a longer one has only white space before its first cut |
| `SplitMessage.CutPrefersBreaks` | packages/engine/src/channels/split-message.ts:20-23 | a cut is at the last paragraph break within the limit, else at the last line break within it, else at the limit |
| `SplitMessage.SeamsTrimmed` | packages/engine/src/channels/split-message.ts:8-27 | a text that fits is left whole; otherwise no chunk but the last ends, and none but the first starts, with white space |
| `SplitMessage.SplitMessage` | packages/engine/src/channels/split-message.ts:8-30 | the loop ends for every positive limit and computes the chunks |

## Left out

- Typing indicator (typingTimer, typingSent, lastSid) and the metadata of the seed message: they never influence which run gets which fragments.
- `shutdown` of the coordinator: it ends the model.
- Exactly-once persistence of a fragment: between the messages being handed over and the end of the response_sent hooks an abort still restores the fragments, so it does not hold.
- The 64 KiB limit as an invariant of the stored blob: the channel identity is written without the check; the limit is modelled as the guard of each single write.
- The size of a blob and the JSON encoding of values: a parameter of the buffer, and values as their JSON text; JSONB reordering the keys of a stored object is not modelled.
- Keys a plain object inherits from its prototype, which `delete` of the state buffer would also find: not modelled.
- Audit records, telemetry rows and captured arguments of hooks, and the fields of traces and messages other than the text: recorded, never read back by the code modelled.
- `HookRunner.HookRun`: time is the event that a deadline passes; the executor's behaviour is any sequence of events.
- `PipelinePost.RunPipelinePost`: the hooks of its two rounds enter as the writes made while their signal was live (`HookRunner.StateIsLiveWrites`); a run without a state buffer is one whose hooks write nothing.
- Title and summary caches and `BoundedMap`: a recency map; their agreement with rows is not claimed for missing conversations.
- Which of several messages with one creation time `replaceOldestMessages` removes: the database's choice, so the selected rows are an input.
- The tables a rename or a delete moves besides conversations and messages: the same statement repeated per table; `principal_secrets` is deleted but not renamed.
- Workspace-scoped role bindings and the binding cache: not read by the guards.
- The global cap on activity streams: checked before an await, so no invariant.
- Reading the schema files and column names in `perAgentTables`: a schema with its seeds is the input.
- Model catalog rows and regex fallbacks, title cleaning, display formatting, SQL text, provider adapters, encryption and HTTP: data, libraries and I/O.
- Handlers that subscribe, unsubscribe or emit while an event is being dispatched: not part of this model.
- A limit of zero in `splitMessage`: the loop does not end on a non-empty text, and no channel has it.
