# Dreamux verification model

Dreamux hosts long-lived agent processes. This project models the logic of its two runtime
adapters, Codex and Claude Code, and of the shared utilities under them, and proves what that logic
promises.

The asynchronous classes are modelled as step machines: everything between two awaits is one atomic
step, and native replies, notifications, stops and write failures interleave freely. Each machine is
given three times over: as pure steps with their runs (`TurnRecords` and `TurnRuns`,
`CodexLifecycle`, `ClaudeLifecycle`, `ClaudeRequests`, `StoreSteps`), as lemmas about all runs
(`TurnRuns`, `CodexLifecycleSafety` and `CodexStopFinality`, `ClaudeLifecycleSafety` and
`ClaudeSubmissions`, `ClaudeRequestRuns`, `StoreSync` and `StoreAnswers`), and as a class whose
methods update fields in place and are proved to take exactly those steps and to give their callers
what the method is for (`TurnManager`, `CodexRuntime`, `ClaudeRuntime`, `ClaudeStreamRpc`,
`TransactionalStore`). The transformations are functions with their laws, and methods with loops
proved against them.

`JsonSchema` gives the meaning of the schema keywords once (JSON Schema Validation 2020-12, sections
6.1.1, 6.1.2, 6.2.2, 6.2.4, 6.3.1, 6.3.2, 6.4.1, 6.4.2 and 6.5.3; JSON Schema Core 2020-12, sections
10.3.1.2, 10.3.2.1 and 10.3.2.3); the output-schema codec and the command validator are both proved
against it.

`dafny verify dfyconfig.toml` checks the whole project.

## Assumptions about the environment

- Command uuids are fresh: never submitted before, and never named by the native side before.
- The event sink neither throws nor calls back, except that the callbacks of a Claude Code result may
  submit and stop.
- A `turn/start` reply never names a turn whose terminal was seen before that request began; of the
  theorems about turns `OneCompletionPerTurn` and `LateBindingFindsItsCompletion` alone need it.
- Stopping or reaping a child may fail; once it succeeded the child is gone, and a child whose stop
  was requested is never spawned afterwards.
- For the store: no `load()` is in flight when a `create()` commits, and a removal is called with the
  value that a missing file means. `StoreSteps.Orderly` states this; theorems that need it say so.

## What the proofs found

- Codex stop. A failed start cleans up with the stop flag raised and lowers it again afterwards. A
  stop called during that cleanup finds the flag up and leaves the generation alone; the cleanup then
  lowers the flag, and a restart of the same generation that is still under way can go on to create a
  process after the stop has resolved (`packages/agent-runtime/codex/src/runtime.ts:432-435, 501-514,
  593-636`). `CodexStopFinality.StopIsFinalExactly` gives the condition under which a stop is final,
  in both directions, and `CodexStopFinality.OvertakableIsReached` a run that meets the other case.
- Store. `create` does not join a load that is in flight; the load can then put a stale value over the
  created one (`packages/dreamux-utils/src/transactional-store.ts:49-65, 110-135`). Memory stays equal
  to the file in every later run of orderly callers exactly when no load is in flight at the commit:
  `StoreSync.CreateIsSafe`.
- Command validator. `enum` compares with strict equality, so an array or object that an `enum` lists
  is refused (`packages/dreamux/src/command/validate.ts:112`), although the definition check admits
  such an `enum`. `SchemaValidator.CheckMeans` gives the exact condition.
- Path prefix. An occurrence that is not bounded as a head is skipped as a whole, and so are the
  separators after a hit. A head is therefore missed when the prefix overlaps itself behind a character
  that ends a token, or behind `://`; or when trailing separators are stripped and the prefix starts with a
  separator and ends in a character that is no token, in a text that holds it twice in a row
  (`packages/dreamux-utils/src/redaction.ts:282-298`). For all other prefixes none is missed:
  `PathPrefix.HeadsAreRenamedExactly`.
- Claude reasoning. `close` forgets which blocks were completed, so a block that gets text again is
  published and completed a second time
  (`packages/agent-runtime/claude-code/src/reasoning-activity.ts:114-118`).
  `ClaudeReasoningRuns.TracesAreWellFormed` says that this is the only way, and
  `ClaudeReasoningRuns.BlockComesBack` gives a run.
- Codex turns. A completion is kept only while an admission that was in flight at the turn's end still
  is. A reply that names the turn later leaves its submission to a record that no terminal may ever
  complete (`packages/agent-runtime/codex/src/turn-manager.ts:200-222, 257-275`):
  `TurnRuns.StaleReplyIsAnsweredExactly`.

## Model

| member | source | states |
|---|---|---|
| OutputSchemaBijection.RestoreTotalAndSound | packages/agent-runtime/codex/src/output-schema-codec.ts:351-387 | whatever schema the codec accepts, restoring an answer valid under the wire schema never throws and gives a value valid under the source schema |
| OutputSchemaBijection.RestoreOnto | packages/agent-runtime/codex/src/output-schema-codec.ts:139-184 | every value valid under the source schema is what some wire-valid answer restores to, so the wire schema loses none |
| OutputSchemaBijection.RestoreInjective | packages/agent-runtime/codex/src/output-schema-codec.ts:351-387 | two wire-valid answers that restore to the same value are the same answer |
| OutputSchemaBijection.Sound | packages/agent-runtime/codex/src/output-schema-codec.ts:82-205 | the inductive form, for a schema in required or optional position: a wire-valid answer other than an omitted null restores to a source-valid value, and filling that value gives the answer back |
| OutputSchemaBijection.Complete | packages/agent-runtime/codex/src/output-schema-codec.ts:139-184 | filling the absent optional properties of a source-valid value with null gives a wire-valid answer that restores to the value |
| OutputSchemaBijection.HeadMeaning | packages/agent-runtime/codex/src/output-schema-codec.ts:87-125 | the compiled type and enum accept exactly what the source ones accept, plus null in an optional position; null is accepted by the source exactly when `acceptsNull` says so |
| OutputSchemaSupport.CompileAccepts | packages/agent-runtime/codex/src/output-schema-codec.ts:82-349 | the compiler succeeds exactly on the supported keyword subset, described without the order of its checks; an optional property is refused exactly when its schema already has null as an instance |
| OutputSchemaSupport.WireIsStrict | packages/agent-runtime/codex/src/output-schema-codec.ts:172-174 | at every depth each object of the wire schema is closed and requires every property it declares |
| OutputSchemaSupport.WireKeepsDescriptions | packages/agent-runtime/codex/src/output-schema-codec.ts:87-137 | at every depth the wire schema has the description of the source schema, and only that |
| OutputSchemaCodec.RequiredProperties | packages/agent-runtime/codex/src/output-schema-codec.ts:307-334 | the loop gives the set of required names, or the first of a non-string, unknown or repeated entry as its failure |
| OutputSchemaCodec.CompileNumericBounds | packages/agent-runtime/codex/src/output-schema-codec.ts:207-227 | the in-place loop adds exactly the declared bounds and refuses non-numbers and a minimum above the maximum |
| OutputSchemaCodec.CompileSchema | packages/agent-runtime/codex/src/output-schema-codec.ts:82-137 | the in-place compiler computes the compilation that the bijection is proved about, with the same failures |
| OutputSchemaCodec.CompileObject | packages/agent-runtime/codex/src/output-schema-codec.ts:139-184 | the same for objects, whose properties are compiled one after the other in name order |
| OutputSchemaCodec.CompileEntries | packages/agent-runtime/codex/src/output-schema-codec.ts:157-171 | the loop over the sorted names builds the wire properties and the plan entry by entry, stopping at the first schema that is refused |
| OutputSchemaCodec.RestoreValue | packages/agent-runtime/codex/src/output-schema-codec.ts:351-387 | the restoration that edits a copy computes the restoration that the bijection is proved about, with the same failures |
| OutputSchemaCodec.RestoreProperties | packages/agent-runtime/codex/src/output-schema-codec.ts:373-386 | the loop over the plan drops nulls that stand for absence, restores the other planned members and keeps the rest |
| TurnRuns.SubmissionsAccountedFor | packages/agent-runtime/codex/src/turn-manager.ts:200-320 | in every interleaving a submission answered `submitted` is either settled or a member of exactly one record, which has no completion; no settle is attempted twice |
| TurnRuns.StoppedLeavesNothing | packages/agent-runtime/codex/src/turn-manager.ts:94-113 | once stop resolves, then and later, no record is left and every submission answered `submitted` is settled exactly once |
| TurnRuns.RetentionIsBounded | packages/agent-runtime/codex/src/turn-manager.ts:257-320 | a record that has its completion survives only with a non-empty release set of admissions still in flight, and holds no members |
| TurnRuns.OneCompletionPerTurn | packages/agent-runtime/codex/src/turn-manager.ts:200-275 | all submissions a turn completes get one and the same completion, that of the first terminal of the turn |
| TurnRuns.LateBindingFindsItsCompletion | packages/agent-runtime/codex/src/turn-manager.ts:134-158 | a terminal that overtakes the `turn/start` reply is retained for it: the late submission gets that completion, also after a protocol failure or a stop |
| TurnRuns.StaleReplyIsLeftBehind | packages/agent-runtime/codex/src/turn-manager.ts:200-222 | without the promise that a reply never names a turn that ended before its request, a submission can be left unsettled: a concrete run |
| TurnRuns.BindingIsSettledExactly | packages/agent-runtime/codex/src/turn-manager.ts:200-223 | whatever turn a reply names, in every run, its submission is settled at once exactly when that turn's completion is kept, and then with it, or input is refused; it is kept only for a non-empty release set of admissions in flight; otherwise the submission stays with a record that has no completion |
| TurnRuns.StaleReplyIsAnsweredExactly | packages/agent-runtime/codex/src/turn-manager.ts:200-275 | a reply that names a turn already over gets the completion of that turn exactly when some admission in flight when the turn ended is in flight still, in every run that reports the end of a turn once |
| TurnManager.TurnManager.SubmitInput | packages/agent-runtime/codex/src/turn-manager.ts:75-79 | a call joins the decision queue and the pending admissions; records, activity and invariant are kept |
| TurnManager.TurnManager.NextDecision | packages/agent-runtime/codex/src/turn-manager.ts:119-121 | decisions run one at a time; a stopped or failed manager answers at once |
| TurnManager.TurnManager.EffortAnswered | packages/agent-runtime/codex/src/turn-manager.ts:124-135 | an effort that fails, or a stop or failure met meanwhile, decides the call; otherwise exactly one admission is in flight for it |
| TurnManager.TurnManager.StartAnswered | packages/agent-runtime/codex/src/turn-manager.ts:155-158 | the reply binds the submission, releases the admission and decides the call `submitted`, keeping every invariant |
| TurnManager.TurnManager.StartRejected | packages/agent-runtime/codex/src/turn-manager.ts:145-153 | a failed request releases its admission, so no completed record waits for it any more, and is answered `ambiguous` |
| TurnManager.TurnManager.BindSubmission | packages/agent-runtime/codex/src/turn-manager.ts:200-223 | the submission gets the retained completion, else the stop, else the failure, else joins the record |
| TurnManager.TurnManager.ReleaseCompletedRecords | packages/agent-runtime/codex/src/turn-manager.ts:305-320 | exactly the completed records whose release set becomes empty go, with their item buffers |
| TurnManager.TurnManager.ObserveTerminal | packages/agent-runtime/codex/src/turn-manager.ts:225-275 | the first terminal of a turn settles every member once with what the terminal answers: its own error if the turn broke, else its last agent message, restored where there is an output schema; no part of the turn is open when its end is reported, as failed, interrupted or completed; a result is published unless the terminal was an interrupt |
| TurnManager.TurnManager.FailProtocol | packages/agent-runtime/codex/src/turn-manager.ts:277-303 | every member of a record without a completion is settled with the first failure; the open parts are completed bare, and one failed end is reported at the first failure and none later |
| TurnManager.TurnManager.OnReasoningDelta | packages/agent-runtime/codex/src/events.ts:99-114 | a live delta is streamed word for word and alone, unless it is empty or from the other carrier; one for a turn already reported as ended is dropped |
| TurnManager.TurnManager.OnItemCompleted | packages/agent-runtime/codex/src/events.ts:119-129 | an item of an ended turn is dropped; any other is appended to the buffer of its turn, and a reasoning item publishes its snapshot and leaves no part of it open |
| TurnManager.TurnManager.OnTurnCompleted | packages/agent-runtime/codex/src/events.ts:130-148 | a terminal is reported once and its members are answered: with its message when the notification carries an error, else from the buffered items or else those of the notification; a repeated one changes nothing |
| TurnManager.TurnManager.OnError | packages/agent-runtime/codex/src/events.ts:149-164 | a fatal error ends its turn, or, with no turn, fails the protocol and closes the collector; one for a turn already reported, or to be retried, changes nothing |
| TurnManager.TurnManager.Stop | packages/agent-runtime/codex/src/turn-manager.ts:94-98 | input is refused and the collector gone at once, and no part of any turn is open |
| TurnManager.TurnManager.FinishStop | packages/agent-runtime/codex/src/turn-manager.ts:99-113 | with no admission pending, one interrupted end is reported, every member of a record is settled `stopped` and no record is left |
| TurnCollector.WindowRecognises | packages/agent-runtime/codex/src/events.ts:177-189 | a terminal reported again is recognised as long as fewer than 1,024 others were reported since |
| TurnCollector.TurnCollector.RememberTerminal | packages/agent-runtime/codex/src/events.ts:180-189 | answers whether the terminal is new and keeps the 1,024 latest, the eviction loop included |
| CodexCompletion.LastWord | packages/agent-runtime/codex/src/events.ts:231-238 | the text of a turn is that of its last agent message |
| CodexCompletion.ReplaceFindsLastWord | packages/agent-runtime/codex/src/turn-manager.ts:574-599 | the message replaced on restoration is the very one the text was read from |
| CodexCompletion.CompletionRestoresTheLastMessage | packages/agent-runtime/codex/src/turn-manager.ts:387-402 | with an output schema a turn completes with exactly what its last message restores to, and fails without a message or a restoration |
| CodexCompletion.CompletionAnswers | packages/agent-runtime/codex/src/turn-manager.ts:387-402 | for every terminal, with and without an output schema, the completion is the one it answers with, and no other: a broken turn its own error; any other its last agent message, as it is or as it restores, where an empty message is none |
| CodexReasoning.CodexReasoningActivity.Delta | packages/agent-runtime/codex/src/reasoning-activity.ts:23-29 | text streams word for word unless empty or from the other carrier; the ledger holds exactly the parts streamed and not completed |
| CodexReasoning.CodexReasoningActivity.Complete | packages/agent-runtime/codex/src/reasoning-activity.ts:31-55 | the parts of the snapshot are published in order, streamed ones bare and the others with their text; then whatever is open of the item is closed, and other items are untouched |
| CodexReasoning.Carried | packages/agent-runtime/codex/src/reasoning-activity.ts:32-39 | the texts of a snapshot are those of the carrier its item streamed from; for an item never seen the summary if any of it says something, else the content |
| CodexReasoning.SnapshotSays | packages/agent-runtime/codex/src/reasoning-activity.ts:36-50 | each text of a part never streamed is published exactly once, and no text of a streamed part is |
| CodexReasoning.CodexReasoningActivity.CloseTurn | packages/agent-runtime/codex/src/reasoning-activity.ts:57-62 | every open part of the turn is completed bare, and only those |
| CodexReasoning.CodexReasoningActivity.Close | packages/agent-runtime/codex/src/reasoning-activity.ts:64-66 | no part of any turn is open |
| CodexActivity.Emitted | packages/agent-runtime/codex/src/reasoning-activity.ts:95-110 | an activity that may follow keeps the whole stream balanced |
| CodexLifecycleSafety.NoProcessUnowned | packages/agent-runtime/codex/src/runtime.ts:210-240 | in every run each process created and not reaped is the one in `process`; so two unreaped app-servers never coexist |
| CodexLifecycleSafety.StopSeals | packages/agent-runtime/codex/src/runtime.ts:425-438 | a stop bars every later spawn exactly when it is not called into the cleanup of a failed start that began before any stop |
| CodexLifecycleSafety.StopIsFinal | packages/agent-runtime/codex/src/runtime.ts:425-499 | outside that cleanup no process is created from the call on, and once a stop resolved every process created is reaped |
| CodexStopFinality.StopIsFinalExactly | packages/agent-runtime/codex/src/runtime.ts:425-637 | whenever this stop has resolved no process was created since its call and every process is reaped, in every run, exactly when the stop is not called into such a cleanup with a restart of the same generation under way, or one about to schedule the next |
| CodexStopFinality.Overtaken | packages/agent-runtime/codex/src/runtime.ts:501-637 | in every such state a run leads from the call to a resolved stop and a process created after it, whatever phase the restart is in |
| CodexStopFinality.OvertakableIsReached | packages/agent-runtime/codex/src/runtime.ts:501-591 | such a state is reached from the initial one: the child exits during a start that then fails |
| CodexStopFinality.NextCleanOk | packages/agent-runtime/codex/src/runtime.ts:501-553 | nothing is spawned or opened while a failed start cleans up, so what the cleanup captured is all there is |
| CodexLifecycleSafety.NextInv | packages/agent-runtime/codex/src/runtime.ts:137-732 | every stretch between two awaits keeps ownership, and a barred runtime stays barred and creates nothing |
| CodexRuntime.CodexRuntime.StartCodexRuntime | packages/agent-runtime/codex/src/runtime.ts:210-235 | a process is created only by a current generation and only when none is held; by the invariant none other is alive then, and the new one is held |
| CodexRuntime.CodexRuntime.FinishTeardown | packages/agent-runtime/codex/src/runtime.ts:532-552 | a teardown lets go only of what it captured, and of the process only on a successful reap; ownership is kept, and nothing is alive once it has reaped all there was |
| CodexRuntime.CodexRuntime.Start | packages/agent-runtime/codex/src/runtime.ts:137-163 | a starting, stopping or stopped runtime is left as it was; any other start outdates every earlier generation, cancels a scheduled restart and spawns nothing yet |
| CodexRuntime.CodexRuntime.OnStartPublished | packages/agent-runtime/codex/src/runtime.ts:159-240 | once its report landed a start spawns exactly in the current generation with no process held; a failed write closes the fence, and nothing held is let go |
| CodexRuntime.CodexRuntime.OnStartConnected | packages/agent-runtime/codex/src/runtime.ts:240-305 | nothing is created; a new client is opened, and readiness reported, only in the current generation; a failed or overtaken start reports itself degraded unless overtaken, and cleans up all that is held |
| CodexRuntime.CodexRuntime.OnStartMarked | packages/agent-runtime/codex/src/runtime.ts:166-190 | the start is over and counts as done exactly when its report landed in the current generation |
| CodexRuntime.CodexRuntime.OnStartDegraded | packages/agent-runtime/codex/src/runtime.ts:182-190 | the cleanup after the report raises the stop flag, remembers it, and captures all that is held |
| CodexRuntime.CodexRuntime.OnStartCleaned | packages/agent-runtime/codex/src/runtime.ts:501-514 | the stop flag is down afterwards exactly when the cleanup converged and the flag was down before it |
| CodexRuntime.CodexRuntime.ScheduleRestart | packages/agent-runtime/codex/src/runtime.ts:569-591 | where the runtime is stopping, or a restart is scheduled or under way, nothing changes; otherwise one is scheduled and the runtime degraded |
| CodexRuntime.CodexRuntime.OnTimer | packages/agent-runtime/codex/src/runtime.ts:585-602 | exactly one restart begins, of the generation it fires in, and none while stopping |
| CodexRuntime.CodexRuntime.OnRestartPublished | packages/agent-runtime/codex/src/runtime.ts:599-603 | a restart whose report landed tears down all that is held; a failed write closes the fence and cleans it up |
| CodexRuntime.CodexRuntime.OnRestartTorn | packages/agent-runtime/codex/src/runtime.ts:603-605 | a restart spawns only after a teardown that converged, in its own generation, and with every earlier process reaped |
| CodexRuntime.CodexRuntime.OnRestartConnected | packages/agent-runtime/codex/src/runtime.ts:604-608 | a restart opens a new client and reports readiness only in its own generation; a failed one cleans up all that is held |
| CodexRuntime.CodexRuntime.OnRestartMarked | packages/agent-runtime/codex/src/runtime.ts:608-609 | the restart is over exactly when its report landed in its own generation |
| CodexRuntime.CodexRuntime.OnRestartCleaned | packages/agent-runtime/codex/src/runtime.ts:610-629 | cleaning up creates and schedules nothing; the restart reports itself degraded exactly when nothing overtook it, and else is over |
| CodexRuntime.CodexRuntime.OnRestartDegraded | packages/agent-runtime/codex/src/runtime.ts:622-636 | the failed restart is over, and the next one is scheduled unless that is refused |
| CodexRuntime.CodexRuntime.Stop | packages/agent-runtime/codex/src/runtime.ts:425-438 | a stop joins one under way and changes nothing, or joins the fatal teardown; any other begins the teardown of all that is held, outdates every generation, and bars later spawns exactly when it is not called into the cleanup of a failed start; the generation is bumped unless input was refused already |
| CodexRuntime.CodexRuntime.OnStopTorn | packages/agent-runtime/codex/src/runtime.ts:480-499 | the stop goes on exactly after a teardown that converged, with nothing alive if it was sealed; otherwise it may be retried |
| CodexRuntime.CodexRuntime.OnStopSettled | packages/agent-runtime/codex/src/runtime.ts:497-499 | the stop has resolved, with nothing alive and nothing to come if it was sealed |
| CodexRuntime.CodexRuntime.OnFatalJoined | packages/agent-runtime/codex/src/runtime.ts:455-471 | after a fatal teardown that succeeded nothing is alive and the stop has resolved; else what is held is torn down again |
| CodexRuntime.CodexRuntime.OnFatalRetried | packages/agent-runtime/codex/src/runtime.ts:466-473 | it resolves exactly on a retry that converged, with nothing alive; nothing can be created any more |
| CodexRuntime.CodexRuntime.CloseFence | packages/dreamux-utils/src/runtime-state-fence.ts:119-140 | the first failed write bars every spawn, outdates every generation, cancels the restart and begins a teardown of all that is held; later ones change nothing |
| CodexRuntime.CodexRuntime.OnFenceTorn | packages/agent-runtime/codex/src/runtime.ts:704-713 | the fatal teardown is done, and the runtime stopped, exactly when it converged; then nothing is alive |
| ClaudeLifecycleSafety.NoSessionUnowned | packages/agent-runtime/claude-code/src/runtime.ts:318-410 | in every run each session created and not proved stopped is the one in `session`; so no two coexist |
| ClaudeLifecycleSafety.StopIsFinal | packages/agent-runtime/claude-code/src/runtime.ts:159-235 | once stop was called or a state write failed no session is created; once stop resolved none is alive and no submission is undecided, then or later, and each later submission was answered `stopped` |
| ClaudeLifecycleSafety.AnswersStand | packages/agent-runtime/claude-code/src/runtime.ts:263-300 | the answer of a submission never changes |
| ClaudeLifecycleSafety.RecoveryIsContinuous | packages/agent-runtime/claude-code/src/runtime.ts:342-395 | once a thread was published every later session resumes that very thread |
| ClaudeLifecycleSafety.NextInv | packages/agent-runtime/claude-code/src/runtime.ts:102-538 | every stretch between two awaits keeps ownership, thread, answers and the seal of a stop |
| ClaudeSubmissions.SubmissionIsHanded | packages/agent-runtime/claude-code/src/runtime.ts:263-410 | in every run a submission to a runtime with no live session and no creation under way begins a creation; unless that meets a failed stop, spawn or write, or the runtime is stopped, the submission still waits for it or is handed the new session it built |
| ClaudeSubmissions.SubmissionCanBeHanded | packages/agent-runtime/claude-code/src/runtime.ts:263-410 | and from each such state a run leads to the submission being handed that session, which is then held and its thread published |
| ClaudeSubmissions.WaitingIsHanded | packages/agent-runtime/claude-code/src/runtime.ts:318-410 | the same for a submission that joins a creation under way: it is handed the session of that very creation |
| ClaudeSubmissions.LiveSessionDecides | packages/agent-runtime/claude-code/src/runtime.ts:263-290 | a submission that finds a live session and no creation under way is decided by that very session, in every run in which the runtime is not stopped |
| ClaudeRuntime.ClaudeCodeRuntime.EnsureSession | packages/agent-runtime/claude-code/src/runtime.ts:319-332 | a creation begins exactly when the runtime is not stopped, none is under way and no session is live: with a new session about to be spawned when none is held, else with the stop of the one that is held; a caller is refused, gets the live session, or joins the one creation |
| ClaudeRuntime.ClaudeCodeRuntime.ConstructSession | packages/agent-runtime/claude-code/src/runtime.ts:342-381 | the session is new, owned while its spawn has yet to begin, and resumes the published thread exactly when there is one; when none was alive the invariant is kept |
| ClaudeRuntime.ClaudeCodeRuntime.OnPreviousStopped | packages/agent-runtime/claude-code/src/runtime.ts:336-341 | a new session, about to be spawned, is built exactly in the current generation and after a stop that succeeded, with every session before it proved stopped; otherwise the creation has failed, and a failed stop keeps the reference |
| ClaudeRuntime.ClaudeCodeRuntime.OnSpawned | packages/agent-runtime/claude-code/src/runtime.ts:382-408 | a spawn that succeeded in the current generation goes on to publish the very session; any other fails the creation, which stops its session unless the runtime is stopped |
| ClaudeRuntime.ClaudeCodeRuntime.OnPublished | packages/agent-runtime/claude-code/src/runtime.ts:388-407 | the thread is kept only after its write landed in the current generation; a failed write closes the fence, fails the creation and leaves the session to that teardown |
| ClaudeRuntime.ClaudeCodeRuntime.OnFailStopped | packages/agent-runtime/claude-code/src/runtime.ts:396-408 | a failed creation lets its session go only when its stop succeeded; then nothing is alive |
| ClaudeRuntime.ClaudeCodeRuntime.Start | packages/agent-runtime/claude-code/src/runtime.ts:102-128 | a stopped runtime, one that is starting and one that is ready are left as they were; a start begins in the current generation |
| ClaudeRuntime.ClaudeCodeRuntime.OnMaterialized | packages/agent-runtime/claude-code/src/runtime.ts:129-139 | a session is asked for, as any caller asks, exactly when the start is in its own generation; otherwise no creation begins |
| ClaudeRuntime.ClaudeCodeRuntime.OnStartEnsured | packages/agent-runtime/claude-code/src/runtime.ts:138-150 | ready is reported exactly with a session and in the current generation |
| ClaudeRuntime.ClaudeCodeRuntime.SubmitInput | packages/agent-runtime/claude-code/src/runtime.ts:242-244 | a stopped runtime answers at once; any other submission is new, tracked, and waits for the live session or the one creation under way |
| ClaudeRuntime.ClaudeCodeRuntime.OnSubmitEnsured | packages/agent-runtime/claude-code/src/runtime.ts:266-277 | `stopped` is the answer exactly after a stop met meanwhile, `failed` exactly after a creation that failed, and that degrades; otherwise the session it waited for is asked |
| ClaudeRuntime.ClaudeCodeRuntime.OnSubmitAnswered | packages/agent-runtime/claude-code/src/runtime.ts:277-288 | the session decides; readiness comes back only for the live current session |
| ClaudeRuntime.ClaudeCodeRuntime.OnSessionExit | packages/agent-runtime/claude-code/src/runtime.ts:413-421 | an exit of a replaced session, or after a stop, is noted and changes nothing else |
| ClaudeRuntime.ClaudeCodeRuntime.OnExitStopped | packages/agent-runtime/claude-code/src/runtime.ts:421-431 | the exited session is let go only when its stop succeeded; the runtime is then degraded unless it is stopped |
| ClaudeRuntime.ClaudeCodeRuntime.StopRuntime | packages/agent-runtime/claude-code/src/runtime.ts:159-178 | a stop joins one under way, or the fatal teardown; any other outdates every generation at once |
| ClaudeRuntime.ClaudeCodeRuntime.OnStopSettled | packages/agent-runtime/claude-code/src/runtime.ts:225-233 | the session is read again after the write: whichever is there is waited for, and without one nothing is alive |
| ClaudeRuntime.ClaudeCodeRuntime.OnStopProved | packages/agent-runtime/claude-code/src/runtime.ts:227-234 | a session that could not be proved stopped fails the stop and keeps its reference; otherwise nothing is alive |
| ClaudeRuntime.ClaudeCodeRuntime.DrainAdmissions | packages/agent-runtime/claude-code/src/runtime.ts:302-306 | stop goes on exactly when no admission is pending, and then every submission has its answer; otherwise it waits for every one that has none |
| ClaudeRuntime.ClaudeCodeRuntime.OnFatalJoined | packages/agent-runtime/claude-code/src/runtime.ts:195-215 | a stop after the fatal teardown retries the session that left, if any; without one nothing is alive |
| ClaudeRuntime.ClaudeCodeRuntime.OnFatalRetried | packages/agent-runtime/claude-code/src/runtime.ts:208-218 | it resolves only if the retry succeeded and every submission has its answer |
| ClaudeRuntime.ClaudeCodeRuntime.CloseFence | packages/agent-runtime/claude-code/src/runtime.ts:460-478 | the first failed write refuses input, outdates every generation and begins the one teardown of the session there is; later ones change nothing |
| ClaudeRuntime.ClaudeCodeRuntime.OnFenceTorn | packages/agent-runtime/claude-code/src/runtime.ts:470-477 | the session is let go and the status set exactly when the teardown succeeded; then nothing is alive |
| ClaudeRequestRuns.EachRequestOnce | packages/agent-runtime/claude-code/src/rpc.ts:85-187 | in every run a request has its admission resolved at most once and before its settlement, and is settled exactly once, when it has left the association |
| ClaudeRequestRuns.SettlementStands | packages/agent-runtime/claude-code/src/rpc.ts:122-135 | after its settlement neither callback of a request is called again |
| ClaudeRequestRuns.TimerWatchesWork | packages/agent-runtime/claude-code/src/rpc.ts:213-235 | between steps the idle timer is armed exactly when a request is outstanding, and after close none is |
| ClaudeRequestRuns.ResultAnswersExactly | packages/agent-runtime/claude-code/src/rpc.ts:279-335 | one result answers exactly the outstanding requests reported started and the one it names; whatever callbacks run before the answers (submissions, writes, stops, failures, in any number and order), those requests are settled once, with what the result reports after the lines of the run, or `stopped` if it was an interrupt, and nobody else hears of it |
| ClaudeRequestRuns.RunReports | packages/agent-runtime/claude-code/src/rpc.ts:279-335 | in every run a result completes exactly when it is no error, ran in the pinned session (its own or the one announced last) and has the structured output asked for; its text is its own or else what was last said since the last result or discard; an error is explained by the first non-empty of its errors, its text if called a success, its reason and its subtype |
| ClaudeRequestRuns.CancelledBeforeOrAfterStart | packages/agent-runtime/claude-code/src/rpc.ts:252-278 | a cancelled command stays for its result exactly when it was reported started; otherwise it fails at once and the generated text is kept |
| ClaudeRequestRuns.CloseSettlesAll | packages/agent-runtime/claude-code/src/rpc.ts:145-187 | a stop, a transport loss or an idle timeout settles every outstanding request with its own reason and resolves the admissions still open as ambiguous |
| ClaudeStreamRpc.ClaudeCodeStreamRpc.SubmitPrompt | packages/agent-runtime/claude-code/src/rpc.ts:85-120 | a request is registered, unanswered and watched by the timer before its write; a closed or unwritable session refuses; nobody else hears of it |
| ClaudeStreamRpc.ClaudeCodeStreamRpc.OnWritten | packages/agent-runtime/claude-code/src/rpc.ts:111-135 | an acknowledged write admits a request once; a failed one ends only a request still registered and not admitted; nobody else hears of it |
| ClaudeStreamRpc.ClaudeCodeStreamRpc.CloseSession | packages/agent-runtime/claude-code/src/rpc.ts:155-187 | the loop resolves what is unresolved, settles every outstanding request once, and leaves nothing outstanding, consumed or armed |
| ClaudeStreamRpc.ClaudeCodeStreamRpc.OnLifecycle | packages/agent-runtime/claude-code/src/rpc.ts:252-278 | a frame about a registered command admits it once, and ends it exactly when it was discarded, refused, or cancelled before it was reported started; only a cancelled started command discards the turn; nobody else hears of it |
| ClaudeStreamRpc.ClaudeCodeStreamRpc.OnResult | packages/agent-runtime/claude-code/src/rpc.ts:279-326 | the loop takes out exactly the registered requests that were consumed or named, before any callback, with one completion computed from the turn |
| ClaudeStreamRpc.ClaudeCodeStreamRpc.FinishResult | packages/agent-runtime/claude-code/src/rpc.ts:326-333 | each answered request has one admission and then that settlement; nobody else hears of it |
| ClaudeStreamRpc.ClaudeCodeStreamRpc.OnLine | packages/agent-runtime/claude-code/src/rpc.ts:237-361 | after every line the timer is armed exactly when work is outstanding, and all invariants are kept; only frames about commands call callbacks |
| ClaudeTurns.CompletionFrom | packages/agent-runtime/claude-code/src/rpc.ts:368-396 | a turn completes exactly when it ran in the pinned session, without an error, and with the structured output asked for; a text is never empty |
| ClaudeTurns.TurnFailureMessage | packages/agent-runtime/claude-code/src/rpc.ts:399-407 | the explanation is the first non-empty of the errors, the text of a success, the terminal reason and the subtype, and there always is one |
| ClaudeTurns.JoinMeans | packages/agent-runtime/claude-code/src/rpc.ts:399-401 | the errors are joined in order with `; ` |
| ClaudeFraming.ChunksDoNotMatter | packages/agent-runtime/claude-code/src/stream.ts:60-75 | however a text is cut into chunks, the lines handed on and the residue kept are those of the whole |
| ClaudeFraming.FramingIsUnique | packages/agent-runtime/claude-code/src/stream.ts:63-75 | the raw lines and the residue are the only newline-free pieces that make up the text |
| ClaudeFraming.LineIsHandedOn | packages/agent-runtime/claude-code/src/stream.ts:63-75 | every line is handed on in its place and as it is, except that a carriage return at its end is dropped and a line with nothing else is left out |
| ClaudeFraming.LineBuffer.Push | packages/agent-runtime/claude-code/src/stream.ts:63-75 | the loop hands on the non-blank lines of what it held and the chunk, and keeps the rest, which holds no newline |
| ClaudeTurns.OutcomeIsLocal | packages/agent-runtime/claude-code/src/stream.ts:405-456 | an outcome has the verdict, explanations, structure and cost of its own result, the text of the result or else what was last said in this turn, and the session of the result or else the one announced: nothing of an earlier turn |
| ClaudeTurns.ResultReports | packages/agent-runtime/claude-code/src/rpc.ts:368-407 | what a result completes with, said of its envelope and the steps before it alone |
| ClaudeTurns.TurnAggregator.AcceptLine | packages/agent-runtime/claude-code/src/stream.ts:405-421 | if the aggregate tells what was last said, measured and announced in the steps so far, it tells so after the line too; a result line only becomes the pending result |
| ClaudeTurns.TurnAggregator.TakeOutcome | packages/agent-runtime/claude-code/src/stream.ts:423-455 | a result is consumed once; the outcome has its verdict, explanations, structure and cost, its text or else what was last said, its session or else the one announced; everything but the session identity is forgotten |
| ClaudeReasoningRuns.TracesAreWellFormed | packages/agent-runtime/claude-code/src/reasoning-activity.ts:23-182 | in every run, closes included, what is published about each block is `streaming* completed?`, with text on completion only if nothing was streamed, exactly when no envelope brings text for the block again after a close that followed its text |
| ClaudeReasoningRuns.TracesSinceClose | packages/agent-runtime/claude-code/src/reasoning-activity.ts:23-182 | between two closes it always has that shape |
| ClaudeReasoningRuns.BlockComesBack | packages/agent-runtime/claude-code/src/reasoning-activity.ts:114-118 | a concrete run in which a block is completed, closed and streamed again |
| ClaudeReasoningRuns.CloseLeavesNothingOpen | packages/agent-runtime/claude-code/src/reasoning-activity.ts:114-118 | after `close`, in every run, every block published at all is completed |
| ClaudeReasoningRuns.DeltasAreVerbatim | packages/agent-runtime/claude-code/src/reasoning-activity.ts:61-73 | in every run thinking that arrives is streamed word for word, once, and nothing else with it, exactly when it is not empty and its block is neither completed nor of another kind |
| ClaudeReasoningRuns.StreamedTextIsAccepted | packages/agent-runtime/claude-code/src/reasoning-activity.ts:61-73 | in every run the streamed text of a block is the concatenation of its accepted deltas |
| ClaudeReasoningTraces.ReceivedInv | packages/agent-runtime/claude-code/src/reasoning-activity.ts:23-112 | every envelope and snapshot keeps the ledger in agreement with what was published |
| ClaudeReasoning.SnapshotTarget | packages/agent-runtime/claude-code/src/reasoning-activity.ts:120-136 | a snapshot falls to a block of its message and type: the active one, else the first unclaimed, else the last, and to none exactly when there is none |
| ClaudeReasoningContext.CurrentIsTheLastStarted | packages/agent-runtime/claude-code/src/reasoning-activity.ts:26-59 | in every run the current message is the one started last, unless it was left since: by the next start, its own stop or a close |
| ClaudeReasoningContext.ActiveIsTheLastBegun | packages/agent-runtime/claude-code/src/reasoning-activity.ts:60-78 | in every run the active block of a message is the one started last in it, unless it ended, its message ended or a close came since |
| ClaudeReasoningContext.ClaimedBySnapshots | packages/agent-runtime/claude-code/src/reasoning-activity.ts:99-103 | in every run a block counts as claimed exactly when a snapshot was taken to be about it since the last close |
| ClaudeReasoningEnds.SnapshotIsPublished | packages/agent-runtime/claude-code/src/reasoning-activity.ts:98-111 | in every run the snapshot of a thinking block about which nothing was published since the last close is published whole and completed; a streaming one is completed bare; one completed before, or of another kind, stays silent |
| ClaudeReasoningEnds.UnplacedSnapshot | packages/agent-runtime/claude-code/src/reasoning-activity.ts:87-97 | thinking of a message never seen is published under the identity of its envelope, if that has one |
| ClaudeReasoningEnds.StopsComplete | packages/agent-runtime/claude-code/src/reasoning-activity.ts:23-78 | in every run a block is completed, if anything was published about it, when it stops, when its message stops, and when the next message starts |
| ClaudeReasoningEnds.OnlyEndsComplete | packages/agent-runtime/claude-code/src/reasoning-activity.ts:23-78 | an envelope that brings no thinking completes, bare, only the blocks it ends, and says nothing else |
| ClaudeReasoningActivity.ReasoningActivity.Stream | packages/agent-runtime/claude-code/src/reasoning-activity.ts:23-78 | the in-place ledger follows the traces-proved ledger and publishes exactly its output |
| ClaudeReasoningActivity.ReasoningActivity.Snapshot | packages/agent-runtime/claude-code/src/reasoning-activity.ts:80-112 | the same for snapshots, also those known only by their envelope |
| ClaudeReasoningActivity.ReasoningActivity.CloseMessage | packages/agent-runtime/claude-code/src/reasoning-activity.ts:158-163 | the loop completes the streaming blocks of one message in order, and no other |
| ClaudeReasoningActivity.ReasoningActivity.Close | packages/agent-runtime/claude-code/src/reasoning-activity.ts:114-118 | the loop over the messages completes every open block and leaves a clear ledger |
| ShellWords.SplitUndoesQuoting | packages/agent-runtime/codex/src/tool-display.ts:114-191 | for every list of words, splitting the quoted words joined by blanks gives back exactly that list |
| ShellWords.SpellingIsRecognised | packages/agent-runtime/codex/src/tool-display.ts:87-94 | a command spells its own words again exactly when it is the spelling of some words |
| ShellWords.SplitShellWords | packages/agent-runtime/codex/src/tool-display.ts:115-154 | the loop computes the recursive reading of the text under three quoting modes, comments and escapes included |
| ShellGrammar.SplitMeans | packages/agent-runtime/codex/src/tool-display.ts:115-154 | for every text, splitting fails exactly when it breaks off in an open quote or after a backslash, and otherwise gives the words of any spelling of it in bare characters, escapes, single and double quotes, blanks and comments |
| ShellGrammar.SpellingIsRead | packages/agent-runtime/codex/src/tool-display.ts:115-154 | each well-formed spelling is read as exactly the words it spells: a bare backslash and a backslash-newline vanish, single quotes keep everything, double quotes keep backslashes except before a newline, `$`, a backquote, a double quote and a backslash |
| ShellWords.QuoteShellWord | packages/agent-runtime/codex/src/tool-display.ts:156-191 | the loop computes the chunk-wise quoting, and ends |
| ShellQuoting.QuotedInChunks | packages/agent-runtime/codex/src/tool-display.ts:156-191 | a word is cut from the left into chunks as long as one way of quoting fits all of it, and each is written the plainest way that does: as it is, in single, or in double quotes |
| ShellWords.ReadChunk | packages/agent-runtime/codex/src/tool-display.ts:160-181 | a chunk is never empty and extends as far as one way of quoting fits all of it |
| ShellWords.ChunksRead | packages/agent-runtime/codex/src/tool-display.ts:156-191 | reading quoted chunks adds exactly their text to the word in progress |
| StoreSync.EnqueueOrder | packages/dreamux-utils/src/transactional-store.ts:178-185 | an operation begins only when all earlier ones have settled, and commits appear in enqueue order |
| StoreSync.FileHoldsTheLastCommit | packages/dreamux-utils/src/transactional-store.ts:89-147 | outside a write and its swap the file is what the last commit put there: failed changes, writes and unlinks leave it alone, a failing `afterCommit` leaves the commit standing |
| StoreSync.MemoryIsTheFile | packages/dreamux-utils/src/transactional-store.ts:49-65 | with orderly callers the loaded memory equals what the file means whenever no operation is between write and swap |
| StoreSync.UpdatesSeeTheirPredecessor | packages/dreamux-utils/src/transactional-store.ts:93-101 | with orderly callers each update sees the value its predecessor committed |
| StoreAnswers.CommitsWhatWasAsked | packages/dreamux-utils/src/transactional-store.ts:89-147 | in every run each commit carries what was asked for, and so does the file it writes: an update the very value its change function returned, which is called once, a create its value, a removal no file |
| StoreSync.CreateIsSafe | packages/dreamux-utils/src/transactional-store.ts:110-135 | from an orderly state in which a create is about to commit, memory equals what the file means in every orderly continuation exactly when no load is in flight |
| StoreSync.CreateDuringLoad | packages/dreamux-utils/src/transactional-store.ts:49-65 | the failing half with its run: the create commits, one more update replaces the value, and the load then puts back the old one |
| StoreRuns.StepInv | packages/dreamux-utils/src/transactional-store.ts:49-185 | every step keeps operations serial, the tail linked and the history exactly the committed operations |
| TransactionalStore.TransactionalStore.Load | packages/dreamux-utils/src/transactional-store.ts:49-65 | a value in memory is not read again and a read under way is shared; file, memory and operations are left alone |
| TransactionalStore.TransactionalStore.OnRead | packages/dreamux-utils/src/transactional-store.ts:52-62 | a read that succeeded has what the file means; one that failed fails everyone waiting for it and is forgotten, so that the next load reads again |
| TransactionalStore.TransactionalStore.OnLoaded | packages/dreamux-utils/src/transactional-store.ts:52-57 | the loaded value is kept in memory, and every update and removal waiting for it goes on with it |
| TransactionalStore.TransactionalStore.Enqueue | packages/dreamux-utils/src/transactional-store.ts:178-185 | the new operation is the last, and may begin exactly when all earlier ones have settled |
| TransactionalStore.TransactionalStore.Begin | packages/dreamux-utils/src/transactional-store.ts:93-144 | an operation begins with every earlier one settled; an update and a removal start from the committed value, loading it if need be; a create does not load |
| TransactionalStore.TransactionalStore.OnChanged | packages/dreamux-utils/src/transactional-store.ts:95-97 | only a change to another value goes on to its write, which writes the value that was returned over the one that was given; one that throws fails and one that returns the same value writes nothing |
| TransactionalStore.TransactionalStore.OnWritten | packages/dreamux-utils/src/transactional-store.ts:118-130 | the file changes exactly when the write succeeded and was not a create over an existing file it may not replace; memory never does |
| TransactionalStore.TransactionalStore.OnUnlinked | packages/dreamux-utils/src/transactional-store.ts:138-147 | a removal takes the file away exactly when the unlink succeeded; otherwise it changes nothing |
| TransactionalStore.TransactionalStore.Swap | packages/dreamux-utils/src/transactional-store.ts:97-101 | memory follows the file, which held the change before and is that of the last commit afterwards |
| TransactionalStore.TransactionalStore.OnAfterCommit | packages/dreamux-utils/src/transactional-store.ts:99-100 | whatever `afterCommit` does the commit stands; only the outcome of the operation tells |
| ConfigSecrets.RestoreUndoesRedact | packages/dreamux/src/config/service.ts:253-275 | for every JSON tree, restoring its redacted form against itself gives the tree |
| ConfigSecrets.RestoreIsInvisible | packages/dreamux/src/config/service.ts:246-275 | whatever is committed, the redacted form of a restored value is that of the submitted one |
| ConfigSecrets.RestoreChangesOnlySecrets | packages/dreamux/src/config/service.ts:216-228 | a submitted value survives unchanged exactly when no secret was submitted empty over a different committed value |
| ConfigSecrets.MergeRestoresOriginals | packages/dreamux/src/config/service.ts:230-244 | for committed agents with unique ids, sending back any reordering or selection of the redacted entries commits the originals in that order |
| ConfigSecrets.MergeAgentEntries | packages/dreamux/src/config/service.ts:230-244 | the loop matches each candidate with the last committed entry of its id |
| ConfigSecrets.MergeMeans | packages/dreamux/src/config/service.ts:230-244 | each candidate is restored from the last committed entry of its id; with no id, or one not committed, nothing is restored |
| ConfigSecrets.ConfigService.ReadAgents | packages/dreamux/src/config/service.ts:122-129 | at no path does the copy hold anything but the empty text under a secret name; ids are kept, and every value that no secret name leads to is what it was |
| ConfigSecrets.RedactionHides | packages/dreamux-utils/src/redaction.ts:144-160 | the same for every JSON tree |
| ConfigSecrets.ConfigService.ReplaceAgents | packages/dreamux/src/config/service.ts:152-187 | a candidate that does not resolve changes nothing; an accepted one replaces the agents, keeps every other key and the plugins, and answers with the redacted form of what was sent |
| ConfigSecrets.ReorderAgents | packages/dreamux/src/config/service.ts:122-187 | reading the agents and replacing them by any reordering commits that reordering of the originals and nothing else |
| SchemaValidator.CheckMeans | packages/dreamux/src/command/validate.ts:83-202 | for every accepted schema and every value the check accepts exactly the instances in which no `enum` meets a container; each cast finds its type at every depth |
| SchemaValidator.AcceptedMeans | packages/dreamux/src/command/validate.ts:287-422 | a definition is accepted exactly when each keyword, at every depth, is known, has its shape and can be met: types with values, a non-empty `enum`, bounds that some measure lies within, required names a closed object could have |
| SchemaValidator.CheckIsExact | packages/dreamux/src/command/validate.ts:108-118 | under an accepted schema whose enums list no containers the check accepts exactly the instances |
| SchemaValidator.ContainerEnumRefuses | packages/dreamux/src/command/validate.ts:108-118 | an accepted schema with an instance that the check refuses, because an array is never strictly equal to another |
| SchemaValidator.DeclaredTypes | packages/dreamux/src/command/validate.ts:204-224 | the loop returns the declared names, or fails exactly on an unknown name or an empty list |
| PathPrefix.ReplacePathPrefix | packages/dreamux-utils/src/redaction.ts:269-300 | the loop computes the left-to-right scan with the trailing separators of the prefix dropped, and always advances |
| PathPrefix.TextIsCut | packages/dreamux-utils/src/redaction.ts:279-299 | the scan cuts the text into pieces in order, and shows each copied piece as it is |
| PathPrefix.OnlyHeadsAreRenamed | packages/dreamux-utils/src/redaction.ts:286-296 | a piece is renamed only if it is the prefix bounded as a path head; with a separator behind it it takes the nested name, which drops that separator if asked to, and else the exact name |
| PathPrefix.HeadMeans | packages/dreamux-utils/src/redaction.ts:302-318 | a head starts at the beginning, behind a character that continues no token, or behind `://`; it ends at the end, at a separator, or at a character that continues no token, a full stop counting only if no token goes on behind it |
| PathPrefix.HeadsAreRenamedExactly | packages/dreamux-utils/src/redaction.ts:282-298 | for every trimmed prefix: every path head of every text is renamed exactly when the prefix neither overlaps itself behind a character where a head may begin nor, where trailing separators are stripped, starts with a separator and ends in a character that is no token |
| PathPrefix.PrefixesThatMiss | packages/dreamux-utils/src/redaction.ts:282-298 | both failing shapes exist, each without the other |
| ChatBots.TrustIsIntroduction | packages/channel/feishu-channel/src/chat-bots-store.ts:165-215 | from an empty store the trusted bots of a chat are exactly those introduced in it, the known ones those introduced or observed: observing never grants trust |
| ChatBots.TrustedAreKnown | packages/channel/feishu-channel/src/chat-bots-store.ts:179-213 | over all runs from an empty store every trusted bot is known |
| ChatBots.NamesAreTheLast | packages/channel/feishu-channel/src/chat-bots-store.ts:156-215 | in every run from an empty store a bot goes by the last name it was seen or introduced with, if any |
| ChatBots.StepBaseline | packages/channel/feishu-channel/src/chat-bots-store.ts:147-154 | context becomes pending, and the generation grows by one, exactly on a new introduction or a newly recorded bot; only a clear from the current snapshot takes it back |
| ChatBots.ArmedSurvivesStaleClears | packages/channel/feishu-channel/src/chat-bots-store.ts:239-256 | pending context armed after a snapshot survives every clear made from that or an earlier snapshot |
| ChatBots.RedeliveryIsIgnored | packages/channel/feishu-channel/src/chat-bots-store.ts:281-311 | redelivering any of the last 200 recorded events of a chat changes nothing |
| ChatBots.SeenAreTheLast | packages/channel/feishu-channel/src/chat-bots-store.ts:299-307 | the retained ids are the last 200 recorded |
| ChatBots.ChatBotsStore.ObserveKnownBot | packages/channel/feishu-channel/src/chat-bots-store.ts:166-177 | a bot becomes known and nobody becomes trusted |
| ChatBots.ChatBotsStore.TrustIntroducedBots | packages/channel/feishu-channel/src/chat-bots-store.ts:183-215 | the loop trusts every introduced bot, returns exactly the newly trusted ones in order, and arms the context only if there are any |
| ChatBots.ChatBotsStore.RecordBotAdded | packages/channel/feishu-channel/src/chat-bots-store.ts:286-311 | answers whether the event was new; an event already seen changes nothing |

## Left out

- Interrupts: neither `interrupt()` of the adapters nor the control requests and receipts of Claude Code; only "this result is an interrupt" is kept.
- Token usage, item and tool display, and turn-end reasons on the activity stream, and the times of its events.
- Which schema violation is reported first and its path, in the codec and in the validator; success and failure are exact.
- The order of compiled `enum` values, which depends on the locale; it does not change which values an `enum` accepts.
- Texts are sequences of characters, not of UTF-16 units: lengths in schemas, and words with lone surrogates, are those of characters.
- `__proto__` members, values that JSON cannot write (`undefined`, `NaN`, infinities), and floating-point corner cases; numbers are reals.
- Parsing and printing of JSON; spawning, signalling, sockets and file-system calls, which succeed or fail as the environment likes.
- The Codex client and turn manager inside the Codex runtime's teardown: their part succeeds or fails with one flag; `threadId` and resuming of Codex threads.
- The reason a state fence records (a revoked lease or a failed write); only the first close matters to the runtimes.
- `SupervisedChild`, `CodexProcess` and `LiveClaudeCodeSession`: the stop and reap contract above stands for them.
- Restart delays and attempt counts of the Codex runtime: the timer fires at any moment after it was set.
- `LineBuffer.flush`, the parsing of stream lines, and the loop over the lines of one chunk, which stops once the session is closed.
- ClaudeStreamRpc.ClaudeCodeStreamRpc.SubmitPrompt: a request is its fresh uuid, not an object, so reuse of a uuid by a caller is not modelled.
- ClaudeStreamRpc.ClaudeCodeStreamRpc.CloseSession: the order in which requests of one close or result are settled is left open.
- ClaudeReasoningActivity.ReasoningActivity.Stream: the blocks of all messages are one list instead of one map for each message; the order within a message is kept.
- CodexReasoning.CodexReasoningActivity.Close: turns and items are closed in any order.
- TurnManager.TurnManager.SubmitInput: the decision tail is a queue, and the collector is built with the manager instead of on the first request.
- ConfigSecrets.ConfigService.ReadAgents: redaction in place and the deep copy before it are modelled on values, so aliasing is not captured.
- ConfigSecrets.ConfigService.ReplaceAgents: the store update around it is one step, and `resolveConfig` is a deterministic function that may refuse.
- ConfigSecrets.MergeRestoresOriginals: which key names are secret is a parameter, with `id` not among them.
- PathPrefix.HeadsAreRenamedExactly: the characters that continue a path token are a parameter.
- TransactionalStore.TransactionalStore.OnWritten: directory creation and the temporary file are part of one write that succeeds or fails.
- `redactText` and `redactJson`, and loading of chat-bot files that were edited by hand.
- Tool labels, cards, slash commands, the CLI, onboarding and build scripts.
