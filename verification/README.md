# Verification of the durable agent runtime

This project models the parts of Agent Harness that make an agent run durable: the governed
execution of tools with crash recovery, the planner and compactor that keep the prompt inside a
token budget, the normaliser of provider streams, the gateway in front of a provider, the scheduler
of tool effects, and the event stream that a browser follows.  To check it, run
`dafny verify dfyconfig.toml` in this directory.

## How the modules hang together

| module | what it models |
|---|---|
| `Common` | what several modules share |
| `ToolRecovery` | tool execution as steps over a durable store, one checkpoint, message rows and volatile memory; a stop may fall between any two steps |
| `ToolSafety`, `ToolReconciliation`, `ToolAuthorisation`, `ToolTranscript` | what every run of these steps keeps: how often a body starts, when a reconciler is asked first, what allowed it, what the transcript says |
| `ToolOutcomes` | exactly what is made of what a tool, its reconciler, the policy and a human say |
| `ToolLosses`, `ToolRefusals` | exactly when a result is said twice: by a merge that the message rows win, and for calls to tools that do not exist |
| `ToolCounterexamples` | concrete runs in which four guarantees fail |
| `MessageList` | the executor's in-place edits of the message list |
| `TranscriptGroups`, `ContextPlanner`, `Compaction` | grouping of messages, budgeting, and folding of history |
| `StreamNormaliser` | the accumulator of tool-call fragments |
| `TokenBucket`, `CircuitBreaker`, `ProviderGateway` | the gateway: arithmetic, sliding window, and the protocol between calls |
| `EffectScheduler` | segments, barriers, slots and shared locks |
| `EventLog`, `EventDelivery` | numbering of events, and delivery across disconnects |
| `Utf8Truncation`, `ResultFitting` | cutting text and tool results to byte limits |
| `UsageAccounting`, `RunLoop` | counters, cost, and the loop of a run with its budgets |

A protocol is a state machine: `Enabled` says when a step may happen, `Step` what it does, and a run
is a sequence of states in which each follows from the one before.  Main theorems speak about every
state of every run.  Algorithms that the source writes as loops over mutable variables are methods
with loops, and objects with mutable fields are classes, each proved against a function whose
properties are then proved as lemmas.

The outside world enters as parameters: what a model, a tool, a reconciler or a human answers is an
argument of a step; clocks are real numbers given to each step; JSON parsing, trimming and the
artifact archive are function values.

## Where the code does less than its documentation promises

The model follows the code.  Each of these has a lemma with a concrete run or an exact condition.

- A call whose policy is never to replay it is run again after a crash, without a human, when its
  tool reports success under the error code `cancelled` (`tool_execution.py:1222-1227`, `449-453`).
  `ToolSafety.ReopenedExactlyWhen` says that this outcome is the only one.
- `checkpoint_messages` prefers the longest list (`lifecycle.py:58-76`).  A crash between the saving
  of a message row and the next checkpoint leaves the rows longer than the list in memory of the
  resumed run.  Once more messages were lost than earlier runs spliced in, the rows win every merge,
  and the checkpoint then holds, beside the results in memory, all results that were lost:
  `ToolLosses.DoubledExactlyWhen`.
- Examining an interrupted call overwrites its status, and that it was interrupted is then known in
  memory only (`tool_execution.py:449-453`, `479-488`).  When the batch is over before the reconciler
  was asked, by a second stop or by a cancellation, that mark is gone, and a call under the
  `reconcile` policy is run again unasked: `ToolReconciliation.UnaskedIsForgotten`.
- A call to an unknown tool is answered again on resume without looking whether it was answered
  before (`tool_execution.py:318-357`).  It happens exactly when a merge falls between its refusal and
  the end of its batch and keeps it pending: `ToolRefusals.RefusedTwiceExactlyWhen`.
- Single flight of the half-open probe fails exactly when a call that leaves without an outcome frees
  the slot that another call holds (`gateway.py:166-169`, `414-418`): `ProviderGateway.SingleFlight`.
- A late outcome is reported as "closed" while the breaker is open (`gateway.py:149-160`).
- A bucket with a rate below one never grants a request (`gateway.py:75-89`), and yet puts some to sleep
  before it refuses them (`gateway.py:249-286`): `ProviderGateway.SleepsInVain`.
- A browser that connects without a cursor loses an event exactly when a connection is opened after its
  commit while nothing was accepted yet (`useAgentStream.ts:42-44`, `server.py:431-435`):
  `EventDelivery.LostExactlyWhen`.
- A turn whose first provider call the budget refuses is billed the planned input although nobody was
  asked (`runtime.py:1088-1119`, `1415-1447`): `RunLoop.UnaskedTurnIsBilled`.
- Negative provider reports make counters go back in retries and verifications, and negative cache
  reads do so everywhere (`runtime.py:1365-1368`, `1439-1441`).

## Model

| member | source | states |
|---|---|---|
| `ToolSafety.NeverReplayed` | src/agentharness/engine/tool_execution.py:392-453 | Over every interleaving of batches, cancellations, crashes, resumes and human decisions, the body of a call with policy `never` starts at most once plus once per human decision to retry it, provided its own tool does not report success under the code of a cancellation. |
| `ToolSafety.ReopenedExactlyWhen` | src/agentharness/engine/tool_execution.py:1217-1251 | A finished attempt of a `never` call leaves its record open to another start without a human if and only if the tool reported success under the code of a cancellation. |
| `ToolSafety.UnclearNeverRunAgain` | src/agentharness/engine/runtime.py:808-908 | From the moment an outcome is indeterminate until a human decides, over any run, the record stays indeterminate and the body is never started. |
| `ToolSafety.CoherentThroughout` | src/agentharness/engine/tool_execution.py:310-808 | In every state of every run the records agree with the batch in progress: allowed calls are approved and not completed, running bodies have a running record, returned results are the stored ones. |
| `ToolOutcomes.AttemptIsRecorded` | src/agentharness/engine/tool_execution.py:1052-1251 | What a finished attempt puts on record and hands to its batch is an error, and says, exactly what the tool reported, or the reconciler when a timed-out or cancelled attempt had one that found something; only a missing code is filled in, or an unclear outcome marked; it succeeded if and only if what was reported is no error and carries neither the cancelled nor the indeterminate code. |
| `ToolOutcomes.AttemptSparesOthers` | src/agentharness/engine/tool_execution.py:1238-1251 | No other record is touched. |
| `ToolOutcomes.ReconciledIsRecorded` | src/agentharness/engine/tool_execution.py:979-1008 | What a reconciler finds before an attempt is recorded as it is: a success, or an outcome for a human. |
| `ToolOutcomes.RepeatedExactlyWhen` | src/agentharness/engine/tool_execution.py:1182-1192 | Another attempt follows if and only if a tool that is safe to repeat reports a retryable error while nobody cancels. |
| `ToolOutcomes.ExaminedExactly` | src/agentharness/engine/tool_execution.py:392-453 | A stored call is replayed if and only if it finished with a result, goes to a human if and only if it is indeterminate or was running under `never`, and is run again otherwise. |
| `ToolOutcomes.UnclearIsLeftToHuman` | src/agentharness/engine/tool_execution.py:408-448 | A call that goes to a human is recorded as indeterminate, neither allowed nor completed, and stops the run after its batch. |
| `ToolOutcomes.HarvestedExactlyWhen` | src/agentharness/engine/tool_execution.py:791-808 | A harvested result is said and its call completed, unless its outcome is indeterminate or it is an error of a run being cancelled. |
| `ToolOutcomes.DecisionIsRecorded` | src/agentharness/engine/runtime.py:808-908 | A human decision leaves a success, an error with the code of a skipped outcome, or no result, each for exactly one decision, and touches no other record. |
| `ToolOutcomes.DecisionLeadsOn` | src/agentharness/engine/runtime.py:808-908 | After it the call is replayed as it was settled, or, exactly after a decision to retry, may be run again. |
| `ToolOutcomes.SettledIsFinal` | src/agentharness/engine/tool_execution.py:392-407 | Over every run, once a call to a known tool succeeded or failed, or a human settled it, its record never changes and its body is never started again. |
| `ToolOutcomes.GateDecides` | src/agentharness/engine/tool_execution.py:505-718 | The gate refuses a write without permission; with nobody to ask, everything forced or not harmless; lets pass by mode what is not forced and is harmless or in automatic mode; and the rest by its scope, or asks. |
| `ToolOutcomes.AnswerDecides` | src/agentharness/engine/tool_execution.py:600-718 | A denial fails the call, any other answer allows it, and exactly an allow-run answer to a call that needs no confirmation opens its scope. |
| `ToolReconciliation.ReconcilerComesFirst` | src/agentharness/engine/tool_execution.py:920-990 | After a batch lets an interrupted call under the `reconcile` policy pass, its body is not started in any continuation of the run until its reconciler was asked or another batch is opened. |
| `ToolReconciliation.UnaskedIsForgotten` | src/agentharness/engine/tool_execution.py:449-488 | Over every run, a call that the gate let pass, whose reconciler was not asked and of which no attempt was saved, is without status and mark of an interruption as soon as its batch is over: by a crash, by a batch that is abandoned, or by a cancellation that skips it. |
| `ToolReconciliation.SecondStopForgets` | src/agentharness/engine/tool_execution.py:449-488 | A crash anywhere between the gate and the reconciler's answer leaves neither a status nor a mark from which the resumed run could tell that an attempt was made. |
| `ToolReconciliation.SkippingForgets` | src/agentharness/engine/tool_execution.py:828-839 | So does the cancellation that skips the call: when its batch has been executed, nothing tells of the interruption any more. |
| `ToolReconciliation.ForgottenUntilAttempted` | src/agentharness/engine/tool_execution.py:408-453 | Over every run, such a call stays as it is, unstarted and without its reconciler being asked, until its next attempt is saved. |
| `ToolAuthorisation.StartedBodiesWereAllowed` | src/agentharness/engine/tool_execution.py:505-718 | Every started body was allowed earlier in the same batch by a legitimate grant: an answer for that very call when it is destructive or needs confirmation, a scope only if an allow-run answer to a call without confirmation granted it in this process, and no write effect without write permission. |
| `ToolAuthorisation.GrantIsLegitimate` | src/agentharness/security/approval.py:27-39 | A grant found in the log of the open batch satisfies what its kind demands: mode grants only for what the mode decides by itself, scope and answer grants only with the matching answer in the log. |
| `ToolTranscript.OneResultPerCall` | src/agentharness/engine/tool_execution.py:306-409 | Over every run, through any crashes and resumes, as long as the list in memory won every merge so far: a call to a known tool has at most one result message, a completed one has exactly one, and the message repeats the result of the stored record. |
| `ToolTranscript.CompletedMeansAnswered` | src/agentharness/engine/tool_execution.py:791-808 | In the same runs, when a batch has been harvested, a call of it is in the completed set if and only if it has a result message. |
| `ToolTranscript.FaithfulThroughout` | src/agentharness/engine/lifecycle.py:56-230 | Every state of every such run is faithful: transcript, completed ids, stored records and checkpoint agree, and the rows outnumber the list in memory by what was lost. |
| `ToolTranscript.MemoryWinsExactlyWhen` | src/agentharness/engine/lifecycle.py:56-76 | Where the rows are accounted for, as in every state of these runs, the merged checkpoint keeps the list in memory if and only if the messages lost to ended processes are no more than those spliced in from earlier runs. |
| `ToolLosses.MergeSays` | src/agentharness/engine/lifecycle.py:56-76 | In every state of every such run, a merge writes for each call its results in memory, and with them all its lost results exactly when the rows win. |
| `ToolLosses.DoubledExactlyWhen` | src/agentharness/engine/lifecycle.py:56-76 | So a merge doubles the result of a call to a known tool if and only if more messages were lost than spliced in, and a lost result of the call was said again or lost more than once. |
| `ToolTranscript.FaithfulPreserve` | src/agentharness/engine/lifecycle.py:78-120 | A merge in the middle of a batch that memory wins keeps the checkpointed transcript, its completed ids and the stored records in agreement. |
| `ToolTranscript.FaithfulFinish` | src/agentharness/engine/lifecycle.py:167-230 | So does the merge when the loop ends, if memory wins it. |
| `ToolTranscript.FaithfulResume` | src/agentharness/engine/runtime.py:681-735 | Resuming from a faithful state, with or without a new user message, restores a transcript that agrees with the records. |
| `ToolRefusals.ExaminationAddsOne` | src/agentharness/engine/tool_execution.py:318-357 | Over every run, each examination of a call to an unknown tool adds exactly one result message for it, and no other step within a process adds any. |
| `ToolRefusals.OneRefusal` | src/agentharness/engine/tool_execution.py:318-357 | A call to an unknown tool has at most one result message in every state of every run in which no merge wrote a checkpoint that holds its refusal and yet keeps it pending and not completed. |
| `ToolRefusals.RefusedTwiceExactlyWhen` | src/agentharness/engine/lifecycle.py:78-120 | A merge can be followed by a second refusal, without another merge, if and only if it writes such a checkpoint. |
| `ToolRefusals.MergeOrphansExactlyWhen` | src/agentharness/engine/lifecycle.py:78-120 | It writes one if and only if a refusal is in memory of a call that the run context and the last checkpoint do not count as completed and that is kept pending. |
| `ToolCounterexamples.CancelledSuccessRunsTwice` | src/agentharness/engine/tool_execution.py:1217-1251 | A run in which a `never` call starts twice without a human decision. |
| `ToolCounterexamples.LostMessageDoublesResult` | src/agentharness/engine/lifecycle.py:56-76 | A run that loses one message, after which the preserved checkpoint holds the result of a call twice. |
| `ToolCounterexamples.UnknownToolDoublesResult` | src/agentharness/engine/tool_execution.py:318-357 | A run that loses nothing, in which a call to an unknown tool gets two result messages. |
| `ToolCounterexamples.ReconcileRunsUnasked` | src/agentharness/engine/tool_execution.py:711-718 | A run in which a `reconcile` call starts twice, the second time in a batch that does not take it for interrupted. |
| `MessageList.LiveMessages.ResultsOf` | src/agentharness/engine/tool_execution.py:152-171 | The two scans find exactly the results that follow the last assistant message carrying the call. |
| `MessageList.LiveMessages.Drop` | src/agentharness/engine/tool_execution.py:1526-1537 | Dropping removes exactly the messages and rows with the ids of those results. |
| `MessageList.LiveMessages.AddResult` | src/agentharness/engine/tool_execution.py:1507-1524 | Appending adds one message and one row numbered by the new length. |
| `MessageList.LiveMessages.Replay` | src/agentharness/engine/tool_execution.py:389-401 | A stored result is brought back without saying it twice. |
| `MessageList.ReplayLeavesOne` | src/agentharness/engine/tool_execution.py:389-401 | With distinct message ids, replaying leaves the results alone if the stored one is among them, and otherwise leaves exactly the stored one. |
| `TranscriptGroups.EstimateMessagesTokens` | src/agentharness/engine/context.py:82-90 | The nested loops compute the sum of the per-message estimates. |
| `TranscriptGroups.EstimateIsLeast` | src/agentharness/engine/context.py:33-37 | An estimate is the least number of tokens that holds the text at four characters each. |
| `TranscriptGroups.MessageGroups` | src/agentharness/engine/context.py:557-598 | Grouping by index and cursor yields the specified groups. |
| `TranscriptGroups.GroupsTile` | src/agentharness/engine/context.py:557-598 | The groups tile the transcript: contiguous, in order, each holding exactly the messages between its bounds. |
| `TranscriptGroups.GroupsSpell` | src/agentharness/engine/context.py:557-598 | Concatenating the groups gives the transcript back. |
| `TranscriptGroups.ValidPairMeans` | src/agentharness/engine/context.py:562-585 | A group of calls is valid if and only if every call has a non-empty id and a result in the group. |
| `TranscriptGroups.RegroupingKeepsGroups` | src/agentharness/engine/context.py:557-598 | Grouping any selection of whole valid groups anew yields exactly these groups, all valid. |
| `ContextPlanner.BudgetMessages` | src/agentharness/engine/context.py:369-468 | The planner fails if and only if the base plus the live groups reaching the latest user message, with every large result body replaced by its pointer, exceeds the budget, and then reports that amount; otherwise it drops the shortest prefix of older groups that fits, shrinks the shortest prefix of the rest, and returns the true total of what it sends, within the budget. |
| `ContextPlanner.GreedyIsExact` | src/agentharness/engine/context.py:417-467 | The greedy choice of drops and shrinks fits exactly when the mandatory groups do. |
| `ContextPlanner.PointerNamesArtifact` | src/agentharness/engine/context.py:435-461 | A pointer contains the id of the artifact it stands for and is shorter than any body it replaces. |
| `ContextPlanner.DropOldest` | src/agentharness/engine/context.py:417-431 | The first loop drops the shortest sufficient prefix of groups that end before the latest user message. |
| `ContextPlanner.ShrinkOldest` | src/agentharness/engine/context.py:435-461 | The second loop shrinks no group without need and keeps the total exact. |
| `ContextPlanner.SentGroupsStayWhole` | src/agentharness/engine/context.py:432-461 | Grouping what is sent anew yields exactly the kept groups, all valid: no broken tool pair is ever sent. |
| `ContextPlanner.EveryMessageOnce` | src/agentharness/engine/context.py:384-437 | Every message is sent, dropped, summarised or orphaned, and only one of these. |
| `ContextPlanner.MakePlan` | src/agentharness/engine/context.py:119-199 | A plan is refused exactly when the budget is not positive or the mandatory groups cannot fit; the final re-check of the total never fails. |
| `Compaction.CoversExactly` | src/agentharness/engine/compaction.py:65-128 | With distinct ids, a plan covers a message if and only if it stands in a live valid group that is not among the newest ones and does not hold the latest user message. |
| `Compaction.PlanExistsExactlyWhen` | src/agentharness/engine/compaction.py:67-128 | History is folded if and only if compaction is enabled, the live groups are estimated above the given share of the maximum, and those of them that are not among the newest and do not hold the latest user message at 512 or more; the plan then reports these estimates, the number of groups and the share without its fraction. |
| `Compaction.LatestUserUncovered` | src/agentharness/engine/compaction.py:94-112 | The latest user message is never covered. |
| `Compaction.ReplanningYieldsNothing` | src/agentharness/engine/context.py:503-536 | Applying a plan and planning again on the same messages yields no plan. |
| `Compaction.SummaryOnlyGrows` | src/agentharness/engine/context.py:503-536 | Over every run of appends and compactions the summarised ids only grow, never repeat, name messages of the transcript, and never the latest user message. |
| `StreamNormaliser.EmissionIsCanonical` | src/agentharness/providers/openai_adapter.py:59-185 | For every error-free stream, what is emitted for a call is one start, all its pieces in order, and one end once its arguments are final and its id is known. |
| `StreamNormaliser.AcceptedExactlyWhen` | src/agentharness/providers/openai_adapter.py:66-185 | A stream is accepted if and only if every input agrees with those before it: ids trim to something, one for each call and no two alike; a name stays once it is known; arguments are completed only for calls that began, and always alike; and a call that comes to its end has a name and parsable arguments then, and no text after it. |
| `StreamNormaliser.TimingDoesNotMatter` | src/agentharness/providers/openai_adapter.py:59-185 | Two error-free streams that say the same about a call emit the same for it, however they interleave it with others and whenever its id arrives. |
| `StreamNormaliser.IdsAreInjective` | src/agentharness/providers/openai_adapter.py:75-89 | No two calls share an id. |
| `StreamNormaliser.NothingForStrangers` | src/agentharness/providers/openai_adapter.py:139-185 | Nothing is emitted under an id that no call has. |
| `StreamNormaliser.FinalisedMeansEnded` | src/agentharness/providers/openai_adapter.py:120-128 | The stream may be finalised if and only if every call got an id and final arguments, and then every call has ended, once and last. |
| `StreamNormaliser.Accumulator.Observe` | src/agentharness/providers/openai_adapter.py:66-97 | Observing a fragment changes the fields as specified, or fails exactly when the fragment contradicts what is known. |
| `StreamNormaliser.Accumulator.ArgumentsDone` | src/agentharness/providers/openai_adapter.py:99-118 | Completing arguments observes the fragment first and then emits the end, or fails on a second different text. |
| `StreamNormaliser.Accumulator.Finalize` | src/agentharness/providers/openai_adapter.py:120-128 | Finalising emits nothing and succeeds if and only if every call ended. |
| `StreamNormaliser.Accumulator.CompleteBuffered` | src/agentharness/providers/openai_adapter.py:130-137 | Completing what is buffered emits and leaves exactly what follows from giving every call without final arguments, in order, an empty fragment and its pieces put together, and fails exactly when that does; no other call changes. |
| `StreamNormaliser.RunContinues` | src/agentharness/providers/openai_adapter.py:130-137 | Such a continuation is the run of the longer stream, so that all results about streams hold of it. |
| `TokenBucket.LiveBucket.Take` | src/agentharness/providers/gateway.py:81-89 | Taking refills, grants or tells the wait, and leaves the specified tokens. |
| `TokenBucket.GrantsAreLimited` | src/agentharness/providers/gateway.py:72-89 | Within any stretch of takes at non-decreasing times, the costs granted are at most the rate times one plus the length of the stretch. |
| `TokenBucket.WaitIsExact` | src/agentharness/providers/gateway.py:81-89 | While the cost fits the rate, an undisturbed take succeeds after the returned wait and not before. |
| `TokenBucket.RefillIsExact` | src/agentharness/providers/gateway.py:75-80 | A bucket left alone fills at its rate until it holds one second's worth. |
| `TokenBucket.GrantedEventuallyExactlyWhen` | src/agentharness/providers/gateway.py:75-89 | After any takes, a cost can still be granted at some time if and only if it is at most the rate. |
| `CircuitBreaker.LiveBreaker.Record` | src/agentharness/providers/gateway.py:136-164 | Recording resolves a probe, or counts the outcome and trips, as specified. |
| `CircuitBreaker.LiveBreaker.TryProbe` | src/agentharness/providers/gateway.py:124-134 | A call passes unless it finds the breaker half-open with the probe slot taken, and takes the slot exactly when it passes half-open. |
| `CircuitBreaker.LiveBreaker.AbortProbe` | src/agentharness/providers/gateway.py:166-169 | Cancelling frees the probe slot of a half-open breaker, whoever holds it, and changes nothing else. |
| `CircuitBreaker.RecordingTracks` | src/agentharness/providers/gateway.py:136-164 | One recording keeps the pruned window equal to the recent part of the full history. |
| `CircuitBreaker.WindowIsHistory` | src/agentharness/providers/gateway.py:136-164 | Over every run the breaker is in the same mode, reports the same and trips exactly as one that never forgets and judges the recent part of its full history. |
| `CircuitBreaker.TripsExactlyWhen` | src/agentharness/providers/gateway.py:154-160 | The rule holds if and only if there are enough outcomes and at least the given share of them failed. |
| `CircuitBreaker.RecentMeans` | src/agentharness/providers/gateway.py:162-164 | An outcome counts if and only if it is no older than the window. |
| `CircuitBreaker.ProbeDecides` | src/agentharness/providers/gateway.py:136-148 | A successful probe closes the breaker with an empty window, a failed one opens it for another whole period, and either frees the slot. |
| `CircuitBreaker.OpenPeriodOnlyGrows` | src/agentharness/providers/gateway.py:136-160 | The end of the open period never moves back until a probe succeeds. |
| `CircuitBreaker.NothingAdmittedWhileOpen` | src/agentharness/providers/gateway.py:113-160 | After a trip at some time the breaker is open at every moment of the whole open period, whatever is recorded, probed or aborted meanwhile. |
| `CircuitBreaker.ReportMisleadsExactlyWhen` | src/agentharness/providers/gateway.py:141-160 | The reported state differs from the actual one if and only if an outcome arrives inside the open period and does not trip anew. |
| `ProviderGateway.PermitsAndProbeAreSafe` | src/agentharness/providers/gateway.py:214-286 | Over every run of arrivals, refusals, cancellations and stream ends, permits free and held add up to the limit, no more calls stream than allowed, and a taken probe slot belongs to a call of the current half-open epoch that is still in flight. |
| `ProviderGateway.SingleFlight` | src/agentharness/providers/gateway.py:124-169 | Over every run, all states up to one have at most one probe of the current half-open epoch, with its slot taken, if and only if no step up to it freed, without an outcome, a slot that another call holds. |
| `ProviderGateway.SecondProbeExactlyWhen` | src/agentharness/providers/gateway.py:383-418 | The next arrival after a step becomes a second probe if and only if the step freed a slot that another call holds. |
| `ProviderGateway.AloneOnceQuiet` | src/agentharness/providers/gateway.py:124-169 | From a moment without any call and with the breaker not closed, at most one call is in flight until it closes. |
| `ProviderGateway.EarlierCallBreaksSingleFlight` | src/agentharness/providers/gateway.py:383-418 | A run in which an earlier call is cancelled during the probe and a second probe is let through. |
| `ProviderGateway.GatewayPlays` | src/agentharness/providers/gateway.py:214-310 | The breaker of every gateway run is one that got exactly the signals of the run, in time order, so all results about the breaker hold of it. |
| `ProviderGateway.NobodyAdmittedWhileOpen` | src/agentharness/providers/gateway.py:223-244 | After a stream end opens the breaker, no call that arrives within the open period is admitted. |
| `ProviderGateway.StreamsAreLimited` | src/agentharness/providers/gateway.py:245-275 | Within any stretch of a run at most rate times one plus its length streams start. |
| `ProviderGateway.ArrivingIsExact` | src/agentharness/providers/gateway.py:223-244 | An arriving call is let in if and only if the open period is over and nobody probes, and holds the probe if and only if the breaker has not closed. |
| `ProviderGateway.TakingIsExact` | src/agentharness/providers/gateway.py:246-265 | A call with its permit streams if and only if the bucket grants at once, sleeps if and only if what is missing would be refilled within the longest wait, and is otherwise gone with its permit and any probe given back. |
| `ProviderGateway.StaysExactlyWhen` | src/agentharness/providers/gateway.py:246-265 | At a rate of one or more it stays if and only if it is granted at once or an undisturbed take would be within the longest wait. |
| `ProviderGateway.WakingIsExact` | src/agentharness/providers/gateway.py:265-286 | A call that has slept streams if and only if the bucket grants then, and is otherwise gone with its permit and any probe given back. |
| `ProviderGateway.SleepsInVain` | src/agentharness/providers/gateway.py:75-89 | Below a rate of one a call that was put to sleep is refused whenever it wakes. |
| `ProviderGateway.CancellingIsExact` | src/agentharness/providers/gateway.py:275-286 | A call cancelled while it waits is gone, with its permit back if and only if it had one, and any probe given back. |
| `ProviderGateway.EndingIsExact` | src/agentharness/providers/gateway.py:383-418 | The end of a stream gives its permit back; in a half-open breaker a success closes it, an error opens it for another period, and a cancellation leaves it half-open. |
| `EffectScheduler.Barrier` | src/agentharness/engine/scheduler.py:79-98 | A launched item has every earlier item done, unless both are parallel-safe. |
| `EffectScheduler.Limited` | src/agentharness/engine/scheduler.py:66-75 | A batch never runs more items than its limit at once. |
| `EffectScheduler.Exclusive` | src/agentharness/engine/scheduler.py:28-52 | Items that need the write lock never overlap, nor do items of the same browser context, across all batches. |
| `EffectScheduler.WritersAreAlone` | src/agentharness/engine/scheduler.py:28-52 | Of all writing, process and destructive items without a context, in all batches, at most one runs. |
| `EffectScheduler.ContextsAreExclusive` | src/agentharness/engine/scheduler.py:22-43 | Of the items of one browser context, in all batches, at most one runs. |
| `EffectScheduler.TogetherOnlyIfHarmless` | src/agentharness/engine/scheduler.py:79-98 | Two items of a batch run at the same time only if each is flagged as safe or, without a flag, pure, reading or network. |
| `EffectScheduler.HarmlessGoTogether` | src/agentharness/engine/scheduler.py:79-98 | And such an item joins the segment that is launched as a whole. |
| `EffectScheduler.EachOnce` | src/agentharness/engine/scheduler.py:54-101 | Each item starts at most once; in a finished batch each started exactly once and its value stands in its own slot. |
| `EffectScheduler.ResultsStay` | src/agentharness/engine/scheduler.py:65-75 | A value in a slot is never replaced. |
| `EffectScheduler.SomethingCanMove` | src/agentharness/engine/scheduler.py:28-101 | No deadlock: while a batch is unfinished, some item or some loop can go on. |
| `EffectScheduler.BatchEnds` | src/agentharness/engine/scheduler.py:54-101 | A batch of n items is over after at most 8n + 3 moves of its items and its loop, whatever other batches do. |
| `EventLog.LiveLog.Append` | src/agentharness/storage/events.py:24-74 | Appending keeps global numbers increasing, the numbers of each run contiguous from one, and the watermark at or above every row. |
| `EventLog.MaxIsCount` | src/agentharness/storage/events.py:28-33 | Numbering on from the maximum of a run is counting its events. |
| `EventDelivery.DeliveredExactlyOnce` | src/agentharness/api/server.py:437-499 | In every state of every run a connection has emitted exactly the log above its starting cursor and up to its current one, in order; the client has accepted exactly the subscribed events above its base and up to its last one, each once; its buffer is the newest thousand; the base is the starting cursor if there is one, and otherwise the end of the log at the last connection opened before anything was accepted. |
| `EventDelivery.NothingMissed` | web/src/useAgentStream.ts:109-148 | Once nothing is outstanding, every subscribed event above the base was accepted. |
| `EventDelivery.BaseStays` | web/src/useAgentStream.ts:109-148 | Once something was accepted, or while no connection starts over, the base stays. |
| `EventDelivery.LostExactlyWhen` | src/agentharness/api/server.py:428-435 | A subscribed event above the starting cursor is missing, once nothing is outstanding, if and only if after its commit a connection was opened for a client that had accepted nothing. |
| `EventDelivery.LostForEver` | src/agentharness/api/server.py:428-435 | Such an event is never accepted in any later state. |
| `EventDelivery.WithoutCursorEventsAreSkipped` | web/src/useAgentStream.ts:42-44 | A run in which a client without a cursor never gets an event committed between two of its connections. |
| `EventDelivery.LiveClient.Receive` | web/src/useAgentStream.ts:130-144 | Receiving ignores other types and old events, and keeps the newest thousand. |
| `Utf8Truncation.RoundTrip` | src/agentharness/engine/tool_execution.py:174-183 | Decoding undoes encoding (RFC 3629, section 3). |
| `Utf8Truncation.CutDecodes` | src/agentharness/engine/tool_execution.py:179-183 | Cutting encoded bytes anywhere and decoding while ignoring errors is taking the longest prefix of whole code points that fits. |
| `Utf8Truncation.TruncationIsLongestPrefix` | src/agentharness/engine/tool_execution.py:174-183 | The result never exceeds the limit; it is the text and the suffix if both fit, the longest fitting prefix and the suffix otherwise, and a prefix of the suffix when not even that fits. |
| `ResultFitting.PayloadIsLength` | src/agentharness/engine/tool_execution.py:195-197 | The length of a written JSON string is the sum of the costs of its code points (RFC 8259, section 7). |
| `ResultFitting.WrittenReads` | src/agentharness/engine/tool_execution.py:195-197 | Reading a written JSON string back gives the text (RFC 8259, section 7). |
| `ResultFitting.TruncatePayload` | src/agentharness/engine/tool_execution.py:200-215 | The binary search ends with the text if it fits, and otherwise with the longest prefix that fits together with its marker. |
| `ResultFitting.FitResult` | src/agentharness/engine/tool_execution.py:218-249 | The fitted result is within the limit if and only if the result was, or its envelope alone is; each text keeps its longest fitting prefix, the final output first. |
| `ResultFitting.BoundResult` | src/agentharness/engine/tool_execution.py:1370-1442 | A bounded result is the first fit of its capped texts, or, when that is too long to be kept inline, the fit of its archived form while the whole first fit is stored; it is within the limit if and only if that form or its envelope is. |
| `UsageAccounting.BillableTokens` | src/agentharness/engine/context.py:40-79 | What is billed is the reported number or the estimate, and within the inflation bound whenever there is an estimate. |
| `UsageAccounting.TurnIsBilled` | src/agentharness/engine/runtime.py:1415-1447 | A turn is billed as reported when its numbers are believable, and by estimate when nothing was reported. |
| `UsageAccounting.OthersAreBilled` | src/agentharness/engine/runtime.py:1365-1370 | A summary is billed as a turn is; a retry as reported, missing numbers by estimate; a verification as it says, a missing total summed up. |
| `UsageAccounting.CostIsWeighted` | src/agentharness/engine/runtime.py:116-147 | The estimate charges uncached input, cached input and output each at its rate, and cached input at the input rate while it has none. |
| `UsageAccounting.CachedAlongRun` | src/agentharness/engine/runtime.py:1436-1441 | Cached input never exceeds input, whatever the provider reports. |
| `UsageAccounting.GrowsExactlyWhen` | src/agentharness/engine/runtime.py:1365-1370 | A charge lowers no counter if and only if the numbers it takes unclamped are not negative. |
| `UsageAccounting.UsageNeverGoesBack` | src/agentharness/engine/runtime.py:116-147 | Along every run of honest charges no counter and no cost estimate ever goes back. |
| `RunLoop.Consume` | src/agentharness/engine/runtime.py:1146-1305 | The reply is the stream folded item by item up to its end or first error, and text, calls per turn, calls per run and argument bytes stay within their limits whatever is streamed. |
| `RunLoop.AnswerIsWhole` | src/agentharness/engine/runtime.py:1146-1305 | A reply without an error holds all text before the end, the sum of all reported usage, and every call that was named, taken or ignored as excess. |
| `RunLoop.SilentHeardNothing` | src/agentharness/engine/runtime.py:1146-1305 | A reply counted as without output took no text and no call from the stream. |
| `RunLoop.StreamIsTaken` | src/agentharness/engine/runtime.py:1146-1305 | A stream without a failure, in which every call is started before anything else is said of it and ended once, and whose text, calls and arguments are within their limits, is taken without an error. |
| `RunLoop.Ask` | src/agentharness/engine/runtime.py:1085-1400 | The replies are exactly those of the streams one to n of the step, n at most one more than there are retries; all but the last failed in a way that may pass with nothing heard; each found the budget open after the retries charged before it; and each that was given up is charged. |
| `RunLoop.TakeTurn` | src/agentharness/engine/runtime.py:1402-1464 | A turn costs one charge for each of its provider calls, and ends with the error that the budget, cut arguments or the caps dictate. |
| `RunLoop.UnaskedTurnIsBilled` | src/agentharness/engine/runtime.py:1415-1447 | A turn that could not ask at all is billed the planned input. |
| `RunLoop.MayAskMeans` | src/agentharness/engine/runtime.py:1088-1119 | With known prices the provider may be asked if and only if tokens are left and, under a cost cap, what is left beyond the planned input buys at least one token of output. |
| `RunLoop.Judge` | src/agentharness/engine/runtime.py:1534-1605 | A verification is charged in full before its verdict is looked at; what the verdict does is `RunLoop.EndingIsRight`. |
| `RunLoop.Loop` | src/agentharness/engine/runtime.py:912-1856 | The loop ends; its rounds are exactly those that the outside world, the budget and the usage so far dictate; the usage is the start and the invoice of these rounds (summary calls, provider calls, verifications), the provider calls are the replies on record, at most (remaining steps) times (one plus retries); the status is the one of the last round or of the check that stopped; and a run that ends as completed is within its token, cost, output, step and call caps, whatever the provider streams and reports. |
| `RunLoop.EndingIsRight` | src/agentharness/engine/runtime.py:1530-1856 | A run ends as completed if and only if its last round has no verification or one that accepts and can be paid for; as needing a human if and only if a tool outcome is unclear or an affordable verification asks; as paused if and only if a tool alone asked to pause; as interrupted by its round if and only if its stream was stopped; a stop verdict fails it; an affordable wish to try again never ends it, and only such rounds and tools without final output are followed by others. |
| `RunLoop.AfterIsInvoiced` | src/agentharness/engine/runtime.py:1365-1447 | What the rounds lead to is paid for by their charges, and every provider call is counted. |
| `RunLoop.StepsCount` | src/agentharness/engine/runtime.py:935-995 | The rounds have consecutive steps, so that no provider stream is read twice. |

## Left out

- SQL, files, HTTP, process handling, event emission and redaction: redaction is the identity, and storing or loading is one step.
- Legacy checkpoints that record provider ids as completed, and a `tool_result` without an invocation id in this run's own messages.
- Verification commands run as tool batches of their own with ids that only the run context knows; the tool model speaks of calls issued by the model.
- The names, effects and policies of a call are fixed when it is issued; a tool registry that answers differently on resume is not modelled (the stored policy of an existing record is not updated by a later save either).
- Expiry of approvals, lease ownership and the compare-and-set of a human decision: a decision is one step on an inactive run.
- Wall-clock timeouts, random jitter and back-off delays: a step may happen at any time, and an outcome may be a timeout.
- ToolTranscript.OneResultPerCall: stated for calls to known tools, the others being the subject of `ToolRefusals`, and up to the first merge that the rows win, whose effect `ToolLosses` states exactly; what a run makes of a checkpoint written by such a merge is not stated.
- ToolSafety.NeverReplayed: excludes calls whose tool reports success under the code of a cancellation, because the code does run such a call again.
- EventDelivery.DeliveredExactlyOnce: assumes that events are fanned out in commit order, and that queued events are rows of the log.
- EffectScheduler.EachOnce: items do not raise; an exception that leaves a batch is not modelled.
- TokenBucket.LiveBucket.Take: real arithmetic without rounding; so is the cost estimate, which the code rounds to ten digits.
- Utf8Truncation.TruncationIsLongestPrefix: text without lone surrogates; the encoder of the code raises on those.
- ContextPlanner.BudgetMessages: artifact ids are 32 characters; hashes and previews of the manifest are not modelled.
- Compaction: rendering of the summariser prompt and the summariser call itself; a compaction that fails changes nothing.
- StreamNormaliser.TimingDoesNotMatter: speaks of everything but the tool name on starts and pieces, which the code fills in as far as it is known at that moment.
- ToolReconciliation.ReconcilerComesFirst: speaks of one batch, because a stop in between loses the mark; a call whose reconciler fails is left to a human like any indeterminate one.
- Delegation to child runs, memory, skills, the harness API, procurement features and evaluation: no part of the runtime's core.
