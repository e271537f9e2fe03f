# Verified model of the GoAgent conversation runtime and plan control plane

This project models, in Dafny, the parts of GoAgent that promise something about whole histories.

**The durable conversation runtime.** `ConversationModel` holds the tables (threads, runs,
messages, the per-thread event log, the queue of deferred projections, the outbox) and the
transactions that change them, as functions from tables to tables or an error; an error leaves the
tables as they were. A run of the system is any sequence of admissions, deliveries, abandonment
passes and deferred-projection passes. `ConversationReplay` gives the log an independent meaning: a
left fold that knows no guards and no transactions. `ConversationInvariants` states what every step
keeps; `ConversationIngestion`, `ConversationAdmission` and `ConversationSweep` prove it for each
kind of step, `ConversationHistory` for every run; `ConversationTheorems` and `ConversationLimits`
draw the conclusions, and `ConversationWitnesses` and `ConversationInterruptWitness` give the runs
that end in the states the limits speak of. `ConversationLives`, `ConversationEffects` and
`ConversationRequests` say in texts and columns what the transactions do: what a run row holds, which
events and requests are accepted, with which error the others are refused, and what each one writes. `ConversationRuntime` is the runtime as a class that
updates its tables row by row, with loops and rollback, proved equal to the steps.
`ConversationSubscription` is the paging subscriber, over one pass, over the polling loop, and over
any run of the system.

**The plan command outbox.** `PlanCommandCodec` is the payload codec of recorded commands with the
effect of JSON storage, `Timestamps` the date-time text of section 5.6 of RFC 3339. `PlanCommands`
interleaves callers, reconcilers, crashes, the two receive loops of the workflow and
continue-as-new, one operation at a time, and starts of a closed workflow. `PlanCommandTheorems`
proves what every interleaving keeps, `PlanDispatch` what a delivery leaves behind and in which order
commands are applied, `PlanRestarts` what a plan that is started again can apply twice, and
`PlanCommandRuntime` is the imperative form.

**Three smaller pieces**: `PlanStream` (replay, catch-up and live handoff of a plan subscription),
`ProcessTimers` (timers over continuations), `RetryWindow` (the retry budget arithmetic). `Text` and
`Arithmetic` hold what several modules share.

## What turned out not to hold

* The status CHECK of the baseline migration spells `cancelled`; the runtime writes `canceled`. A
  cancellation is stored if and only if the constraint accepts the runtime's spelling
  (`CancelIff`), so under the baseline no run ever ends as canceled (`BaselineNeverCancels`): the
  event is refused and the run keeps its thread until its lease expires. `CancelWitness` reaches
  such a refusal.
* The comments at agentos/conversation/sweeper.go:161-164, 197-199 and 248-253 describe one entry
  per thread and a retry counter for a thread that was taken again. The query selects every entry of
  a free thread and the projection runs without a savepoint, so a failed start aborts the
  transaction, and the counter's own update with it. The model follows the code: a pass commits if
  and only if all selected runs still wait and no two share a thread (`SweepPass`). Two turns parked
  on one free thread block the sweeper (`TwoParkedTurnsBlock`), neither of two turns parked on one
  thread is started from the queue while the queue fits a batch (`ParkedPairStays`), and an entry
  whose run was ended or started another way blocks every pass that selects it, for ever
  (`StaleEntryPoisonsSweeps`). `PairWitness` and `StaleWitness` reach both states.
* An abandonment does nothing if the run's reserved source id is already taken on its thread
  (`AbandonedIff`, reached by `ReservedWitness`); it works for every run when producers keep off
  these ids (`AbandonmentTheorem`).
* A promoted run keeps the last activity of its parked fact, so it can be selected as dead right
  after it was started, if and only if that activity is older than the lease (`PromotedLease`).
* A signal recorded with a nil payload is stored as JSON null and rebuilt by the reconciler with an
  empty object. Its audit then never matches its command: an undisturbed redelivery delivers a
  command if and only if it is not such a signal (`RedeliveryIff`), and once the reconciler's audit
  is in place the command stays undelivered whatever happens (`BareSignalNeverDelivered`). Its
  effect is still applied at most once.
* Starting a plan sets no policy against reusing the workflow id
  (agentos/temporal/plan_runtime.go:832-836). A start delivered again after the workflow closed
  opens a new chain of executions without processed keys; nothing else opens one
  (`ChainsAreRestarts`). At most once holds for each chain (`AppliedAtMostOnce`). Across a restart it
  does not: the new chain can apply a command recorded before if and only if the command is not
  marked delivered or somebody is still about to dispatch it (`ReappliedIff`, `RestartTheorem`).
  `RestartRepeats` is a run for the first case. `DeliveredRepeats` is one for the second: two calls
  with one key, the first of which delivers.
* Commands of one channel are applied in the order in which they were dispatched (`DispatchOrder`),
  provided no continuation loses the earlier one before it was applied. If one does, the later
  command is applied first and the reconciler brings the lost one in behind it (`LossReverses`).
* An interrupted run can be found by the interrupt query, now or later, if and only if no run of its
  thread resumes its interrupt id yet (`AnswerableIff`). A run that asks under an id that was used
  before is settled from the start: no turn has to answer it and none can (`UnanswerableWitness`).
* The retry window computed by the loop is the documented sum if and only if no retry is made or
  the initial interval is within the cap (`WindowIsSumIff`); otherwise it is larger by the excess.
  It is so for durations that floating point represents exactly; a duration that is rounded down
  gives a window below the sum (`InexactBreaksSum`).

## Modelling decisions

Every committed transaction is one atomic step and every failed one is no step. Clock readings and
generated ids are parameters. The answers of ordered or limited queries (latest interrupt, expired
runs, deferred entries) are parameters too, restricted to the answers the query can give; rows
skipped by a lock and ties in an order are therefore covered. `next_sequence` starts at 0. Unique
indexes and CHECK constraints are guards. Attachments are a flag, metadata and `updated_at` columns
are dropped. All runs abandoned in one pass share one clock reading. In the plan commands a key
stands for the command of one plan, and "done and reported as an error" is a possible fate of every
remote operation.

## Model

| member | source | states |
|---|---|---|
| Text.TrimDropsOnlySpace | agentos/conversation/store.go:830-837 | the trimmed text is a middle piece of the text, and everything dropped before and after it is white space |
| Text.TrimSpace | agentos/conversation/store.go:39-79 | no white space is left at either end, and a text without any is unchanged |
| Text.TrimIdempotent | agentos/conversation/store.go:39-79 | a trimmed identifier reads back as itself |
| ConversationReplay.LateStartIsInPlace | agentos/conversation/sweeper.go:236-264 | folding a log with a parked start left out and applying the start at the end equals folding it at its own position |
| ConversationReplay.FoldedLivesMoved | agentos/conversation/store.go:303-350 | a run with an entry in the fold of a log is no longer pending |
| ConversationInvariants.SourceLookup | agentos/conversation/store.go:680-696 | the source lookup finds a fact if and only if one carries the id, and what it finds carries it |
| ConversationInvariants.LogFactAt | agentos/conversation/sweeper.go:280-308 | on a gapless log, reading a sequence returns exactly the fact at that position |
| ConversationIngestion.RecordIsNext | agentos/conversation/runtime.go:476-510 | storing an admitted fact never conflicts, and changes exactly the log, the counter, the outbox, the queue, one run row and the projected messages |
| ConversationIngestion.NextKeepsOneRunner | agentos/conversation/store.go:303-318 | after any stored fact at most one run of a thread is running |
| ConversationIngestion.NextKeepsCursors | agentos/conversation/runtime.go:553-563 | source positions stay increasing and the run's cursor is its last one |
| ConversationIngestion.NextKeepsPublished | agentos/conversation/store.go:665-678 | with the outbox on there is exactly one outbox row per fact |
| ConversationIngestion.HandledIsFolded | agentos/conversation/store.go:400-536 | the message table after a start, delta or end event is what the fold makes of the event |
| ConversationIngestion.NextReplaysApplied | agentos/conversation/runtime.go:574-593 | the tables of a thread are the fold of its log after an applied event |
| ConversationIngestion.NextReplaysParked | agentos/conversation/runtime.go:596-606 | the same after a parked start |
| ConversationIngestion.NextKeepsStreams | agentos/conversation/store.go:438-466 | an open message stays the concatenation of its owner's trimmed deltas |
| ConversationIngestion.NextKeepsInterruptions | agentos/conversation/store.go:586-616 | an interrupted run names its interrupt and owns a completed assistant message |
| ConversationIngestion.PersistCases | agentos/conversation/runtime.go:516-540 | an accepted delivery is a stored fact given back unchanged, or one new fact with its projection or its queue entry |
| ConversationIngestion.PersistKeepsInv | agentos/conversation/runtime.go:476-510 | every accepted delivery keeps the whole invariant |
| ConversationAdmission.UserFactsAreAppended | agentos/conversation/runtime.go:344-360 | the user message facts are appended in order at the next sequences and nothing else changes |
| ConversationAdmission.UserFactsFold | agentos/conversation/runtime.go:319-360 | the three facts fold to the user message row exactly as it was inserted |
| ConversationAdmission.AcceptedResume | agentos/conversation/store.go:175-213 | the interrupt an accepted request resumes has not been resumed by any run of the thread |
| ConversationAdmission.StartCases | agentos/conversation/runtime.go:230-269 | an accepted request is answered with the run its key admitted, or admits exactly one new run with its message and facts |
| ConversationAdmission.StartKeepsInv | agentos/conversation/runtime.go:219-228 | every accepted request keeps the whole invariant |
| ConversationSweep.PromoteOneCases | agentos/conversation/sweeper.go:236-264 | a parked start is applied if and only if its run is pending and its thread is free |
| ConversationSweep.PromotedReplaysOwn | agentos/conversation/sweeper.go:236-264 | the tables are the fold of the log after a parked start is applied late |
| ConversationSweep.SweepPass | agentos/conversation/sweeper.go:165-231 | a pass commits if and only if all selected runs are pending and on different threads; then it starts all of them, each the earliest parked turn of a free thread, and takes exactly these entries off the queue |
| ConversationSweep.TwoParkedTurnsBlock | agentos/conversation/sweeper.go:200-231 | with two turns parked on a free thread and a queue that fits a batch, no pass changes anything and every legal selection fails |
| ConversationSweep.AbandonOne | agentos/conversation/sweeper.go:116-159 | abandoning a running run never fails; it writes the terminal fact unless the reserved id is taken, and then changes nothing |
| ConversationSweep.AbandonPass | agentos/conversation/sweeper.go:58-77 | a pass never fails, ends every selected run whose reserved id is free, leaves all other runs as they were, and keeps the invariant |
| ConversationHistory.StepKeepsInv | agentos/conversation/runtime.go:679-702 | every transaction, committed or rolled back, keeps the invariant |
| ConversationHistory.StepEvolves | agentos/conversation/runtime.go:679-702 | every transaction only adds: logs grow, runs and messages keep their identity, closed messages and ended runs stay as they are |
| ConversationHistory.ExecKeepsInv | agentos/conversation/sweeper.go:41-50 | the invariant holds after any sequence of transactions |
| ConversationTheorems.ReplayTheorem | agentos/conversation/store.go:303-350 | in every reachable state the runs' lifecycles and the messages of a thread equal the fold of its log in sequence order, skipping exactly the starts still queued |
| ConversationTheorems.TablesAreSound | agentos/conversation/store.go:618-678 | in every reachable state logs are gapless and owned by their tenant, the outbox mirrors them, one run holds a thread, keys admit once, interrupts are resumed once, interrupted runs have spoken, open messages are their deltas |
| ConversationTheorems.HistoryIsKept | agentos/conversation/runtime.go:476-510 | whatever happens later only adds to what a reachable state recorded |
| ConversationTheorems.LosingStartIsParked | agentos/conversation/runtime.go:545-606 | a start that loses the thread is stored once, queued once, moves the cursor, and changes no status and no message |
| ConversationTheorems.RedeliveredEvent | agentos/conversation/runtime.go:512-540 | a source event already stored changes nothing; it is accepted if and only if it is well formed and matches its run's thread, tenant and process, and then returns the stored fact |
| ConversationTheorems.RedeliveredStart | agentos/conversation/store.go:215-228 | a request with a used key changes nothing; it is accepted if and only if it is well formed and of the thread's tenant, and then returns the admitted run |
| ConversationTheorems.AcceptedRepeats | agentos/conversation/runtime.go:363-372 | a delivery that was accepted counts as stored from then on |
| ConversationTheorems.RedeliveryStutters | agentos/conversation/runtime.go:230-317 | repeating a stored delivery or admission anywhere later in any run leaves the final state unchanged |
| ConversationTheorems.RunsMoveForward | agentos/conversation/store.go:303-358 | in one step a run goes from pending to running, from running to one terminal status, from pending to error, or stays |
| ConversationTheorems.TerminalIsFinal | agentos/conversation/store.go:538-584 | an ended run keeps its whole lifecycle for ever and no new event of a projected type is accepted for it |
| ConversationTheorems.SourcesIncrease | agentos/conversation/runtime.go:516-540 | of two external facts of a run the later one has the larger source sequence |
| ConversationTheorems.CursorTheorem | agentos/conversation/runtime.go:553-563 | in every reachable state the cursor is the last source sequence, and source sequences strictly increase along the log |
| ConversationTheorems.AdmissionIff | agentos/conversation/runtime.go:271-317 | a new key is admitted if and only if the tenant fits, the ids are new, and the request names the latest unresolved interrupt, or none when there is none |
| ConversationTheorems.ResumedOnce | agentos/conversation/store.go:175-213 | an interrupt id is resumed by at most one run of its thread, ever |
| ConversationTheorems.EndingCloses | agentos/conversation/store.go:468-512 | an end with a text replaces the content by exactly that text; without one the accepted deltas stand |
| ConversationTheorems.ReplayedMessageKeepsOwner | agentos/conversation/store.go:382-398 | an event of a run that does not own the message changes nothing, except that an end closes it if it is open |
| ConversationLives.LifecyclesAreSound | agentos/conversation/store.go:538-584 | in every reachable state the columns of every run are those of its status: outcome, interrupt, error and both times |
| ConversationLives.StatusRoundTrip | agentos/control/conversation.go:27-32 | the status texts the runtime writes are read back as the same statuses, one text for each |
| ConversationEffects.ArrivesIff | agentos/conversation/runtime.go:512-540 | an event passes the guards as new if and only if its run exists in its scope, its source id is not stored and its position is beyond the cursor |
| ConversationEffects.StartRuns | agentos/conversation/store.go:303-318 | a pending run on a free thread starts: running, started at the time of the event, everything else unset |
| ConversationEffects.ErrorEnds | agentos/conversation/store.go:320-331 | a reported error ends a pending or running run with the code and message of the payload |
| ConversationEffects.NormalFinish | agentos/conversation/store.go:548-550 | a normal finish of a running run is accepted and stores completed, normal, no interrupt, no error, and the time of the event |
| ConversationEffects.CanceledFinish | agentos/conversation/store.go:551-552 | a cancellation that the status constraint accepts stores canceled |
| ConversationEffects.InterruptedFinish | agentos/conversation/store.go:553-561 | a run that has spoken is interrupted with the id, type and prompt of the payload |
| ConversationEffects.AbandonedFinish | agentos/conversation/store.go:562-573 | an abandoned run ends as an error with code lease_expired and the given reason or the standard one |
| ConversationEffects.OpeningStarts | agentos/conversation/store.go:400-436 | under a new id a message of each of the three roles is accepted and stored open and empty |
| ConversationEffects.DeltaAppends | agentos/conversation/store.go:438-466 | every delta to an open message of the run is accepted, and the content becomes the old content and the trimmed delta |
| ConversationEffects.EndCloses | agentos/conversation/store.go:468-536 | an end of an open message of the thread is accepted and closes it with the untrimmed text of the event or its streamed content |
| ConversationEffects.ReplayIsAccepted | agentos/conversation/store.go:376-398 | what a run repeats of a message of another run of its thread is accepted and changes nothing |
| ConversationEffects.OtherEventsAreKept | agentos/conversation/store.go:333-343 | an event of any other type is stored and changes nothing else, in every status of its run |
| ConversationEffects.RefusedIff | agentos/conversation/store.go:303-358 | an arriving event is refused if and only if status, payload, messages or the status constraint is against it, and with the error of the first of these |
| ConversationEffects.DeliveryTheorem | agentos/conversation/store.go:96-137 | the outcome of every delivery, from the raw event: incomplete, unknown run, wrong tenant, wrong process, stored before, out of order, refused or stored |
| ConversationRequests.QueryReturnsLatest | agentos/conversation/store.go:175-190 | the interrupt query returns a run if and only if no open interrupt of the thread ended later, or at the same time with a later creation, and nothing if and only if none is open |
| ConversationRequests.AdmissionTheorem | agentos/conversation/runtime.go:271-317 | in every reachable state a new key is admitted if and only if the tenant fits, the ids are new, and the request answers the latest open interrupt when one is open |
| ConversationRequests.DeniedIff | agentos/conversation/store.go:175-213 | a request under a new key is refused in these cases only: wrong tenant, interrupt missing or wrong, id taken, each with its error |
| ConversationRequests.AdmissionWrites | agentos/conversation/runtime.go:230-360 | an admission writes one pending run, one completed user message, its three facts and the thread if it is new, and nothing else |
| ConversationRequests.RequestIsRead | agentos/conversation/store.go:24-94 | a raw request is refused as invalid if and only if a field, the message and attachments, or the resume is blank; otherwise it is answered with identifiers trimmed and missing ids generated |
| ConversationLimits.QueueOnlyGrows | agentos/conversation/runtime.go:596-606 | no transaction but a sweep removes or changes a queue entry |
| ConversationLimits.StaleEntryPoisonsSweeps | agentos/conversation/sweeper.go:236-264 | an entry whose run is no longer pending stays queued for ever, and every pass that selects it rolls back |
| ConversationLimits.ParkedPairStays | agentos/conversation/sweeper.go:200-264 | two turns parked on one thread, held or free, both stay queued along every run whose queue fits a batch |
| ConversationLimits.AnswerableIff | agentos/conversation/store.go:175-213 | an interrupted run is found by the interrupt query in some later state if and only if no run of its thread resumes its id yet |
| ConversationLimits.NobodyResumesAgain | agentos/conversation/store.go:175-213 | once an id is resumed, no run admitted later resumes it |
| ConversationLimits.PromotedLease | agentos/conversation/sweeper.go:82-111 | a run a pass has just started can be selected as dead at once if and only if its last activity is older than the lease |
| ConversationLimits.AbandonedIff | agentos/conversation/sweeper.go:116-159 | a selected run stops running if and only if its reserved source id is free on its thread |
| ConversationLimits.AbandonedOnce | agentos/conversation/sweeper.go:154-159 | no thread holds two abandonment facts of one run |
| ConversationLimits.AbandonmentTheorem | agentos/conversation/sweeper.go:58-152 | when producers keep off the reserved ids, a pass ends every selected run with code lease_expired, frees its thread, and leaves every other run as it was |
| ConversationLimits.CancelIff | agentos/conversation/store.go:538-584 | a reported cancellation of a running run is stored if and only if the status constraint accepts the text written |
| ConversationLimits.BaselineRefusesCancel | migrations/20261010000001_baseline.up.sql:441 | the baseline constraint refuses every cancellation |
| ConversationLimits.BaselineNeverCancels | migrations/20261010000001_baseline.up.sql:422-442 | under the baseline no reachable state holds a canceled run |
| ConversationWitnesses.StaleWitness | agentos/conversation/runtime.go:545-606 | three admissions, a start, a parked start and an error of the parked run reach a stale entry, and no pass that selects it commits |
| ConversationWitnesses.PairWitness | agentos/conversation/sweeper.go:200-231 | a run that reaches two turns parked on a free thread, where no pass whatsoever starts anything |
| ConversationWitnesses.ReservedWitness | agentos/conversation/sweeper.go:154-159 | a run that reaches a silent running run whose reserved id is taken; abandoning it leaves it running |
| ConversationWitnesses.CancelWitness | migrations/20261010000001_baseline.up.sql:441 | a run that reaches a fresh cancellation of a running run, refused under the baseline |
| ConversationWitnesses.SomeNames | agentos/conversation/store.go:39-79 | the runs, messages and source events the four runs above need can be named |
| ConversationInterruptWitness.UnanswerableWitness | agentos/conversation/store.go:175-213 | a run in which a turn answers an interrupt and asks again under its id; it waits, and the interrupt query returns nothing |
| ConversationInterruptWitness.SomeRoles | agentos/conversation/store.go:39-79 | the names that run needs exist |
| ConversationRuntime.InterruptQueryAnswers | agentos/conversation/store.go:175-213 | in every state the interrupt query has an answer |
| ConversationRuntime.Runtime.constructor | migrations/20261010000001_baseline.up.sql:505-514 | the runtime starts with empty tables |
| ConversationRuntime.Runtime.StartMessage | agentos/conversation/store.go:400-436 | opens a message, accepts a replay, or refuses, as the projection function says |
| ConversationRuntime.Runtime.AppendContent | agentos/conversation/store.go:438-466 | appends the trimmed delta to the owner's open message, accepts a replay, or refuses |
| ConversationRuntime.Runtime.EndMessage | agentos/conversation/store.go:468-536 | closes the message of its owner or an open replayed one, or refuses |
| ConversationRuntime.Runtime.ApplyProjection | agentos/conversation/store.go:303-350 | updates the run and message rows exactly as the projection function says, and none on error |
| ConversationRuntime.Runtime.Append | agentos/conversation/store.go:618-678 | allocates the next sequence, inserts the fact and its outbox row |
| ConversationRuntime.Runtime.Persist | agentos/conversation/runtime.go:476-510 | admission, projection with savepoint, parking, append and cursor together are the ingestion step |
| ConversationRuntime.Runtime.Ingest | agentos/conversation/runtime.go:363-372 | one call is one ingestion step, rolled back on error, and keeps the invariant |
| ConversationRuntime.Runtime.AppendUserMessage | agentos/conversation/runtime.go:344-360 | the loop appends the three facts of the user message |
| ConversationRuntime.Runtime.Start | agentos/conversation/runtime.go:219-228 | one call is one admission step, rolled back on error, and keeps the invariant |
| ConversationRuntime.Runtime.AdmitRun | agentos/conversation/runtime.go:230-317 | the transaction body computes the admission function |
| ConversationRuntime.Runtime.AbandonExpiredRuns | agentos/conversation/sweeper.go:58-77 | the loop over expired runs is the abandonment step and counts the batch |
| ConversationRuntime.Runtime.ApplyDeferredProjection | agentos/conversation/sweeper.go:236-264 | one parked projection, with its queue row, as the step function says |
| ConversationRuntime.Runtime.ApplyDeferredProjections | agentos/conversation/sweeper.go:165-187 | the loop over parked entries is the sweep step, rolled back as a whole on the first error |
| ConversationSubscription.EventsAfterIsSuffix | agentos/conversation/runtime.go:800-813 | on a gapless log the query returns exactly the rest of the log |
| ConversationSubscription.Subscriber.SendPage | agentos/conversation/runtime.go:765-798 | what was sent stays the contiguous piece of the log up to the cursor, wherever the consumer stops |
| ConversationSubscription.Subscriber.CatchUp | agentos/conversation/runtime.go:765-787 | over any appends between the queries of a pass, the subscriber is sent a gapless, repeat-free prefix of the events after its start, after a short page all that the last query saw, and no less than the budget or full pages otherwise |
| ConversationSubscription.Subscriber.Follow | agentos/conversation/runtime.go:741-763 | the polling loop over any number of passes, with failing queries and a consumer that may go away, keeps this for every later log |
| ConversationSubscription.SeenIsGrowing | agentos/conversation/runtime.go:800-813 | the logs that queries find along any run of the system are gapless and only grow |
| ConversationSubscription.SubscribeThread | agentos/conversation/runtime.go:704-763 | however a run of the system and a subscriber's queries interleave, it is sent consecutive facts of the thread's log from its start, its cursor is the last of them, and nothing the last query saw is missing unless the consumer went away or every page of the last pass was full, with 256 facts |
| ConversationSubscription.SnapshotIff | agentos/conversation/runtime.go:621-650 | a thread can be read if and only if it exists and belongs to the tenant who asks |
| ConversationSubscription.SnapshotThenFollow | agentos/conversation/runtime.go:633-677 | a snapshot is of a thread of the tenant who asks, holds as many recent events as asked for (200 unless 1 to 1000 are), and these followed by a subscription from its cursor are one contiguous suffix of the log at any later time |
| Timestamps.TimeRoundTrip | agentos/temporal/plan_command_reconciler.go:336-355 | every writable time is read back as itself, all nine fraction digits and the zone included |
| Timestamps.ZeroIff | agentos/temporal/plan_runtime.go:994-1002 | a time is left out as zero if and only if it is the first instant of year 1 in UTC, in whatever zone it is written |
| Timestamps.FormatExample | agentos/temporal/plan_command_reconciler.go:336-355 | a written time, place by place, in the form of the standard |
| PlanCommandCodec.JsonIsPlain | internal/repo/persistent/agentos_plan_postgres.go:1551-1577 | whatever comes back from storage is null, text, number, flag, list or object, all the way down |
| PlanCommandCodec.PlainIsKept | internal/repo/persistent/agentos_plan_postgres.go:1551-1577 | such a value comes back from storage as itself |
| PlanCommandCodec.JsonIdempotent | internal/repo/persistent/agentos_plan_postgres.go:1551-1577 | a stored value stays as it is when it is stored again |
| PlanCommandCodec.StringEntries | agentos/temporal/plan_command_reconciler.go:310-334 | metadata read from JSON is converted whole if and only if every value is a string, and refused otherwise |
| PlanCommandCodec.SignalRoundTrip | agentos/temporal/plan_command_reconciler.go:193-221 | a valid signal is rebuilt from memory as itself, and from storage with the same type, key, actor and time and the stored form of its payload, nil having become empty |
| PlanCommandCodec.PlainSignalReturns | agentos/temporal/plan_command_reconciler.go:193-221 | a valid signal with such a payload is rebuilt from storage with exactly that payload, and a nil payload as an empty one |
| PlanCommandCodec.SignalRebuildsIff | agentos/temporal/plan_command_reconciler.go:193-221 | a signal can be rebuilt from any record if and only if key and actor are set, the type is known, payload and time are of their kind, and a node retry names its node |
| PlanCommandCodec.UntypedIsRefused | agentos/temporal/plan_command_reconciler.go:257-272 | a record whose type is not a text is refused |
| PlanCommandCodec.ControlRoundTrip | agentos/temporal/plan_command_reconciler.go:223-255 | a valid control request is rebuilt whole from memory and from storage |
| PlanCommandCodec.ControlRebuildsIff | agentos/temporal/plan_command_reconciler.go:223-255 | a control request can be rebuilt from any record if and only if the actor is set, the operation is one of the three, the metadata are texts and the time is one |
| PlanCommandCodec.UnnamedIsRefused | agentos/temporal/plan_command_reconciler.go:273-288 | a record whose operation is not a text is refused |
| PlanCommandCodec.RebuiltIff | agentos/temporal/plan_runtime.go:994-1025 | rebuilding what a caller recorded never fails and keeps action, key and actor; it reproduces the stored envelope if and only if the request is not a signal with a nil payload |
| PlanCommandCodec.BareEnvelope | agentos/temporal/plan_command_reconciler.go:289-308 | the stored envelope shows whether the payload was nil |
| PlanCommands.RestoreHolds | agentos/temporal/plan_workflow.go:835-846 | a continuation's processed set is exactly the nonempty keys carried to it |
| PlanCommandTheorems.DrainIsFresh | agentos/temporal/plan_workflow.go:1635-1664 | a drain applies only commands of its channel whose keys were not processed, each key once |
| PlanCommandTheorems.DrainMarks | agentos/temporal/plan_workflow.go:1849-1879 | a drain marks exactly the keys it applies, and one that ends with an empty channel has marked all keys that were in it |
| PlanDispatch.DrainTakesFirsts | agentos/temporal/plan_workflow.go:1635-1664 | a drain takes a prefix of its channel and applies, in channel order, the first message of every new key in it |
| PlanDispatch.DrainVerdict | agentos/temporal/plan_workflow.go:1849-1879 | it takes the whole channel unless a message has no key or an effect does not let it proceed; that message is then its last and gives its verdict |
| PlanDispatch.EndedIsQuiet | agentos/temporal/plan_workflow.go:520-560 | a chain that has ended applies nothing more; it ends when it is closed or a drain does not proceed |
| PlanCommandTheorems.ContinueKeepsInv | agentos/temporal/plan_workflow.go:821-865 | continue-as-new loses no processed key |
| PlanCommandTheorems.NextKeepsInv | agentos/temporal/plan_command_reconciler.go:88-121 | every operation, crash, drain and continuation keeps the invariant and never rewrites a command, an audit or a delivery |
| PlanCommandTheorems.AppliedAtMostOnce | agentos/temporal/plan_workflow.go:1635-1664 | over any interleaving a key is applied at most once in every whole chain of executions, on either channel |
| PlanDispatch.DispatchOrder | agentos/temporal/plan_runtime.go:529-545 | in every run, of two commands of a channel the one dispatched first is applied first, unless a continuation loses it before |
| PlanDispatch.LossReverses | agentos/temporal/plan_workflow.go:798-819 | whenever an undelivered, unapplied command competes with a waiting one, a continuation that loses it lets the waiting one be applied first |
| PlanDispatch.SubmitIff | agentos/temporal/plan_runtime.go:312-352 | a caller is taken on if and only if its request is valid and its key is new or recorded with the same envelope; a delivered command is only audited again |
| PlanDispatch.AuditAgain | agentos/temporal/plan_runtime.go:333-335 | a repeated call of a delivered command writes a missing audit and nothing else |
| PlanDispatch.DeliveryOutcome | agentos/temporal/plan_runtime.go:336-352 | for every fate of its operations, the status, the audit and the channel an uninterrupted delivery leaves, and no other row touched |
| PlanDispatch.UnreadableIsFailed | agentos/temporal/plan_command_reconciler.go:88-121 | a stored command that cannot be rebuilt is marked failed and is neither dispatched nor audited |
| PlanRestarts.ChainsAreRestarts | agentos/temporal/plan_command_reconciler.go:123-153 | there is one chain of executions more for every restart of a closed workflow, and for nothing else |
| PlanRestarts.ReappliedIff | agentos/temporal/plan_runtime.go:832-852 | after a restart the new chain can come to apply a recorded command if and only if it is not marked delivered or a caller or reconciler is still about to dispatch it |
| PlanRestarts.RestartTheorem | agentos/temporal/plan_runtime.go:838-852 | in every run, a key the closed chain applied can be applied again exactly under this condition |
| PlanRestarts.RestartRepeats | agentos/temporal/plan_runtime.go:832-852 | a run in which both chains apply the same undelivered signal |
| PlanRestarts.DeliveredRepeats | agentos/temporal/plan_runtime.go:312-352 | a run of two calls with one key in which both chains apply a signal that was marked delivered before the restart |
| PlanCommandTheorems.DeliveredIsSignalledAndAudited | agentos/temporal/plan_runtime.go:312-393 | a command marked delivered was signalled and has an audit with its own envelope, and stays so for ever |
| PlanCommandTheorems.DrainedExactlyOnce | agentos/temporal/plan_workflow.go:1849-1879 | after a drain that empties its channel every command that was in it is applied exactly once |
| PlanCommandTheorems.RedeliveryIff | agentos/temporal/plan_command_reconciler.go:88-121 | an undisturbed reconciler puts any recorded, undelivered command back into its channel, and marks it delivered if and only if it is not a signal with a nil payload |
| PlanCommandTheorems.ForeignAuditBlocks | internal/usecase/agentosplan/plan_store_memory.go:908-940 | a key whose audit carries another envelope than its command is never delivered |
| PlanCommandTheorems.BareSignalNeverDelivered | agentos/temporal/plan_command_reconciler.go:289-308 | a nil-payload signal whose caller stopped after recording it is never delivered once the reconciler has taken it up |
| PlanCommandRuntime.DeliveryIsARun | agentos/temporal/plan_runtime.go:312-352 | an uninterrupted delivery is a run of the protocol and leaves nobody at work |
| PlanCommandRuntime.Outbox.RecordPlanCommand | internal/usecase/agentosplan/plan_store_memory.go:729-765 | a new key is stored as pending, a used one is accepted if and only if the envelope is the same |
| PlanCommandRuntime.Outbox.RecordPlanAudit | internal/usecase/agentosplan/plan_store_memory.go:652-684 | the first audit of a key is kept; another is accepted if and only if it is the same |
| PlanCommandRuntime.Outbox.MarkPlanCommandDelivered | internal/usecase/agentosplan/plan_store_memory.go:908-940 | delivered if and only if the audit carries the command's envelope |
| PlanCommandRuntime.Outbox.MarkPlanCommandFailed | internal/usecase/agentosplan/commands.go:59-84 | failed unless delivered, which is terminal |
| PlanCommandRuntime.Outbox.SignalPlanWorkflow | agentos/temporal/plan_command_reconciler.go:97-110 | the command is put into the channel of its action |
| PlanCommandRuntime.Outbox.Dispatch | agentos/temporal/plan_runtime.go:529-545 | signal, audit and mark in this order, stopping at the first failure; success means the command is delivered |
| PlanCommandRuntime.Outbox.SubmitPlanCommand | agentos/temporal/plan_runtime.go:312-393 | the command is recorded first; a delivered one is only audited; success means it is delivered |
| PlanCommandRuntime.Outbox.DeliverPlanCommand | agentos/temporal/plan_command_reconciler.go:88-121 | rebuild, then dispatch; a command that cannot be rebuilt is marked failed |
| PlanCommandRuntime.Outbox.RecoverPlanCommands | agentos/temporal/plan_command_reconciler.go:44-86 | a pass is the listed deliveries one after the other, and its counters are the acknowledged and the remaining ones |
| PlanCommandRuntime.Workflow.constructor | agentos/temporal/plan_workflow.go:835-846 | an execution starts from the keys carried to it |
| PlanCommandRuntime.Workflow.DrainChannel | agentos/temporal/plan_workflow.go:1635-1664 | the receive loop computes the drain function |
| PlanCommandRuntime.Workflow.CarriedKeys | agentos/temporal/plan_workflow.go:848-865 | the carried keys, restored, are exactly the processed ones |
| PlanStream.CatchUpIsExact | agentos/temporal/plan_runtime.go:566-591 | replay and catch-up together are one list of the log at the time of the catch-up |
| PlanStream.FeedIsExact | agentos/temporal/plan_stream.go:74-102 | what the feed repeats of the listed log is dropped and everything later is let through |
| PlanStream.PrefilteredFeed | agentos/temporal/plan_runtime.go:575-582 | a feed that already applies the scope passes the same events |
| PlanStream.HandoffIsExact | agentos/temporal/plan_runtime.go:566-593 | wherever appends fall between the steps, the subscriber gets exactly the events of its scope after its cursor, once each and in order |
| PlanStream.DeliveredIff | agentos/temporal/plan_stream.go:104-126 | an event is delivered if and only if it is stored after the cursor, for the plan and tenant of the scope, and for its node and run where they are named |
| PlanStream.LastPlanEventSequence | agentos/temporal/plan_stream.go:128-141 | the loop computes the largest sequence seen |
| PlanStream.LastBounds | agentos/temporal/plan_stream.go:128-141 | that sequence bounds all events and is one of theirs or the starting one |
| PlanStream.SelectOrdered | agentos/temporal/plan_stream.go:104-126 | what is delivered is strictly ascending |
| PlanStream.Subscription.ReplayPlanEvents | agentos/temporal/plan_stream.go:59-72 | sends the stored events, or a prefix if the consumer closes |
| PlanStream.Subscription.ForwardLivePlanEvents | agentos/temporal/plan_stream.go:74-102 | sends the feed's events of the scope after the given sequence, or a prefix if the consumer closes |
| PlanStream.Subscription.SubscribePlan | agentos/temporal/plan_runtime.go:547-594 | the whole subscription delivers exactly the scope's events after the cursor, or a prefix if the consumer closes |
| ProcessTimers.RereadKeeps | agentos/temporal/process_workflow.go:215-247 | the input of a continuation can always be read back and holds every timer |
| ProcessTimers.TimersOverChains | agentos/temporal/process_workflow.go:220-317 | over any chain of continuations a timer keeps its first due time, the fixed one or the given seconds after the start, is requested at most once and only with the key made of process, timer and due time, has fired exactly when requested, and is pending exactly when it has not fired |
| ProcessTimers.FiringIsRequested | agentos/temporal/process_workflow.go:297-315 | a ready future of a running process makes exactly one request with its key, marks its timer, touches no other, and decides how the process goes on |
| ProcessTimers.EndedIsFinal | agentos/temporal/process_workflow.go:129-142 | a message can end the process, and then nothing more happens |
| ProcessTimers.FiredIsNeverRearmed | agentos/temporal/process_workflow.go:285-291 | a fired timer is never armed again |
| ProcessTimers.KeysAreDistinct | agentos/temporal/process_activity.go:104-106 | two firings of a process with the same key are of the same timer at the same time |
| ProcessTimers.RequestKeysAreDistinct | agentos/temporal/process_activity.go:83-106 | with distinct timer ids no two requests of a chain carry the same key |
| ProcessTimers.WorkflowTimers.constructor | agentos/temporal/process_workflow.go:252-283 | carried timers are taken over; without any, due times are counted from now |
| ProcessTimers.WorkflowTimers.AddToSelector | agentos/temporal/process_workflow.go:285-317 | exactly the timers that have not fired get a future |
| ProcessTimers.WorkflowTimers.StartExecution | agentos/temporal/process_workflow.go:252-317 | the first execution is the beginning of the chain |
| ProcessTimers.WorkflowTimers.OnTimer | agentos/temporal/process_workflow.go:297-315 | a ready future is the firing step of the chain that `TimersOverChains` speaks of |
| ProcessTimers.WorkflowTimers.OnMessage | agentos/temporal/process_workflow.go:129-142 | a received signal or control is the message step of the chain |
| ProcessTimers.WorkflowTimers.ContinueAsNew | agentos/temporal/process_workflow.go:173-227 | the next execution is the continuation step of the chain |
| RetryWindow.RetryWindow | agentos/temporal/nexus_run.go:205-219 | for any durations, coefficient, attempt count and floating-point rounding the loop computes the sum of the carried intervals |
| RetryWindow.WindowOfSum | agentos/temporal/nexus_run.go:202-219 | for a whole coefficient and a rounding that is exact on the durations the loop exceeds the documented sum by exactly what the first interval has above the cap |
| RetryWindow.WindowIsSumIff | agentos/temporal/nexus_run.go:202-219 | for a whole coefficient and a rounding that is exact on the durations the loop computes the documented sum if and only if no retry is made or the initial interval is within the cap |
| RetryWindow.InexactBreaksSum | agentos/temporal/nexus_run.go:205-219 | for every whole number that the rounding makes smaller there is a policy whose window falls short of the documented sum |
| RetryWindow.MoreAttempts | agentos/temporal/nexus_run.go:205-219 | for a coefficient that is not negative and any monotone rounding that keeps zero, more attempts never shorten the window |
| RetryWindow.HigherMaximum | agentos/temporal/nexus_run.go:205-219 | for a coefficient that is not negative and any monotone rounding, a higher cap never shortens the window |
| RetryWindow.StartWindowCoversPersist | agentos/temporal/nexus_run.go:82-84 | with any rounding that is exact on whole numbers up to 2^53, as double precision is, the start policy's window is 331 seconds, not less than the activity timeout |

## Left out

- Postgres isolation internals and the retry of serialization failures (agentos/conversation/runtime.go:400-423): a failed attempt is no step, a repeated one is a new step.
- The branch for an insert that loses a race inside a transaction (agentos/conversation/runtime.go:476-510): it cannot be taken when transactions are atomic steps.
- The attempts counter of deferred projections (agentos/conversation/sweeper.go:266-275): it never changes in a pass that commits.
- The order of the two halves of one sweep: a sweep is an abandonment step followed by a promotion step, and all claims hold for any order.
- Draining the outbox, the listener that wakes subscribers, tickers and shutdown: they carry events out or time the steps, and change no table modelled here.
- Attachments, metadata and JSON text of conversation payloads: values the projections do not read are opaque.
- plan.start commands as records (agentos/temporal/plan_command_reconciler.go:123-153): they follow the same record, dispatch, audit, mark protocol; their effect on a closed workflow is the restart step, allowed at any time.
- The effects of signals and controls on a plan: they are an abstract append to the applied list and a verdict.
- The sorted order of carried keys (agentos/temporal/plan_workflow.go:848-865): the claims hold for any order.
- JSON numbers that lose precision as floating point, and zone offsets with seconds: a payload number is a whole number and an offset whole minutes.
- Timestamps.Parse: accepts the grammar of section 5.6 of RFC 3339 only, without the leniencies of Go's parser, because commands hold what the formatter wrote.
- A live feed that drops, repeats or reorders events after the second list: the feed yields each later event once, in order.
- Temporal's delivery of timers and signals: a future fires at most once, a received message is one step.
- The calendar: how an instant of the workflow clock is written as a date in UTC is a parameter of the timers.
- The double format itself: its rounding is a parameter, monotone and exact on whole numbers up to 2^53.
- The plan reducer, scheduler, validator, conditions and approval gates, the run supervisor, backends, routers, wire formats and configuration.
