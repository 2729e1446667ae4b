# Sokratos: a verified model of its coordination, conversation and memory logic

Sokratos is a concurrent agent. User messages, engine loops and background jobs share a few LLM
slots on two backends; a bounded loop lets the model call tools; a shared message window is
trimmed and slid while others append to it; background queues retry, defer and replan; several
writers supersede memories in one table. This project states what that code guarantees and
proves it with Dafny. `dafny verify dfyconfig.toml` checks everything.

Code that changes state is modelled by classes, arrays and loops that are proved against a
specification function (the step of a transition system, or the meaning of a result); what must
hold over every interleaving or every run is proved about that specification.

## Files

- `PrioritySem.dfy`, `SlotRouter.dfy`: the counting semaphore and the router over two of them.
- `SlotProtocol.dfy`, `SlotSafety.dfy`, `SlotProgress.dfy`: sessions as a transition system, and what
  every interleaving keeps. `SlotDeadlock.dfy`, `SlotReacquire.dfy`: freedom from deadlock and from
  lockout. `SlotWitness.dfy`, `SlotNested.dfy`, `SlotExact.dfy`: runs that fail, and the exact
  conditions.
- `RunLoop.dfy`, `RunLoopProperties.dfy`, `RunOutcomes.dfy`, `RunProtocol.dfy`, `BackgroundJob.dfy`: the
  orchestrator loop, its adapter, where its results come from, its runs as paths of the slot protocol,
  and background jobs.
- `Messages.dfy`, `Conversation.dfy`: messages, truncation, condensing, trimming and sliding.
- `WorkQueue.dfy`, `RetryQueue.dfy`, `CircuitBreaker.dfy`, `PlanExec.dfy`: background work.
- `Supersession.dfy`, `Consolidation.dfy`, `ProfileMerge.dfy`: the memories table and the profile.
- `JsonScan.dfy`, `TextSplit.dfy`: text scanners. `Schedules.dfy`: when routines fire.
- `Runs.dfy`, `Sums.dfy`, `Wrappers.dfy`: shared helpers.

## What the proofs found in the code

- `CancelReservation` frees a reserved slot twice (`avail++`, then `dispatch`). Every call with a
  reservation outstanding adds one slot, and with two or more background waiters it leaves a free
  slot beside a waiter (`DisciplineKeptExactly`). More sessions than slots can then own a slot of
  either backend (`OvercommitExactly`). The comment's single increment keeps everything.
- A failed `Reacquire` of an engine loop cancels a reservation although engine loops park none:
  whenever there is one, it belongs to a user session inside a tool (`UnreserveHitsUser`).
- With a fallback tool configured, an engine loop whose reacquire failed releases a slot it does
  not own (`StrayMoveExactly`, `StrayReachable`).
- An engine loop takes its slot before `Engine.Mu` and gives it up around tools while it keeps
  `Engine.Mu`. The resulting wait cycle is reachable exactly when some backend has fewer slots
  than there are engine loops (`CycleExactly`), and it lasts until the lock holder's context ends
  (`CycleForever`).
- A tool that calls a client itself (`delegate_task`, `plan_and_execute`) asks the semaphore whose slot
  its own session parked or still holds. One user message is enough to block everything when there
  are at least as many engine loops as primary slots (`OneUserWaits`), and so are background jobs that
  fill the Brain (`JobsWait`).
- All sessions at work can be blocked at once exactly when tools make such calls or some backend has
  fewer slots than there are engine loops (`DeadlockExactly`). Under exactly the same condition a
  session inside a tool may be unable to get its slot back without a cancellation
  (`ReacquireExactly`). Both hold with the double increment and with fallbacks.
- `RunLoop` writes texts for failed tools and fallbacks that `isToolMessage` does not recognise
  (`RecognisedExactly`). In every window some tail separates such a message from its call, and no
  other (`RoundSplitExactly`).
- A background job stores every answered user message twice in a row, because the adapter returns
  the prompt the job already holds (`PromptsRepeated`).
- `SlideAndArchiveContext` checks the limit before it takes its snapshot. After a slide in between,
  and any appends, the second search leaves the list exactly when the list is within the limit
  (`SlideRacePanicsExactly`). When other slides came in between, a slide is applied exactly when the
  texts repeat at the distance they removed (`SlideAppliedExactly`), and then it drops messages it did
  not archive (`LosesMessageExactly`, `DoubleSlideLosesMessage`).
- The circuit breaker stays half-open for good when its probe ends without recording, which the
  busy, cancelled, marshal and context-error exits of `exec` do (`StuckExactly`).
- The documentation calls `RetryQueue` bounded. It is, exactly when nothing is ever retried;
  otherwise it grows past every length (`BoundedExactly`).
- `ParseSchedule` accepts characters above '9' as units digits (`AcceptedExactly`).
- A topic that matches the identity profile retires it without a successor
  (`ProfileRetiredExactly`). At most one profile is active in every run exactly when saves never
  insert identity rows (`OneProfileExactly`).
- The QueueWork comment says low-priority items are dropped under pressure; the code defers them
  once, at normal priority, and the model follows the code.

## Model

| member | source | states |
|---|---|---|
| PrioritySemaphore.SectionBalance | engine/priority_sem.go:48-183 | every critical section keeps free slots plus slots handed out, up to the one slot CancelReservation makes when a reservation exists |
| PrioritySemaphore.SectionReserved | engine/priority_sem.go:48-66 | only ReleaseReserved parks a slot, and an acquiring user consumes a parked slot before a free one |
| PrioritySemaphore.ServedExactly | engine/priority_sem.go:48-108 | a user leaves with a slot exactly when one is free or reserved, a background caller exactly when one is free and no user waits; whoever must wait stands at the end of its queue |
| PrioritySemaphore.DisciplineKeptExactly | engine/priority_sem.go:128-183 | a free slot means no waiter and a reservation means no user waiter; kept by every section except CancelReservation as written, exactly with a reservation and two background waiters |
| PrioritySemaphore.DisciplineAlways | engine/priority_sem.go:154-164 | with the single increment the waiter discipline holds over every sequence of sections |
| PrioritySemaphore.PriorityRespected | engine/priority_sem.go:67-183 | background waiters are woken only when no user waits, oldest first, and a background caller never takes a reservation or overtakes a user |
| PrioritySemaphore.ServedInOrder | engine/priority_sem.go:76-183 | in every run, those of one class who are served and those still queued appear in the order in which they queued up |
| PrioritySemaphore.RemoveWaiter | engine/priority_sem.go:194-202 | removes the first occurrence of the channel and reports whether it was queued |
| PrioritySemaphore.PrioritySem.TryAcquireAt | engine/priority_sem.go:48-70 | the object after the call is the specified section's state; true exactly when the caller took a slot |
| PrioritySemaphore.PrioritySem.AcquireOrEnqueue | engine/priority_sem.go:76-108 | takes a slot, or puts the caller at the end of its class's queue |
| PrioritySemaphore.PrioritySem.AcquireCancelled | engine/priority_sem.go:109-125 | a cancelled waiter leaves the queue, or gives back the slot it was granted in the meantime; it never keeps one |
| PrioritySemaphore.PrioritySem.Release | engine/priority_sem.go:128-133 | wakes the oldest user, else the oldest background waiter, else frees the slot |
| PrioritySemaphore.PrioritySem.ReleaseReserved | engine/priority_sem.go:138-149 | wakes the oldest user, else parks the slot as a reservation |
| PrioritySemaphore.PrioritySem.CancelReservation | engine/priority_sem.go:154-164 | the section with its double increment |
| PrioritySemaphore.PrioritySem.SlotsInUse | engine/priority_sem.go:186-191 | the used slots are the capacity minus free and reserved ones |
| SlotRouting.SlotRouter.AcquireOrFallback | engine/slot_router.go:126-134 | with preferBrain the Brain serves whenever it has a slot for the caller and the primary exactly when only it has one, otherwise the other way round; without any the caller stands in the Brain's queue; the other semaphore is untouched |
| SlotRouting.SlotRouter.AcquirePreferBrain | engine/slot_router.go:137-174 | Brain if it has a slot for the caller, else primary if it has one, else the Brain's queue |
| SlotRouting.SlotRouter.AcquirePreferPrimary | engine/slot_router.go:177-205 | primary if it has a slot for the caller, else the Brain or its queue |
| SlotRouting.SlotRouter.TryAcquirePrimary | engine/slot_router.go:111-123 | a user gets a primary slot exactly when one is free or reserved |
| SlotRouting.SlotRouter.ReacquireCancelled | engine/slot_router.go:77-108 | a reacquire whose context is done abandons its wait and then cancels a reservation, whoever parked it |
| SlotRouting.BackgroundYields | engine/slot_router.go:177-205 | with only a reservation left on the primary, background sessions do not take it and users do |
| SlotRouting.SessionRoutes | engine/slot_router.go:126-205 | the attempts of a protocol session, undisturbed, end on the backend these conditions name, or at the end of the Brain's queue |
| SlotSafety.StrayMoveExactly | message_loop.go:309-385 | a move releases a slot its session does not own exactly when it is a fallback after a failed reacquire |
| SlotSafety.MoveOk | engine/engine.go:198-231 | every move keeps a session's shape: flag, slot, queue place and mutex agree before and after |
| SlotSafety.StepKeeps | engine/priority_sem.go:48-183 | every step of every session keeps conservation, queue contents, reservations, brackets and the mutex |
| SlotSafety.SlotConservation | engine/priority_sem.go:48-183 | in every reachable state free, reserved, held and granted slots add up to the capacity plus exactly the surplus and stray slots; with the single increment and no fallbacks, to the capacity |
| SlotSafety.NoLostWakeup | engine/priority_sem.go:76-183 | without surplus, nobody waits beside a free slot and no user beside a reservation, in every reachable state |
| SlotSafety.SessionBracket | message_loop.go:309-385 | in every reachable state `acquired` holds exactly when the session owns its slot, nothing is owned when it is done, and Engine.Mu is held exactly by the session inside the lock |
| SlotSafety.OwnersRelease | dispatch.go:87-124 | without fallbacks no session ever releases a slot it does not own |
| SlotProgress.ReachableProgress | engine/priority_sem.go:76-183 | in every reachable state, in both forms: behind every waiter some session owns or has parked a slot, users wait only for an empty semaphore, and a lock holder never waits beside a free slot |
| SlotDeadlock.UnblockedMoves | engine/engine.go:198-231 | a session can take its next step exactly when it is not blocked on the mutex, an ungranted wait, or a call of its own tool |
| SlotDeadlock.DeadlockNeedsFewSlots | engine/engine.go:198-231 | without client calls from tools, every deadlock is a lock holder waiting to reacquire on a backend with fewer slots than engine loops |
| SlotDeadlock.DeadlockFree | engine/slot_router.go:77-108 | with enough slots and no client calls from tools, some active session can always move |
| SlotDeadlock.CycleForever | engine/engine.go:198-231 | the cycle survives every continuation that does not end the lock holder's context, and blocks every new user message |
| SlotReacquire.Reacquires | engine/slot_router.go:77-93 | with enough slots and no client calls from tools, a session inside a tool can always get its slot back: no new session and no cancellation is needed |
| SlotWitness.CycleReachable | engine/engine.go:198-231 | the cycle is reachable on a backend with fewer slots than engine loops |
| SlotWitness.StrayReachable | orchestrate/loop.go:174-200 | with fallbacks a run exists in which a release by a non-owner adds a slot, on either backend |
| SlotWitness.SurplusReachable | engine/slot_router.go:95-108 | as written, a run exists in which an engine loop's failed reacquire cancels a user's reservation and adds a slot |
| SlotNested.UsersWait | clients/subagent_client.go:55-56 | a run exists in which every primary slot is parked by a user whose tool's own call waits for a primary slot |
| SlotNested.JobsWait | clients/deep_thinker_client.go:122 | a run exists in which background jobs hold every Brain slot while their tools wait for one |
| SlotNested.OneUserWaits | engine/slot_router.go:48 | with at least as many engine loops as primary slots, a single user message whose tool calls the client can block everything |
| SlotNested.StuckForever | clients/subagent_client.go:55-56 | users that wait for their own calls on the primary stay so in every continuation without a cancellation or a new session |
| SlotExact.DeadlockExactly | engine/engine.go:198-231 | all sessions at work can be blocked at once exactly when tools call clients or some backend has fewer slots than engine loops |
| SlotExact.CycleExactly | engine/engine.go:198-231 | the cycle is reachable exactly when some backend has fewer slots than engine loops |
| SlotExact.ReacquireExactly | engine/slot_router.go:77-93 | in every reachable state every session inside a tool can get its slot back without a cancellation, exactly when tools make no client calls and each backend has as many slots as there are engine loops |
| SlotExact.UnreserveHitsUser | engine/slot_router.go:95-108 | only an engine loop gives up a reacquire; it removes a reservation whenever there is one, and then a user inside a tool parked a slot there and stays in its tool |
| SlotExact.OvercommitExactly | engine/priority_sem.go:154-164 | more sessions than slots can own a slot of a backend exactly when there are engine loops and reservations are counted twice or fallbacks may run |
| Orchestrate.ToolPath | orchestrate/loop.go:142-234 | the tool half of a round does what the round function says |
| Orchestrate.RoundBody | orchestrate/loop.go:74-234 | one iteration of the loop is the round function |
| Orchestrate.RunLoop | orchestrate/loop.go:36-238 | the loop returns the outcome and transcript of the round function iterated from the input |
| RunOutcomes.OutcomeComesFrom | orchestrate/loop.go:109-182 | every run ends with its last LLM call: an answer is the text of the respond decision and its stored reply the last message; an error, an unknown action and a background job are the client's, the reply's and the tool's |
| RunOutcomes.RoundContinues | orchestrate/loop.go:121-158 | a round that goes on could not parse the reply and left the transcript alone, or called the tool the reply names |
| RunOutcomes.SuccessText | orchestrate/loop.go:231-233 | after a tool that works the model reads its text, whole up to the limit, and the error count starts anew |
| RunOutcomes.SoftErrorText | orchestrate/loop.go:210-228 | a text that reads like an error is passed on with a hint and not counted |
| RunOutcomes.HardErrorText | orchestrate/loop.go:210-224 | after a failure the model reads the error with the number of the attempt, or that the retries are exhausted |
| RunOutcomes.FallbackRan | orchestrate/loop.go:188-207 | after a fallback the model reads what failed, which tool ran instead, and its text or error |
| RunOutcomes.NoExecutorText | orchestrate/loop.go:160-163 | without an executor the model reads that there is none |
| OrchestrateProperties.TranscriptShape | orchestrate/loop.go:74-238 | the input is a prefix of the transcript; the rest is (assistant, user)* with a last assistant message exactly on an answer or a background job |
| OrchestrateProperties.CallBounds | orchestrate/loop.go:74-95 | at most maxRounds LLM calls, and exactly that many when the loop runs out of rounds |
| OrchestrateProperties.ParseErrorMeansStreak | orchestrate/loop.go:96-120 | a parse error comes only after four unparsable replies in a row to the same messages |
| OrchestrateProperties.StreakMeansParseError | orchestrate/loop.go:96-120 | four unparsable replies in a row end the run in the fourth |
| OrchestrateProperties.RecognisedExactly | orchestrate/loop.go:170-234 | the message a tool round appends is recognised as a tool message exactly when the tool did not fail hard and no fallback ran |
| OrchestrateProperties.RoundTrace | orchestrate/loop.go:57-72 | a round is one LLM call, then at most two start/end pairs, the second only for a fallback |
| OrchestrateProperties.RoundSplitExactly | orchestrate/loop.go:202-234 | the message of a tool round is separated from its call by some tail, in any window, exactly when the tool failed hard or a fallback ran |
| RunProtocol.EventIsMoves | message_loop.go:330-372 | each callback is a chain of protocol plans, whether the reacquire is served at once or waits; it strays exactly when it is a fallback after a failed reacquire |
| RunProtocol.TraceIsPath | message_loop.go:330-372 | the callbacks of a whole trace compose to one chain of plans through sessions in shape, with as many stray releases as fallbacks after a failed reacquire |
| RunProtocol.RunFollowsProtocol | orchestrate/loop.go:57-72 | every run of the loop is such a chain and ends where the session may finish; without a failed reacquire nothing strays and the flag is up at the end |
| OrchestrateProperties.RunGrammarOrchestrator | llm/orchestrator.go:39-154 | the adapter returns exactly the prompt followed by this run's messages, whatever the history |
| OrchestrateProperties.AppendHistory | llm/orchestrator.go:68-78 | the history follows in order, stripped to role and content |
| OrchestrateProperties.NewMessages | llm/orchestrator.go:144-153 | the messages from an index on, with no time set |
| BackgroundJobs.AdapterReplies | llm/orchestrator.go:144-153 | the adapter's contract gives the replies that jobs rely on |
| BackgroundJobs.RunBackgroundJob | dispatch.go:68-163 | at most twenty rounds, each turn asked on the transcript of the ones before; the job is a session of the slot protocol that has its slot whenever the model is asked and owns nothing while parked; how each ending comes about |
| BackgroundJobs.PromptsRepeated | dispatch.go:110-162 | every answered user message stands twice in a row in the job's transcript |
| Messages.Truncate | textutil/textutil.go:13-24 | computes the truncation |
| Messages.TruncatedWhole | textutil/textutil.go:13-24 | a cut text ends at the last character boundary within the limit, followed by an ellipsis |
| Conversation.CutPairedExactly | engine/trim.go:21-49 | removing messages behind the head keeps results with their calls exactly when the first kept one is not a result |
| Conversation.TrimMessages | engine/trim.go:21-39 | the loop computes the trimmed window |
| Conversation.TrimKeepsPairs | engine/trim.go:21-49 | trimming never separates a result from its call and keeps the last maxTail messages |
| Conversation.TrimIdempotent | engine/trim.go:21-39 | trimming again changes nothing |
| Conversation.SplitExactly | engine/trim.go:18-36 | in any window, a message behind the first is cut off from its predecessor by some tail exactly when it is not recognised |
| Conversation.NeverSplitExactly | engine/trim.go:18-36 | a message is kept with its predecessor in every window and for every tail exactly when it is recognised |
| Conversation.FindCutoff | engine/slide.go:46-77 | the two searches return the last safe boundary at or before the naive cutoff, else the first after it, else force the naive one, or index out of range |
| Conversation.CutoffSound | engine/slide.go:46-77 | above the limit the search never fails, and forces a cut only when no safe boundary exists |
| Conversation.CutoffExactly | engine/slide.go:47-77 | the cut is at the last beginning of a turn up to the naive cutoff, else at the first one after it, else forced |
| Conversation.SlideKeepsPairsExactly | engine/slide.go:138-147 | an unforced slide keeps pairs; a forced one does exactly when it does not cut at a result |
| Conversation.PanicsExactly | engine/slide.go:47-77 | the search leaves the list exactly when the list is within the limit and its forward part starts outside it or ends at the head, behind it, or nowhere |
| Conversation.SlideRacePanicsExactly | engine/slide.go:35-77 | after another slide and any appends between the limit check and the snapshot, the search fails exactly when the list is within the limit |
| Conversation.StateManager.AppendMessage | engine/state.go:199-208 | the message is appended, with the current time if it has none |
| Conversation.StateManager.SlideMessages | engine/state.go:257-280 | applied exactly when the list is longer than the cutoff and the fingerprint still matches |
| Conversation.StateManager.SlideAndArchiveContext | engine/slide.go:35-123 | without interference, exactly the archived messages leave the window, in one piece behind the head |
| Conversation.WindowAfter | engine/state.go:199-286 | after any interleaving of appends and slides the list is the head and all messages but the first removed ones |
| Conversation.AppliedSlideExactly | engine/slide.go:80-123 | an applied slide yields head, rest of the snapshot and everything appended since, exactly when no other slide removed anything; it shrinks the list for cutoffs of two or more |
| Conversation.SlideAppliedExactly | engine/state.go:257-280 | a slide planned on a snapshot is applied after any appends and slides exactly when the list is longer than the cutoff and the texts repeat at the distance the others removed |
| Conversation.LosesMessageExactly | engine/slide.go:80-123 | and it drops a message it did not archive exactly when, besides, others removed something and the cutoff is at least two |
| Conversation.RemovedWasArchived | engine/slide.go:80-123 | what an applied slide removes reads like the range given to the archiver |
| Conversation.DoubleSlideLosesMessage | engine/state.go:257-280 | with repeated texts two slides of one snapshot are both applied and a message is lost unarchived |
| Conversation.CondenseToolResults | condense.go:67-121 | long tool results before the last assistant message are replaced by their truncation, everything else is unchanged |
| Conversation.CondensedExactly | condense.go:87-118 | a long result before the last assistant message keeps its text up to the last character boundary within 400 bytes behind the tool's name; every other message stays |
| Conversation.CondenseKeepsStatus | condense.go:67-121 | condensing keeps roles, times, which messages are results and calls, and the pairing |
| WorkQueueModel.StepMoves | clients/workqueue.go:46-107 | every step but a submission moves one item from one place to another |
| WorkQueueModel.ItemConserved | clients/workqueue.go:46-107 | in every run each submitted item is in exactly one place (caller, channel, worker, completed) and completes at most once |
| WorkQueueModel.ExecutionsBounded | clients/workqueue.go:46-107 | at most Retries + 1 executions, and at most one deferral, only for low priority |
| WorkQueueModel.OutcomeMeans | clients/workqueue.go:83-107 | refused items were never executed, failed ones used every attempt, and those refused on the way back had attempts left |
| WorkQueueModel.RunsBounded | clients/workqueue.go:46-107 | the steps of callers and workers are bounded by what the submissions allow |
| WorkQueueModel.QuietMeansCompleted | clients/workqueue.go:46-107 | when no step is left and there is a worker, every item has completed exactly once |
| WorkQueueModel.CheckExactly | clients/workqueue.go:46-67 | a request is put off exactly when it has low priority and the buffer would be more than three quarters full with it; it comes back with normal priority |
| WorkQueueModel.WorkQueue.QueueWork | clients/workqueue.go:46-78 | defers a low-priority item under pressure, else enqueues it, else completes it with an error |
| WorkQueueModel.WorkQueue.ProcessOne | clients/workqueue.go:83-107 | one turn of a worker is its take, return and resend steps |
| WorkQueueModel.WorkQueue.Process | clients/workqueue.go:83-107 | the worker loop empties the channel by a run of the steps in which every item taken is treated by what its execution answers |
| RetryQueueModel.OrderKept | pipelines/retry_queue.go:72-143 | whatever the interleaving of Enqueue and drain, everything waiting is in enqueue order with attempts left |
| RetryQueueModel.AttemptsBounded | pipelines/retry_queue.go:110-143 | each task waits or is gone, once; it is tried at most maxRetries times, exactly that often when given up |
| RetryQueueModel.MergeBound | pipelines/retry_queue.go:137-143 | after a merge the queue holds at most the batch plus what was enqueued meanwhile |
| RetryQueueModel.EnqueueBound | pipelines/retry_queue.go:72-87 | Enqueue keeps a queue at or below maxItems there |
| RetryQueueModel.BoundedExactly | pipelines/retry_queue.go:11-143 | maxItems bounds the queue in every run exactly when maxRetries is one; otherwise every length is reached |
| RetryQueueModel.RetryQueue.Enqueue | pipelines/retry_queue.go:72-87 | the object after the call is the step's state |
| RetryQueueModel.RetryQueue.DrainOnce | pipelines/retry_queue.go:110-143 | every task of the batch is executed once, in order, between the tasks enqueued meanwhile; afterwards the queue is the failed tasks with attempts left, each with one more retry, and the arrivals that were not dropped |
| CircuitBreakers.HistoryDecides | clients/circuit_breaker.go:41-113 | over every history: closed exactly below three failures since the last success, the window is that of the k-th consecutive opening from the last failure, half-open exactly after a later check |
| CircuitBreakers.OneProbe | clients/circuit_breaker.go:51-70 | until something is recorded an open breaker admits exactly one call, the first after its window |
| CircuitBreakers.RecordEndsHalfOpen | clients/circuit_breaker.go:73-113 | a half-open breaker leaves that state exactly when a call records |
| CircuitBreakers.StuckForever | clients/circuit_breaker.go:51-70 | half-open with no call in flight, it refuses every later call |
| CircuitBreakers.StuckExactly | clients/subagent_client.go:126-190 | that state is reachable exactly when some exit of exec records nothing |
| CircuitBreakers.ExitsExactly | clients/circuit_breaker.go:73-113 | an answered call closes and resets the breaker, a server error or an empty response counts as one more failure and the third opens it for its window, every other exit leaves it alone |
| CircuitBreakers.ExitExactly | clients/subagent_client.go:126-190 | the exit is the first thing that goes wrong |
| CircuitBreakers.CircuitBreaker.Check | clients/circuit_breaker.go:51-70 | refuses unless closed, or open past its window |
| CircuitBreakers.CircuitBreaker.RecordSuccess | clients/circuit_breaker.go:73-83 | closes and resets the breaker |
| CircuitBreakers.CircuitBreaker.RecordFailure | clients/circuit_breaker.go:98-113 | opens it from the third failure on and doubles the window up to the cap |
| CircuitBreakers.CircuitBreaker.RecordFailureIfServer | clients/circuit_breaker.go:89-94 | context errors record nothing |
| CircuitBreakers.Exec | clients/subagent_client.go:126-190 | a refused call leaves the semaphore alone; whatever the exit, a semaphore in its discipline ends with the slots and waiters it had, and the exit decides what is recorded |
| PlanExecution.StoreThenLookup | worktracker/plan_execute.go:54-77 | a stored value is what a later lookup returns, truncated, and other keys keep theirs |
| PlanExecution.StoreKeepsUnique | worktracker/plan_execute.go:54-65 | no key appears twice |
| PlanExecution.Scratchpad.Set | worktracker/plan_execute.go:54-65 | replaces the entry or appends one |
| PlanExecution.Scratchpad.Get | worktracker/plan_execute.go:68-77 | the first entry's value or the empty string |
| PlanExecution.AppendAt | worktracker/plan_execute.go:223-224 | the in-place append leaves the steps before it unchanged in the shared array |
| PlanExecution.ExecuteSteps | worktracker/plan_execute.go:148-234 | terminates, returns the results of the specified run, and never alters executed steps in the caller's array |
| PlanExecution.RunGuarantees | worktracker/plan_execute.go:148-234 | results are numbered in order, match the steps, and are what the execution of each step returned on a scratchpad with the results before it; the planner is asked exactly when the rule says, about the steps that are left, and its first four steps follow; at most three more results than planned steps |
| PlanExecution.FailuresCollected | worktracker/plan_execute.go:196-211 | a failure is added behind the earlier ones under its own key, a success leaves that entry alone |
| PlanExecution.NineResults | worktracker/plan_execute.go:139-143 | with the caps of six and four, at most nine results |
| PlanExecution.NineReached | worktracker/plan_execute.go:308-313 | nine results are possible |
| PlanExecution.WrittenKeysDistinct | worktracker/plan_execute.go:199-209 | the scratchpad keys of different steps and of the failures differ |
| Supersession.PointersAscend | memory/contradiction.go:288-296 | in every run of the five writers, every superseded_by points to an existing row with a larger id |
| Supersession.StepGrows | pipelines/consolidate_memory.go:371-374 | no row is reactivated or changes kind, and a pointer only moves to a newer row |
| Supersession.SupersededExactly | memory/contradiction.go:288-296 | an active memory is superseded exactly by the writer that names it, and points to the row that writer inserts, or to the earlier save's for a deferred check |
| Supersession.AddedExactly | memory/contradiction.go:263-287 | a save adds its chunks, a merge, a topic and a profile write one row, with the next ids, active and of their kind |
| Supersession.SavePath | memory/contradiction.go:341-378 | from search to deferred check a save supersedes exactly the memories one of its two checks finds contradicted, by its first chunk |
| Supersession.MergePath | pipelines/consolidate_memory.go:371-374 | a merge supersedes exactly its sources, by the summary |
| Supersession.ForgetPath | tools/forget_topic.go:99-142 | forgetting a topic supersedes exactly its matches, by the archive row |
| Supersession.ChainsEnd | memory/contradiction.go:341-378 | every chain is finite, ends in an active memory and never returns to its start |
| Supersession.ProfileWriteLeavesOne | memory/save.go:213-240 | a profile write leaves exactly one active profile, its own, whatever was there before |
| Supersession.OneProfileExactly | memory/save.go:213-240 | at most one profile is active in every run exactly when saves never insert identity rows |
| Supersession.ProfileRetiredExactly | tools/forget_topic.go:99-142 | an active profile is retired by the next profile write or by a topic that matched it, and by nothing else |
| Supersession.RedirectedExactly | memory/contradiction.go:288-296 | a pointer that is set is moved exactly by a save that contradicts the row again or a topic that matched it |
| Consolidation.MemoryTable.SaveChecked | memory/contradiction.go:256-300 | the transaction inserts all chunks and points every contradicted memory at the first |
| Consolidation.MemoryTable.CompleteDeferred | memory/contradiction.go:355-378 | the contradicted candidates that are still active are superseded, no others |
| Consolidation.MemoryTable.ForgetTopic | tools/forget_topic.go:99-142 | an archive row supersedes all matches; without matches nothing changes |
| Consolidation.MemoryTable.WriteIdentityProfile | memory/save.go:213-240 | the new row supersedes all other active identity rows |
| Consolidation.MemoryTable.ApplyMerges | pipelines/consolidate_memory.go:307-398 | a run with one merge per accepted entry, and the number of merged sources |
| Consolidation.MergedExactly | pipelines/consolidate_memory.go:307-398 | after a batch an active memory is superseded exactly when an entry with a text, two or more sources of the batch and successful calls names it; the count is that of those sources |
| Consolidation.FillBatch | pipelines/consolidate_memory.go:108-121 | the batch takes as many memories as the budget allows and at least one |
| Consolidation.FillUnique | pipelines/consolidate_memory.go:108-121 | the budget alone decides how many |
| Consolidation.ConsolidateCore | pipelines/consolidate_memory.go:71-158 | every memory goes into exactly one well-filled batch, in order, until a batch fails |
| ProfileMerge.UniqueKept | pipelines/consolidate_profile.go:113-142 | unique identifiers stay unique |
| ProfileMerge.UpsertMeans | pipelines/consolidate_profile.go:113-142 | entries keep their places and receive all updates for their key; each new key is appended once with all of its updates |
| ProfileMerge.RemergeExactly | pipelines/consolidate_profile.go:57-68 | merging the same updates again changes nothing exactly when the cap has not dropped an updated person; below the cap it never has |
| ProfileMerge.MergeObjectArray | pipelines/consolidate_profile.go:113-142 | the loops with their index compute the upsert |
| ProfileMerge.MergeProfileJSON | pipelines/consolidate_profile.go:27-70 | the loops compute the merged card, an update error, or a panic |
| ProfileMerge.CardSound | pipelines/consolidate_profile.go:13-70 | fails only on unparseable updates and panics only on a null card; otherwise only card keys, at most fifteen people, the updated name, and validateProfile accepts |
| ProfileMerge.OverlayExactly | pipelines/consolidate_profile.go:45-62 | the merged card has exactly the keys of the schema that either side has, and under each but the people the updated value if there is one |
| ProfileMerge.PeopleValueExactly | pipelines/consolidate_profile.go:57-68 | under the people stands the merged list, null when there are none and was no list, or the old value when there is nothing to merge or cut |
| ProfileMerge.PeopleMerged | pipelines/consolidate_profile.go:57-68 | the people of the new card are the merge of both lists, cut to the last fifteen |
| ProfileMerge.CardKeepsUnique | pipelines/consolidate_profile.go:113-142 | identifiers unique on the card are unique on the merged card |
| ProfileMerge.CardRemergeExactly | pipelines/consolidate_profile.go:27-70 | merging the same updates into the new card leaves it unchanged exactly when every updated person is on it |
| JsonScan.ExtractJSON | textutil/textutil.go:186-222 | the input without a brace, else the shortest balanced span from the first brace, else everything from there |
| JsonScan.ExtractUnique | textutil/textutil.go:186-222 | that specification has one result |
| JsonScan.ExtractIdempotent | textutil/textutil.go:186-222 | extracting again changes nothing |
| JsonScan.DepthCountsBraces | textutil/textutil.go:191-219 | every text splits into lexemes and at most one unfinished string, and the depth counts the braces outside strings |
| JsonScan.CountIsDepth | textutil/textutil.go:191-219 | the same for every such splitting |
| JsonScan.ExtractsObject | textutil/textutil.go:181-222 | for every object text of RFC 8259, every prefix without a brace and every suffix, the result is exactly the object |
| JsonScan.ExtractsTruncated | textutil/textutil.go:220-221 | an object cut off anywhere is returned up to the end of the input |
| TextSplit.TrimmedExactly | memory/save.go:170-178 | trimming removes the white space of Unicode at both ends, all of it and nothing else |
| TextSplit.CutEnd | memory/save.go:158-168 | a piece is within the budget, and empty exactly when the budget is zero, so the loop makes progress otherwise |
| TextSplit.ChunkText | memory/save.go:150-181 | terminates and computes the chunks |
| TextSplit.PiecesAreText | memory/save.go:156-175 | the pieces are the text, each within the budget and cut at the last newline of its window when there is one |
| TextSplit.ChunksWithinBudget | memory/save.go:150-181 | all chunks are within the budget exactly when it is not the all-discarded fallback with a longer text |
| TextSplit.ChunksKeepText | memory/save.go:168-181 | trimming the pieces deletes white-space characters only; at most 49 bytes are lost per dropped piece, and nothing if none is dropped |
| TextSplit.EmbedKeepsText | memory/embedding.go:149-170 | whatever the server answers to each call, embedding succeeds exactly when every call that is not split further is embedded; their texts come back in order and lack only white space of the original |
| TextSplit.FailsExactly | memory/embedding.go:149-170 | embedding fails exactly when a call it leads to fails at the server or is too large with at most 100 bytes |
| TextSplit.EmbedsEverything | memory/embedding.go:149-170 | with a server that embeds every text of at most n bytes, n at least 100, and otherwise only finds texts too large, every text is embedded |
| TextSplit.MiddleExactly | memory/embedding.go:152-156 | a text is cut behind the last newline of its first half, else in the middle |
| Schedules.HHMMParses | timefmt/timefmt.go:64-74 | every time of day in the documented form parses to itself |
| Schedules.AcceptedExactly | timefmt/timefmt.go:64-74 | accepted text has the documented form exactly when its units characters are not above '9' |
| Schedules.ParseSchedules | routines/schedule.go:34-48 | the trimmed, non-empty parts between commas |
| Schedules.EntriesExactly | routines/schedule.go:34-48 | each part stands trimmed in its place, empty ones are left out |
| Schedules.StoredSchedulesReturn | routines/schedule.go:13-48 | a list stored comma-separated comes back as its trimmed, non-empty entries |
| Schedules.CleanSchedulesReturn | routines/schedule.go:13-48 | a list of trimmed, non-empty entries without commas comes back as it was |
| Schedules.IsScheduleDue | routines/schedule.go:67-80 | true exactly when some target of the day lies between the last execution and now |
| Schedules.FiresAfterTarget | engine/routines.go:43-77 | by the end of any poll of the day after a target, the routine has been executed at or after the target |
| Schedules.FiresBounded | routines/sync.go:177-197 | schedules alone cause at most one execution a day for each distinct target |
| Schedules.FiresExactly | routines/sync.go:134-189 | a poll executes a routine exactly when its interval since the last execution is over or a schedule is due, and its timer can be advanced |
| Schedules.FirstPollAfterInterval | routines/sync.go:134-189 | while no schedule is due, a routine is executed by the first poll at or after the end of its interval and by none before |
| Schedules.RoutineTable.QueryDue | routines/sync.go:134-189 | the due rows, in order |
| Schedules.RoutineTable.ExecuteDue | engine/routines.go:43-77 | each due row whose timer can be advanced is executed, with its timer advanced first |

## Left out

- LLM and embedding calls, HTTP, Telegram and tools: their results are parameters (oracles) of the
  methods, so the theorems hold for all of them.
- Blocking: methods of `PrioritySem` and `SlotRouter` stop where the source blocks; waiting, waking
  and cancellation are the steps of `SlotProtocol`.
- Router metrics, logging, the passthrough router used without slot coordination, and
  `Engine.Mu` uses that take no slot.
- JSON decoding of tool calls, think-tag and code-fence stripping, regular expressions, grammars,
  soft-error phrases and fallback tables of the loop: parameters.
- What a background job's user sees, its registry entry, and the wording of its session prompts.
- Image parts of messages, persistence of the conversation, and the archiver's own work.
- The SHA-256 fingerprint: modelled as equality of roles and contents.
- `TrimMessages` with a tail of zero and `SlideAndArchiveContext` with a limit of zero: the source
  indexes past the end of the list.
- SlotDeadlock.DeadlockNeedsFewSlots: stated for tools that make no client calls, because with them it is false (SlotNested.UsersWait).
- SlotDeadlock.DeadlockFree: stated for tools that make no client calls, because with them it is false (SlotExact.DeadlockExactly); fair scheduling of the enabled steps is not modelled.
- SlotReacquire.Reacquires: gives a continuation in which the slot comes back, not one for every schedule; for the restriction see SlotExact.ReacquireExactly.
- SlotSafety.OwnersRelease: stated for runs without fallbacks, because with them it is false (SlotWitness.StrayReachable).
- RunProtocol.RunFollowsProtocol: assumes that no LLM call succeeds after a failed reacquire, because the client checks the context that has ended, and that only an engine loop's reacquire can fail, because a user's context is never cancelled.
- Bytes and characters: a string stands for its bytes.
- The work queue's unbuffered form is in the steps but not in the class `WorkQueue`; its class runs
  one worker without interference.
- Times of the retry queue's entries and the interval between drains.
- The breaker's clock is not tied to real time: records and checks may carry any times.
- Progress callbacks of plan execution, prompt building, and `isComplexStep`: they only choose
  which model runs a step.
- SQL: queries by similarity, salience or entity are parameters that return existing rows.
  Transactions run one after the other; two concurrent profile writers at READ COMMITTED are
  outside the model. Rows are never deleted (pruning, profile purge, quality gate).
- ProfileMerge.UpsertMeans: stated for updates that carry the identifier, because each of the others is appended as it is.
- JSON text of profiles: values are what the text parses to, and writing a card and parsing it back
  is taken to give the same card. Objects are values, so sharing of one update object by two lists
  is not modelled.
- TextSplit.ChunkText: for budgets of zero or less only the empty text is covered, because for others the source loops forever or slices out of range.
- Time zones: the calendar is a parameter; nothing is assumed about daylight saving. Routine files,
  hot reload and what a routine does when it runs.
- Floating-point scoring, shell allow-listing, reports, and formatting of prompts.
