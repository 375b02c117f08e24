# Mezo control plane: verified models

Dafny models of the control plane's stateful cores, with proofs of what they guarantee.
`dafny verify dfyconfig.toml` checks everything.

## What is modelled

**Redis lease queue and durable worker.** `QueueTypes` and `QueueScripts` give the keys of one queue prefix and one
function per Lua script; `RedisQueues` is the same state as a mutable object whose methods are proved equal to those
functions. `DeliveryProtocol` puts any number of workers, recoverers, replayers and approvers around them as actors
with phases. Each script and each SQL transaction is one step; actors interleave freely between their awaits and may
crash at any of them. The theorems quantify over every run:

- `DeliveryInvariant`, `IndexAgreement`: tables and indexes agree in every reachable state.
- `NoLoss`: nothing issued is lost. `OnePlace`: which steps copy a message, and one place per message without them.
- `Fencing`: stale tokens stay powerless; unlocked reads followed by a re-check act like an atomic recovery.
- `RetryBudget`, `ClaimBudget`, `ClaimPotential`: retries end, with and without copies; `ClaimsAttained`: the bound is
  exact. `CancellationDrain`: tombstones absorb and drain.
- `DeadLetterReplay`, `ReplayConsent`: first writer wins, at most one replay, none without an approval. `Backoffs`:
  retries wait out their back-off. `ProtocolLimits`: where the guarantees stop, exactly;
  `ProtocolRuns`: runs from the empty queue that get there.
- `WorkerRuntimes`, `LeaseRecoveries`: the worker's and the recoverer's own code, statement by statement; the worker's
  is proved to be a run of its protocol steps whatever its calls do. `QueueClients`: the queue's other callers.

**Resumable workflow.** `Checkpoints` (store), `Workflows` (the loop as functions), `WorkflowEngines` (the loop as it
is written, proved equal to them), `WorkflowProperties` (bounds, findings, coverage), `WorkflowReviews` (which
corrections the draft can miss), `WorkflowConcurrency` (many engines over one store), `WorkflowApprovals` (what a
missing approval stops), `WorkflowResumes` (what a crash forgets).

**Supporting cores.** `RetryPolicies`; `Patches` and `FilesystemTools`; `Sorting`, `Chunking` and `ContextPacking`;
`RateLimits` and `TelegramSurfaces`; `Policies`.

## Assumptions

- A Lua script, an SQL transaction, and an in-process section without an await are atomic.
- Time is real and never runs back. A claim or renewal reaches Redis before the deadline computed from its own clock
  sample; `ProtocolLimits.LateClaimPoisonsIff` says what happens otherwise. A recoverer's time is never in the future.
- Message ids and owner tokens drawn by `uuid4` are fresh; they are integers here.
- SHA-256, `fnmatch`, path resolution, handlers and clocks are arbitrary parameters. No injectivity of hashes is assumed.
- JSON text is the record it encodes. The text `{}` that recovery passes without an envelope or lease is `Malformed`.
- Evidence rows that violate their hash's uniqueness abort their transaction, which is a crash before the step.

## Where code and documentation differ

- `docs/architecture/queue-consistency.md:24` says finished tasks are not executed again. `record_failure` has no
  terminal guard and a lost acknowledgement answer is retryable, so a completed task can return to the queue and its
  handler start again (`ProtocolRuns.CompletedRunsAgain`); `ProtocolLimits.TerminalLeftIff` is the exact condition.
- `docs/policies.md:3` speaks of precedence between rule priorities. Priorities order the reasons and never the effect
  (`Policies.PrioritiesNeverDecide`).
- The failure dispatcher never passes the elapsed time to the retry policy; the elapsed budget then holds exactly for
  policies that leave at most one retry (`RetryPolicies.UnthreadedFitsIff`).
- Strict priority between ready lists holds exactly when no live message hides behind a dead head in a list before the
  first live head (`ProtocolLimits.ClaimOvertakesIff`).
- `approve_replay` reads and writes separately; a second replay is possible exactly when an approval is written from a
  copy read before the first one (`DeadLetterReplay.SecondReplayIff`, `ProtocolRuns.ReplayedTwice`).
- `docs/workflow.md:9-10` says that Draft PR preparation is unreachable when verification returns a blocking result.
  A blocking answer is checkpointed like any other, so it can be overlooked: `WorkflowReviews.DraftBlockedIff` says
  exactly when, `WorkflowReviews.BlockedReviewCompletes` is such a run without a crash and
  `WorkflowResumes.CrashedReviewCompletes` one with a crash. Checkpoints do not say that a correction was asked for;
  a resumed run goes on where the last call had led exactly when it was not (`WorkflowReviews.ResumeForgetsIff`).
- `README.md:221` says that sensitive changes require an approval. The workflow asks for one at OBTAIN_APPROVAL, but a
  correction that an earlier stage asks for goes on behind it (`WorkflowApprovals.EarlyCorrectionPasses`);
  `WorkflowApprovals.ApprovalGuards` is the exact condition.
- Corrective rounds are counted in the run's own object: resumed runs go through any number of them
  (`WorkflowResumes.RoundsStartOver`).

## Model

| member | source | states |
|---|---|---|
| RedisQueues.RedisQueue.Enqueue | src/mezo_control_plane/queue/producer.py:12-20 | a known dedupe key answers its message and changes nothing; otherwise key, task index and ready list gain exactly the new message |
| RedisQueues.RedisQueue.Claim | src/mezo_control_plane/queue/consumer.py:15-43 | one pass over the four lists: dead heads are dropped with their lease entries, the first live head is leased |
| RedisQueues.RedisQueue.Acknowledge | src/mezo_control_plane/queue/consumer.py:44-57 | 0, -1, -2 or 1 as lease, owner and tombstone say; only 1 releases the lease |
| RedisQueues.RedisQueue.Renew | src/mezo_control_plane/queue/consumer.py:58-71 | only the owner of a lease of a task that is not cancelled moves its deadline, in lease and index alike |
| RedisQueues.RedisQueue.Schedule | src/mezo_control_plane/queue/retry_scheduler.py:12-18 | writes hash and index together, unless cancelled or scheduled already |
| RedisQueues.RedisQueue.Promote | src/mezo_control_plane/queue/retry_scheduler.py:19-45 | the promotion loop with its tallies; a malformed entry aborts it and keeps the effects so far |
| RedisQueues.RedisQueue.RecoverOne | src/mezo_control_plane/queue/recovery.py:14-51 | every branch of the recovery script, statuses included |
| RedisQueues.RedisQueue.Cancel | src/mezo_control_plane/queue/cancellation.py:12-25 | tombstones a known task and unschedules its latest message |
| RedisQueues.RedisQueue.Finalize | src/mezo_control_plane/queue/dead_letter_queue.py:11-19 | keeps the first record and answers it |
| RedisQueues.RedisQueue.WriteApproval | src/mezo_control_plane/queue/dead_letter_queue.py:167-178 | writes the record read before, with its approval set |
| RedisQueues.RedisQueue.Replay | src/mezo_control_plane/queue/dead_letter_queue.py:20-41 | every refusal of the replay script, and the push of one envelope under the new id |
| QueueClients.TaskProducer.Enqueue | src/mezo_control_plane/queue/producer.py:40-75 | the key is bound to the answered message, and a message is pushed exactly when the key was free |
| QueueClients.TaskConsumer.Claim | src/mezo_control_plane/queue/consumer.py:90-131 | none exactly when no list has a live head; else the first live head with its id, task, attempt and priority, leased under the token from the sampled time to its deadline; the dead heads before it and their leases are gone and every other lease stays |
| QueueClients.TaskConsumer.RenewLease | src/mezo_control_plane/queue/consumer.py:154-177 | succeeds exactly for the owner of a lease whose task is not cancelled, and then moves deadline and score together |
| QueueClients.TaskConsumer.Acknowledge | src/mezo_control_plane/queue/consumer.py:133-152 | succeeds exactly for the owner of a lease whose task is not cancelled, and then the three lease entries go, nothing else |
| QueueClients.RetryScheduler.ScheduleFailure | src/mezo_control_plane/queue/retry_scheduler.py:87-152 | a record is made exactly when one more wait fits the attempt budget and, counted from the first failure, the elapsed one; it is due that wait later and extends the history; it is scheduled unless the task is cancelled or the message delayed already |
| QueueClients.RetryScheduler.PromoteDue | src/mezo_control_plane/queue/retry_scheduler.py:154-181 | the entries of the page up to a malformed one leave the delayed hash, those that may run go to the end of their own list in page order, and each is counted as promoted, cancelled or terminal |
| QueueClients.PromoteMeans | src/mezo_control_plane/queue/retry_scheduler.py:19-45 | the same of the script, for any page of distinct ids |
| QueueClients.CancellationService.Cancel | src/mezo_control_plane/queue/cancellation.py:65-110 | a durable refusal leaves the queue alone; a known task gets its tombstone and its latest message is delayed no longer; the answer tells which |
| QueueClients.DeadLetterQueue.Finalize | src/mezo_control_plane/queue/dead_letter_queue.py:92-117 | the first record stays and is answered; a new one is replayable only if its failure was not permanent |
| QueueClients.DeadLetterQueue.ApproveReplay | src/mezo_control_plane/queue/dead_letter_queue.py:163-181 | undisturbed, the record found changes in its approval only |
| QueueClients.DeadLetterQueue.Replay | src/mezo_control_plane/queue/dead_letter_queue.py:183-214 | undisturbed, it succeeds exactly for an approved, eligible, never replayed record of a task that may run, marks it and pushes its envelope under the new id; every refusal says why |
| DeliveryInvariant.StepKeepsInv | src/mezo_control_plane/queue/consumer.py:15-71 | every step of every actor keeps the invariant: agreeing tables, fresh tokens, issued entries, good unlocked reads |
| DeliveryInvariant.RunKeepsInv | src/mezo_control_plane/worker/runtime.py:104-151 | the invariant holds after every run, with any interleaving and crash |
| DeliveryInvariant.PassedCheckMeansFreshPlan | src/mezo_control_plane/queue/recovery.py:122-140 | if the script finds the lease expired, both earlier reads are the current envelope and lease |
| IndexAgreement.IndexesAlwaysAgree | src/mezo_control_plane/queue/retry_scheduler.py:12-45 | in every reachable state keys and scores of all indexes agree with their tables |
| IndexAgreement.RepairBranchesUnreachable | src/mezo_control_plane/queue/recovery.py:20-24 | no reachable recovery cleans an orphan, no reachable promotion raises or meets a missing entry |
| NoLoss.StepKeepsLive | src/mezo_control_plane/worker/failure_delivery.py:24-52 | a dispatcher about to acknowledge with a live token has left another copy; every step keeps that and every message |
| NoLoss.NothingIsLost | src/mezo_control_plane/worker/runtime.py:104-151 | after any run each issued message is ready, in flight, delayed or dead-lettered, or its task was cancelled or at some point terminal |
| OnePlace.StepPlaces | src/mezo_control_plane/queue/recovery.py:26-50 | a step adds one place when the failure dispatcher files a copy, and never otherwise |
| OnePlace.PlacesGrowIff | src/mezo_control_plane/worker/failure_delivery.py:33-51 | a message gains a place exactly when its dispatcher schedules a granted, uncancelled, not yet delayed retry or files its first dead letter |
| OnePlace.OnePlacePerMessage | src/mezo_control_plane/queue/consumer.py:15-57 | in every run that never copies it a message is in at most one place, and one that retired never reappears |
| OnePlace.CrashOnlyNeverCopies | src/mezo_control_plane/queue/recovery.py:26-50 | runs in which leases leave only through recovery never copy |
| OnePlace.ExactlyOnePlace | src/mezo_control_plane/queue/retry_scheduler.py:19-44 | with no loss: exactly one place, from the empty queue on, unless copied or excused |
| ProtocolRuns.TwoPlaces | src/mezo_control_plane/worker/failure_delivery.py:33-52 | for every configuration a run leaves a message in flight and among the dead letters at once |
| Fencing.StaleForever | src/mezo_control_plane/queue/consumer.py:44-71 | a token that lost its lease never holds one again |
| Fencing.FencedOut | src/mezo_control_plane/queue/consumer.py:133-175 | with a stale token no later acknowledgement or renewal answers 1 or changes anything |
| Fencing.AcknowledgesOnce | src/mezo_control_plane/queue/consumer.py:44-57 | an acknowledgement succeeds exactly for the holder of a live task's lease, and makes the token stale |
| Fencing.ReclaimFences | src/mezo_control_plane/queue/consumer.py:15-43 | claiming a message again makes every earlier token for it stale |
| Fencing.RecoveryIsAtomic | src/mezo_control_plane/queue/recovery.py:122-216 | reading envelope and lease, planning and re-checking equals doing so atomically, store and status, for the durable answer it was given |
| Fencing.DurableReadMattersIff | src/mezo_control_plane/queue/recovery.py:130-133 | an outdated durable answer changes the recovery exactly on an expired lease whose snapshot is not completed or failed |
| Fencing.RecoveryActsIffExpired | src/mezo_control_plane/queue/recovery.py:14-51 | the script acts exactly on a lease past its deadline at the sampled time, and then the lease is gone |
| Fencing.OneLeaseRecoveredOnce | src/mezo_control_plane/queue/recovery.py:84-120 | of recoverers that read the same lease at most one acts on it |
| RetryBudget.AttemptsStayBelowMaximum | src/mezo_control_plane/queue/recovery.py:139-186 | in every interleaving live envelopes not born of a replay are below maximum_attempts |
| Backoffs.BackoffIsWaited | src/mezo_control_plane/queue/retry_scheduler.py:19-45 | in every run a delayed retry stays delayed until a promotion looks at a time when it is due, or its task is cancelled |
| Backoffs.DispatchedRetryWaits | src/mezo_control_plane/queue/retry_scheduler.py:87-130 | a retry that the worker files is due its back-off later, the server's wish or the jittered capped exponential of its attempt, and waits until then |
| Backoffs.RecoveredRetryWaits | src/mezo_control_plane/queue/recovery.py:171-186 | the same for the retry of an expired lease |
| ClaimBudget.StepKeepsTracked | src/mezo_control_plane/queue/retry_scheduler.py:87-110 | a message's attempt number says how often it was claimed, after every step that does not copy it |
| ClaimBudget.ClaimsAreBounded | src/mezo_control_plane/queue/retry_policy.py:42-56 | in every run that never copies it, a message issued with attempt a is claimed at most max(1, maximum_attempts - a) times |
| ClaimPotential.StepWeight | src/mezo_control_plane/worker/failure_delivery.py:24-52 | no step raises a message's potential: claims so far plus what its entries, its lease and its workers can still lead to |
| ClaimPotential.ClaimsAlwaysBounded | src/mezo_control_plane/worker/runtime.py:104-151 | in every run, copies included, a message issued with attempt a is claimed at most max(1, 2^(maximum_attempts - a) - 1) times |
| ClaimsAttained.ClaimBoundAttained | src/mezo_control_plane/worker/failure_delivery.py:24-52 | the bound is exact: whenever the policy grants every retry below its limit, a run from the empty queue claims one message 2^maximum_attempts - 1 times |
| CancellationDrain.CancelledOnlyDrains | src/mezo_control_plane/queue/cancellation.py:12-25 | a tombstone stays, and no step but enqueueing the task again adds an entry for it |
| CancellationDrain.TouchDrains | src/mezo_control_plane/queue/consumer.py:21-24 | a claim, promotion or expired recovery that touches a cancelled task strictly removes an entry |
| CancellationDrain.CancelledNeverRuns | src/mezo_control_plane/queue/cancellation.py:12-25 | after a tombstone nothing claims, acknowledges, renews, schedules or replays the task |
| DeadLetterReplay.FirstWriterWins | src/mezo_control_plane/queue/dead_letter_queue.py:11-19 | whatever runs in between, a second finalization answers the first record's content |
| DeadLetterReplay.MarkerSurvivesIff | src/mezo_control_plane/queue/dead_letter_queue.py:163-181 | a replay marker survives a step exactly unless an approval overwrites it from an older copy |
| DeadLetterReplay.ReplayedAtMostOnce | src/mezo_control_plane/queue/dead_letter_queue.py:183-214 | however replayers interleave reads and scripts, at most one succeeds per record while approvals are current |
| DeadLetterReplay.SecondReplayIff | src/mezo_control_plane/queue/dead_letter_queue.py:163-181 | an approval written after a replay allows a second one exactly when its copy lacks the marker |
| ProtocolRuns.ReplayedTwice | src/mezo_control_plane/queue/dead_letter_queue.py:163-214 | for every configuration a run from the empty queue replays one dead letter twice |
| DeadLetterReplay.ReplayPushesOne | src/mezo_control_plane/queue/dead_letter_queue.py:20-41 | success pushes one envelope under the new id at the recorded priority and marks the record; refusal changes nothing |
| ReplayConsent.ConsentedIff | src/mezo_control_plane/queue/dead_letter_queue.py:163-181 | a dead letter becomes approved exactly by an operator's approval of it, whoever filed it |
| ReplayConsent.NoReplayWithoutConsent | src/mezo_control_plane/queue/recovery.py:154-170 | in every run a dead letter is approved at some point exactly when an operator approved it, and never replayed without |
| ProtocolLimits.ClaimTakesFirstLiveHead | src/mezo_control_plane/queue/consumer.py:15-43 | a claim returns the head of the first list with a live head, None iff there is none, and pops exactly the heads before it |
| ProtocolLimits.EmptyClaimsBounded | src/mezo_control_plane/queue/consumer.py:15-43 | a live message i places down a list delays success by at most i empty claims |
| ProtocolLimits.ClaimOvertakesIff | src/mezo_control_plane/queue/consumer.py:16-41 | a claim passes over a more urgent message, or returns nothing past one, exactly when a list before the first live head hides it behind a dead head |
| ProtocolLimits.LowBeforeCritical | src/mezo_control_plane/queue/consumer.py:16-41 | such a queue: a low message is claimed before a waiting critical one |
| ProtocolLimits.LateClaimPoisonsIff | src/mezo_control_plane/queue/recovery.py:134-138 | a claim landing after empty reads is turned into a malformed retry exactly when its deadline had already passed |
| ProtocolLimits.PromotionRaisesIff | src/mezo_control_plane/queue/retry_scheduler.py:19-45 | a promotion raises exactly when its page holds a malformed entry, which then stays |
| ProtocolLimits.TerminalLeftIff | src/mezo_control_plane/worker/durable_execution.py:25-87 | a terminal task leaves its terminal states exactly by a retryable failure record or another component's transaction |
| ProtocolLimits.FinishedStaysFinished | src/mezo_control_plane/worker/durable_execution.py:25-29 | along runs without such a step it stays terminal and no handler can start for it |
| ProtocolLimits.LostAnswerReopens | src/mezo_control_plane/worker/durable_execution.py:65-75 | a completed task whose acknowledgement answer is lost goes back to QUEUED, in every state |
| ProtocolRuns.CompletedRunsAgain | src/mezo_control_plane/worker/runtime.py:128-142 | whenever the policy grants the first retry, a run completes a task and then starts its handler again |
| WorkerRuntimes.ExecutionGateway.RecordClaim | src/mezo_control_plane/worker/durable_execution.py:25-54 | moves a present, unfinished task to EXECUTING, or raises and changes nothing |
| WorkerRuntimes.ExecutionGateway.RecordSuccess | src/mezo_control_plane/worker/durable_execution.py:56-63 | completes any present task but a cancelled one |
| WorkerRuntimes.ExecutionGateway.RecordFailure | src/mezo_control_plane/worker/durable_execution.py:65-75 | queues or fails any present task, finished or not |
| WorkerRuntimes.ExecutionGateway.RecordInterrupted | src/mezo_control_plane/worker/durable_execution.py:77-87 | queues a task again unless it is finished |
| WorkerRuntimes.QueueFailureDispatcher.Dispatch | src/mezo_control_plane/worker/failure_delivery.py:24-52 | with a fault at any of its calls, field by field: an affordable retry is filed with its due time unless cancelled or delayed, a spent budget leaves an unapproved dead letter unless there is one, and only then the owner's lease goes; if it acknowledges, a copy is left or the task is cancelled |
| WorkerRuntimes.WorkerRuntime.Fail | src/mezo_control_plane/worker/runtime.py:135-142 | durable failure, then the dispatcher, with a fault or cancellation at any call: a run of those protocol steps |
| WorkerRuntimes.WorkerRuntime.Execute | src/mezo_control_plane/worker/runtime.py:104-151 | whatever the handler and the calls do, raising, cancelled or cut short after their effect: the task row and the queue in the end, and that they are the end of a run of that worker's protocol steps |
| WorkerRuntimes.CalmExecution | src/mezo_control_plane/worker/runtime.py:104-142 | without faults: returned completes and releases, raised is recorded and dispatched, cancelled puts back, and a delivery of a finished task queues the task again |
| WorkerRuntimes.ClassifyMeans | src/mezo_control_plane/worker/failure_classification.py:27-65 | which causes may be retried, which class each has, and that only a rate limit carries a wish |
| WorkerRuntimes.StepsAreARun | src/mezo_control_plane/worker/runtime.py:104-151 | a worker's recorded steps are a run of the protocol with the same final state |
| LeaseRecoveries.LeaseRecovery.RecoverCandidate | src/mezo_control_plane/queue/recovery.py:122-216 | a lease that has not lapsed is left alone; a lapsed one is released and its message, by durable state, tombstone and budget, cleaned up, delayed by its attempt's back-off, or filed as an unapproved dead letter, every field given |
| LeaseRecoveries.LeaseRecovery.RecoverExpired | src/mezo_control_plane/queue/recovery.py:84-120 | the page's candidates recovered in order under the caller's or the policy's limit and counted by outcome; exactly their leases are gone, and a short page leaves no expired lease |
| RetryPolicies.DoublingIsPower | src/mezo_control_plane/queue/retry_policy.py:45-47 | repeated doubling is base * 2^n |
| RetryPolicies.UnjitteredMonotone | src/mezo_control_plane/queue/retry_policy.py:45-47 | the back-off before jitter never shrinks with the attempt and respects the cap |
| RetryPolicies.JitteredInBand | src/mezo_control_plane/queue/retry_policy.py:45-49 | for any draw a delay lies within (1 +- jitter) times the capped exponential |
| RetryPolicies.JitteredNonNegativeIff | src/mezo_control_plane/queue/retry_policy.py:13-31 | delays are never negative exactly when the unchecked maximum delay is not |
| RetryPolicies.DecideMeaning | src/mezo_control_plane/queue/retry_policy.py:33-56 | a retry is granted exactly when the failure is retryable and both budgets hold, with the wished delay |
| RetryPolicies.DecideIsAffordable | src/mezo_control_plane/queue/retry_policy.py:33-56 | without elapsed time: granted exactly below the attempt limit with a wait within the budget, and the wait is the server's wish or min(max, base * 2^(n - 1)) moved by the draw |
| RetryPolicies.WaitInBand | src/mezo_control_plane/queue/retry_policy.py:45-49 | that wait lies within (1 +- jitter) times the capped exponential |
| RetryPolicies.TotalBackoffBound | src/mezo_control_plane/queue/retry_policy.py:45-49 | n back-offs sum to at most (1 + jitter) * min(n * max, base * (2^n - 1)) |
| RetryPolicies.GrantedFitsBudgets | src/mezo_control_plane/queue/retry_policy.py:33-56 | with elapsed time threaded through, all granted delays fit the elapsed budget and their number the attempt budget |
| RetryPolicies.UnthreadedFitsIff | src/mezo_control_plane/queue/retry_scheduler.py:97-105 | without it the granted delays fit the elapsed budget, whatever fails, exactly when at most one retry is left |
| Checkpoints.AppendsKeepOrder | src/mezo_control_plane/orchestrator/checkpoints.py:33-48 | over any appends the list only grows at its end, numbers 1..n, one checkpoint per stage and input, the first one for ever |
| Checkpoints.InMemoryCheckpointStore.Append | src/mezo_control_plane/orchestrator/checkpoints.py:33-48 | answers the first duplicate, raises on a gap, or extends the list by the checkpoint; other lists stay |
| Checkpoints.InMemoryCheckpointStore.Latest | src/mezo_control_plane/orchestrator/checkpoints.py:50-52 | the last checkpoint, if any |
| Checkpoints.FindFirst | src/mezo_control_plane/orchestrator/engine.py:134-141 | the first checkpoint of that stage and input, None exactly when there is none |
| WorkflowEngines.ResumableWorkflowEngine.Run | src/mezo_control_plane/orchestrator/engine.py:106-173 | fields, checkpoints, ending and number of iterations are those of RunWorkflow; other workflows' checkpoints stay |
| WorkflowEngines.ResumableWorkflowEngine.Iteration | src/mezo_control_plane/orchestrator/engine.py:122-172 | one pass of the loop, field by field: cancellation, deadline and missing handler in this order, then the duplicate, then the handler's answer |
| WorkflowEngines.ResumableWorkflowEngine.Settle | src/mezo_control_plane/orchestrator/engine.py:145-172 | a pending answer changes nothing, a refused one only the stage; every other is merged, checkpointed and followed by the next stage, a corrective round or a failure |
| Workflows.StagesInOrder | src/mezo_control_plane/orchestrator/engine.py:38-55 | the sixteen stages in their order, and the way back from a corrective round |
| WorkflowEngines.ResumableWorkflowEngine.CountFindings | src/mezo_control_plane/orchestrator/engine.py:175-182 | counts findings until one reaches the limit, and then fails the run |
| WorkflowProperties.ExecuteBounded | src/mezo_control_plane/orchestrator/engine.py:117-173 | iterations are at most 7 per round left plus the stages left, and rounds never exceed the maximum |
| WorkflowProperties.FreshRunBounded | src/mezo_control_plane/orchestrator/engine.py:117-173 | a fresh run passes the loop at most 15 + 7 * max_corrective_rounds times |
| WorkflowProperties.FreshRunBoundAttained | src/mezo_control_plane/orchestrator/engine.py:117-173 | for every configuration and payload some handlers make a fresh run exactly that long |
| WorkflowProperties.FindingsCounted | src/mezo_control_plane/orchestrator/engine.py:175-182 | the run stops exactly when a finding's total reaches the limit; otherwise totals grew by their occurrences |
| WorkflowProperties.RepeatedIffAtLimit | src/mezo_control_plane/orchestrator/engine.py:164-168 | a run ends with a repeated finding exactly when a count is at the limit |
| WorkflowProperties.ExecuteAppends | src/mezo_control_plane/orchestrator/engine.py:151-163 | a run only appends, in sequence, once per stage and input, and alone never meets a sequence conflict |
| WorkflowProperties.FinishCoversIff | src/mezo_control_plane/orchestrator/engine.py:145-172 | a finished iteration keeps stage coverage, except exactly when a correction jumps over stages nobody recorded |
| WorkflowProperties.CompletedCoversIff | src/mezo_control_plane/orchestrator/engine.py:114-173 | a fresh run that completes has checkpointed all stages in order exactly when no correction came before EXECUTE_TOOLS |
| WorkflowProperties.RejectionForgotten | src/mezo_control_plane/orchestrator/engine.py:114-172 | whatever a stage answered, once its checkpoint is written the next run resumes behind it and never in a corrective round; that is where this run goes exactly when no correction was asked for |
| WorkflowReviews.DraftBlockedIff | src/mezo_control_plane/orchestrator/engine.py:132-172 | wherever a run begins, it comes to PREPARE_DRAFT_PR or COMPLETED with the last answer of a stage asking for a correction exactly when that stage comes before RUN_TESTS or was met again, and not called since, with an input it had seen |
| WorkflowReviews.NewInputsSettle | src/mezo_control_plane/orchestrator/engine.py:133-145 | corrections from RUN_TESTS on only and no stage meeting an input twice: no draft while any stage stands blocked |
| WorkflowReviews.BlockedReviewCompletes | src/mezo_control_plane/orchestrator/engine.py:134-172 | for every configuration and digest, payload included, a run prepares the draft and completes though the blind review asked for a correction each time it was asked |
| WorkflowReviews.ResumeForgetsIff | src/mezo_control_plane/orchestrator/engine.py:114-172 | stopped after any iteration, a run is resumed behind the stage called last, and where that call had led exactly when its answer was not blocking |
| WorkflowResumes.CrashSkipsCorrection | src/mezo_control_plane/orchestrator/engine.py:114-172 | in every state of many engines: an engine that accepts a correction and crashes is taken over behind the stage that asked for it |
| WorkflowResumes.CrashedReviewCompletes | src/mezo_control_plane/orchestrator/engine.py:114-173 | from the empty store: a review blocks, its engine crashes in the corrective round, the next one completes without it |
| WorkflowResumes.RoundsStartOver | src/mezo_control_plane/orchestrator/engine.py:164-172 | for every n crashes and resumed runs go through n corrective rounds, however few a run allows |
| WorkflowConcurrency.RunAppends | src/mezo_control_plane/orchestrator/checkpoints.py:33-48 | with any number of engines the list only grows, well kept |
| WorkflowConcurrency.RecordedNeverCalledAgain | src/mezo_control_plane/orchestrator/engine.py:132-145 | no engine that opens a recorded stage and input calls its handler |
| WorkflowConcurrency.ConflictIffOvertaken | src/mezo_control_plane/orchestrator/engine.py:152-163 | an answer is lost to a sequence conflict exactly when its pair is new and another engine appended since the read |
| WorkflowConcurrency.FreshStoreCovers | src/mezo_control_plane/orchestrator/checkpoints.py:33-48 | from the empty store the two results hold together |
| WorkflowConcurrency.RunCovers | src/mezo_control_plane/orchestrator/engine.py:114-173 | with corrections only from EXECUTE_TOOLS on, concurrent engines keep coverage, and COMPLETED has all fifteen stages behind it |
| WorkflowApprovals.WrittenByAcceptance | src/mezo_control_plane/orchestrator/engine.py:145-163 | with any number of engines each checkpoint records an answer that neither awaited nor was refused an approval |
| WorkflowApprovals.ApprovalGuards | src/mezo_control_plane/orchestrator/engine.py:114-172 | some engine gets behind OBTAIN_APPROVAL exactly when an answer of it was accepted or an earlier stage asked for a correction; until then no later handler is called and each next run asks again |
| WorkflowApprovals.EarlyCorrectionPasses | src/mezo_control_plane/orchestrator/engine.py:164-170 | the second way is real: a correction asked for by RECEIVE passes an approval that nobody was asked for |
| Patches.BytesAddUp | src/mezo_control_plane/tools/filesystem.py:67-69 | the byte limit is on the sum of all entries' encoded contents, an entry without content counting as the empty one |
| Patches.LastEntryWinsIff | src/mezo_control_plane/tools/filesystem.py:89-100 | after success the last entry for a path decides its content, exactly unless a later temporary name clobbers it |
| Patches.OthersUntouchedIff | src/mezo_control_plane/tools/filesystem.py:89-100 | paths that no entry names keep their content, temporary names excepted |
| FilesystemTools.FilesystemTool.CheckAll | src/mezo_control_plane/tools/filesystem.py:79-86 | remembers every original, and passes exactly when every existing file is readable, every base hash fits what the path holds and no content has a NUL; the first entry that breaks one of these decides the error |
| FilesystemTools.FilesystemTool.WriteEntry | src/mezo_control_plane/tools/filesystem.py:89-100 | one entry with a fault at any operation touches only its path and its temporary name; without one the path is gone or holds the content |
| FilesystemTools.FilesystemTool.RollBack | src/mezo_control_plane/tools/filesystem.py:101-108 | restores the named paths in order, up to the first operation of its own that fails; nothing else changes |
| FilesystemTools.FilesystemTool.ApplyPatch | src/mezo_control_plane/tools/filesystem.py:66-109 | nothing is written unless every file is readable, unchanged since its base hash and every content is text, and the first entry that is not decides the rejection; a failure restores every path, repeated ones included, unless the rollback itself fails, which it reports with how far it got; success applies the entries left to right |
| Sorting.SortByCorrect | src/mezo_control_plane/repository_intelligence/context_builder.py:77-80 | sorted: ordered, same elements |
| Sorting.SortByStable | src/mezo_control_plane/policies/engine.py:31 | sorted is stable |
| Sorting.SortForgetsOrder | src/mezo_control_plane/policies/engine.py:31 | distinguishable elements sort to one result from any order |
| Sorting.StringLeMeans | src/mezo_control_plane/policies/engine.py:31 | strings are compared lexicographically |
| Chunking.SplitJoin | src/mezo_control_plane/repository_intelligence/context_builder.py:119-124 | splitting a chunk's text gives its lines back; its newlines are one fewer |
| Chunking.ChunksTile | src/mezo_control_plane/repository_intelligence/context_builder.py:119-124 | chunks tile the lines without gap or overlap and each citation names exactly its text's lines |
| Chunking.ChunksConcatenate | src/mezo_control_plane/repository_intelligence/context_builder.py:119-124 | the chunks' texts joined are the file |
| ContextPacking.GreedyIff | src/mezo_control_plane/repository_intelligence/context_builder.py:74-86 | a selection is the loop's exactly when each item is picked iff it is new and fits beside the picks ranked before it |
| ContextPacking.GreedyIsMaximal | src/mezo_control_plane/repository_intelligence/context_builder.py:74-86 | picks repeat no content, and an item left out repeats a pick ranked before it or does not fit beside all of them |
| ContextPacking.PackingIsMaximal | src/mezo_control_plane/repository_intelligence/context_builder.py:74-86 | it fits, follows the ranking, and nothing left out is new and fits beside it |
| ContextPacking.PackingIsGreedy | src/mezo_control_plane/repository_intelligence/context_builder.py:74-86 | no content is chosen twice, and every item left out repeats, or does not fit beside, chosen ones that rank before it |
| ContextPacking.Select | src/mezo_control_plane/repository_intelligence/context_builder.py:74-86 | the loop over budget and seen hashes returns that selection |
| ContextPacking.CollectCandidates | src/mezo_control_plane/repository_intelligence/context_builder.py:32-73 | every chunk with a score becomes one candidate, with its citation and cost |
| ContextPacking.CandidatesMean | src/mezo_control_plane/repository_intelligence/context_builder.py:48-73 | the candidates are exactly the eighty-line chunks with a positive score, with weights three, one and four and a quarter of the length as cost |
| ContextPacking.RankingForgetsTraversal | src/mezo_control_plane/repository_intelligence/context_builder.py:32-80 | the ranking does not depend on the order in which files are found |
| ContextPacking.Build | src/mezo_control_plane/repository_intelligence/context_builder.py:27-86 | scored chunks of eighty lines with their citation and cost, by falling score, path and line, within the budget; none repeats a content, and one left out repeats, or does not fit beside, chosen ones that are named before it |
| RateLimits.AdmitIffRoom | src/mezo_control_plane/api/middleware.py:94-103 | a request passes exactly when the window ending now has room |
| RateLimits.EveryWindowLimited | src/mezo_control_plane/api/middleware.py:94-103 | no half-open window of the configured length, wherever it starts, holds more than the limit |
| RateLimits.SpacedIsServed | src/mezo_control_plane/api/middleware.py:94-103 | exactly the rising, spaced logs occur: requests at such times are all let through |
| RateLimits.ClosedWindowTwice | src/mezo_control_plane/api/middleware.py:94-103 | a closed window of positive length holds at most twice the limit |
| RateLimits.TwiceIsAttained | src/mezo_control_plane/api/middleware.py:96 | for every positive limit and window some requests fill a closed window twice |
| RateLimits.ClosedWindowsLimitedIff | src/mezo_control_plane/api/middleware.py:96 | every closed window keeps to the limit exactly when no request came precisely one window after the one count places before it |
| RateLimits.MiddlewareLimits | src/mezo_control_plane/api/middleware.py:83-103 | over any stream of requests every window of every identity is limited |
| RateLimits.RateLimitMiddleware.Dispatch | src/mezo_control_plane/api/middleware.py:90-104 | the dispatch updates its identity's bucket only, and passes exactly when there is room |
| TelegramSurfaces.RememberMirrorsIff | src/mezo_control_plane/telegram/bot.py:167-171 | set and deque stay in step exactly when the id is new or the one falling out |
| TelegramSurfaces.MemoryIsRecentHistory | src/mezo_control_plane/telegram/bot.py:55-58 | the deque is the last handled ids, and an id is handled again only after it fell out |
| TelegramSurfaces.AllowIffBothRoom | src/mezo_control_plane/telegram/bot.py:156-165 | a message passes exactly when user and chat have room; the user is charged even when the chat refuses |
| TelegramSurfaces.SurfaceLimits | src/mezo_control_plane/telegram/bot.py:156-165 | every window holds at most the limit of allowed messages per user and per chat at once |
| TelegramSurfaces.TelegramControlSurface.Handle | src/mezo_control_plane/telegram/bot.py:55-67 | duplicates and closing are ignored without effect; otherwise the id is remembered and both buckets are asked |
| Policies.EffectIsJoin | src/mezo_control_plane/policies/engine.py:33-42 | DENY iff the platform or a matching rule denies, ALLOW iff all allow, approval otherwise |
| Policies.PrioritiesNeverDecide | src/mezo_control_plane/policies/engine.py:31-42 | changing rule priorities never changes the effect |
| Policies.MoreRulesNeverWeaken | src/mezo_control_plane/policies/engine.py:33-42 | adding rules never weakens the effect |
| Policies.MoreRiskNeverWeakens | src/mezo_control_plane/policies/engine.py:93-137 | reporting more risk never lowers risk level or mandatory effect |
| Policies.DecisionForgetsOrder | src/mezo_control_plane/policies/engine.py:31-66 | with unique ids the whole decision is the same for every order of the rules |
| Policies.OnlyReasonsDependOnOrder | src/mezo_control_plane/policies/engine.py:31-66 | for any two orders of the rules everything but the reasons is the same, matched ids included |
| Policies.SameForEveryOrderIff | src/mezo_control_plane/policies/engine.py:31-66 | every order of the rules gives the same decision exactly when matching rules with one priority and one id give one reason |
| Policies.MatchedInOrder | src/mezo_control_plane/policies/engine.py:31-34 | matched rules are reported by priority, then id |
| Policies.PolicyEngine.Strongest | src/mezo_control_plane/policies/engine.py:36-42 | the loop with its early exit computes the join |
| Policies.PolicyEngine.DecideRequest | src/mezo_control_plane/policies/engine.py:33-66 | from the request and the rules alone: DENY exactly for a destructive command or a matching denial, ALLOW exactly when nothing is destructive or sensitive and all matching rules allow; the matching rules are those that speak about it, by priority and id, and risk, reasons and collections follow |

## Left out

- Redis, SQLAlchemy, HTTP, git, Docker and Telegram transports: input and output only.
- JSON, UUID generation and SHA-256: replaced by records, fresh ids and parameters.
- Metric counters, heartbeats, worker registration, logging, health routes and settings: bookkeeping.
- The dedupe key's lifetime: a key may expire at any step.
- `TaskApplicationService.retry_task` and `decide`: durable changes without a message; `SetDurable` covers their effect on the task row, nothing is said about them.
- Evidence rows, attempt rows and their numbering: append-only records no step reads back.
- `CancellationService._local_signals`: a running handler may be interrupted at any moment, signalled or not.
- The legacy `TaskQueue.consume`, `LeasedWorker` and `worker_loop`: they acknowledge without a durable record.
- asyncio scheduling and timeouts: interleavings, crashes, interruptions and `TimedOut` stand for them. An `asyncio.to_thread` call that keeps running after its await was cancelled is not modelled.
- WorkerRuntimes.WorkerRuntime.Execute: other actors do not move between its calls; `DeliveryProtocol` interleaves them.
- QueueClients.DeadLetterQueue.Replay: nothing moves between its read and its script; `DeadLetterReplay` interleaves them.
- QueueClients.DeadLetterQueue.ApproveReplay: nothing moves between its read and its write; `DeadLetterReplay` interleaves them.
- Fencing.RecoveryIsAtomic: the durable state stays the earlier read on both sides; `Fencing.DurableReadMattersIff` says when that shows.
- LeaseRecoveries.LeaseRecovery.RecoverExpired: other actors do not move during the batch; `DeliveryProtocol` interleaves them.
- FilesystemTools.FilesystemTool.ApplyPatch: files are a flat map, without links, directories or clean-up of temporary names.
- ContextPacking.Build: directory traversal, sensitive and excluded paths and decoding select its input files; term counting is a parameter.
- Policies.PolicyEngine.DecideRequest: the fixed limits and the decision hash are not part of the decision; sorted string sets are sets.
- TelegramSurfaces.TelegramControlSurface.Handle: ends where a command or callback is dispatched.
- The task transition table, circuit breaker, approval store, replay nonces, model router, GitHub client, skill loader and scanner: only easy members, or input and output.
