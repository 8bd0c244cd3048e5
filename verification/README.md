# Webhook automation engine: verified model

The automation engine takes webhooks, turns each into one job per matching workflow, and runs the workflow's steps in order,
with retries, rate limits and dead letters. This project models the parts of it that keep state and must keep promises, and
proves those promises.

Code that changes things step by step is a method or a class here, proved against a function of its inputs or of the old
state; the promises are lemmas about those functions, over every input and every run. Code that several processes run at
once is a state machine with one step for each atomic action.

| module | what it covers |
|---|---|
| `WorkflowEngine`, `StepOutcomes`, `StepResume`, `JobLifecycle`, `JobRuns`, `LostSaves`, `DoubleRequeues` | the step loop with resume, what becomes of each step, the processor's decisions, and whole lives of an execution over retries, postponements, dead letters and requeues |
| `Idempotency`, `DeliveryProtocol` | claim, durable lookup, reseed, publish and release by any number of deliveries |
| `RateLimiter`, `LimiterBounds`, `ForcedEviction`, `TelegramLimits` | the token bucket with reservations, its bounds, what forced eviction does to them, and the two limiters of the Telegram client |
| `Retry`, `TelegramCall` | backoff, the retry loop, and one Bot API call |
| `RowBatching`, `RowReports`, `Recorder`, `RecorderRuns`, `RecorderRoom`, `RecorderRows`, `RecorderFleet` | the write-behind recorder: merging, flushing, requeueing, isolating, and the upsert rule of every column; then any number of workers, each with a recorder of its own, over one table |
| `RoutingIndex`, `WorkflowLoader`, `LoadedRows`, `ReloadCoalescing` | snapshots on the heap, the routing index, the rows a snapshot serves, and coalescing reloads |
| `DeadLetters` | requeueing and discarding dead letters by any number of operators |
| `QuoteScan`, `TemplatePath`, `TemplateExpression`, `Template`, `TemplatePrinting`, `TemplateUnits` | the template compiler, against a grammar of everything it accepts |
| `CodeUnits`, `HtmlText`, `Truncate` | HTML escaping, entity decoding and truncation on UTF-16 code units |
| `Collections`, `Numbers` | options, results, a map that remembers insertion order; minimum and maximum |

## What the proofs found

- At most one publish per endpoint and key needs two things of the environment, and exactly these: a Redis key expires only
  once the delivery behind it is on durable record, and a lookup fails only while there is no record to find. Any other
  expiry or failed lookup lets a key be published twice (`SafetyIsExact`).
- When a publish fails and its release fails as well, every later delivery of the key is answered as a duplicate of an event
  that was never published, until the key expires, and only then (`RetryWorksIffReleased`, `RefusedUntilExpiry`).
- A recognised duplicate whose reseed fails leaves its own id in Redis: until that claim expires, later duplicates are answered with
  the id of a delivery that was never published (`FailedReseedNamesNobody`); after a reseed they are told the published one
  (`ReseededClaimNamesTheRecord`).
- The two promises in the header of the requeue script each have one flaw. A dead letter is put back as pending when noting the
  id of its already queued job fails; it can then be queued a second time, or discarded while its job runs. And a dead letter
  whose enqueue failed stays requeued for good, out of the queue and out of every operator's reach, when putting it back fails
  too. No other failure costs either promise (`EachPromiseHasOneFlaw`, `FailedEnqueueIsMadeGoodIffReverted`).
- The two jobs of a dead letter that was queued twice act in the same steps, unless nothing was left to do
  (`SecondRequeueIsExact`).
- What one worker, or several that hand an execution over with everything written, record of an execution is stored as if written
  update by update, but for three cases: `attempts` after an attempt number went down (a requeued dead letter counts from one
  again), `job_id` when it changed, and `error` after a trailing RUNNING update that follows a failure
  (`RecorderFleet.StoredWorkerRow`, `WorkerRowsDoNotDependOnBatching`).
- Workers do not wait for each other's flushes. If one records an update while another still holds older ones, the later write
  wins: an execution that succeeded can stay RETRYING, with the error of the failed attempt (`LateFlushHidesSuccess`). The row is
  bound to end with the newest update if and only if what the other workers still hold ends with the same value
  (`HandOverIsExact`).
- Requeueing a failed batch trims its logs only while some room is left: with no room at all, `slice(-0)` keeps all of them
  (`LossesOnlyByTrimmingOrIsolation`).
- In the lives of one job, requeued or not, a finished step can act again if and only if a plain retry follows a delivery whose
  last save failed (`SaveLandsIsExact`, `SavedIffLastSaveLanded`). A rate-limit postponement or a dead letter repairs the loss.
- Forcing out a busy bucket refills it, so that a key can exceed its rate: by then its requests no longer stand a token apart
  (`SpacingIffSpared`). With one key more than the cap taking turns, every request is admitted at once, whatever the rate and the
  cap (`ForcedEvictionExceedsTheRate`). The bucket forced out is the oldest one, and only a new key that finds all places taken and
  none of them idle forces it out (`ForcedOutIff`).
- A load on demand that resumes after a reload publishes the row it read before: events are then routed to the version it read,
  older or not, until the next reload (`LateLoadIsServed`).
- `decodeEntities` leaves an unknown named entity as it is, except `&toString;` and `&valueOf;`: its table is a plain object, and
  the text of the inherited function replaces the entity (`UnknownNameStaysIff`, `ToStringIsDecoded`).
- Text in front of an expression can be written in a template if and only if it ends neither in a backslash nor in a single
  brace; an odd run of three braces or more can be written, one brace first and the others escaped in pairs
  (`CompileUndoesPrint`, `EveryTemplateIsWellFormed`).

## Model

| member | source | states |
|---|---|---|
| `WorkflowEngine.Execute` | automation-engine/src/workflows/workflow-engine.ts:61-197 | the step loop gives the records, the error, the resume state in memory and on the job, and the successful actions of the recursive run |
| `StepOutcomes.EveryStepIsDecidedRight` | automation-engine/src/workflows/workflow-engine.ts:73-192 | in every run, from the records alone: a step is resumed if its output is known, skipped if and only if its `runIf` is falsy, done if and only if nothing goes wrong, and otherwise failed with the first error; the run ends with its first failure, its actions are those of the steps that succeeded, each with the configuration rendered from what came before, and what is kept in memory and on the job is what they gave |
| `StepResume.ResumeContinues` | automation-engine/src/workflows/workflow-engine.ts:73-192 | an attempt that starts with the first n actions of the uninterrupted run saved takes exactly the next ones, all of them if it completes, and otherwise keeps exactly what it took |
| `StepResume.CalmRunIsIdeal` | automation-engine/src/workflows/workflow-engine.ts:73-192 | the reference run is the engine itself, started fresh in a world where nothing fails |
| `StepResume.CompletedGrows` | automation-engine/src/workers/automation.worker.ts:178-183 | a run forgets nothing it was given and adds only the outputs of its own actions |
| `StepResume.SavedIffLastSaveLanded` | automation-engine/src/workflows/workflow-engine.ts:179-191 | everything a run finished is on the job if and only if the save of the last step it had to save landed |
| `JobLifecycle.Processor.Process` | automation-engine/src/workers/automation.worker.ts:75-290 | one delivery decides success, postponement, retry or dead letter, records the statuses and dead letter, and leaves on the job what the next delivery sees |
| `JobLifecycle.EndingIsDecidedRight` | automation-engine/src/workers/automation.worker.ts:241-287 | every delivery ends in exactly one way: malformed, succeeded, postponed if and only if it met a rate limit with a token and time left, buried for good if the error is not retryable, buried if no attempt is left, or tried again; with the statuses and dead letters of that ending |
| `JobLifecycle.ResumeIsKeptRight` | automation-engine/src/workers/automation.worker.ts:178-252 | a postponement and a dead letter keep everything the run finished, any other delivery what its saves kept; nothing else on the job changes |
| `JobRuns.PostponementSpread` | automation-engine/src/workers/automation.worker.ts:49-53 | a rate-limit postponement waits Retry-After, or a second without one, but no less than ten milliseconds, plus at most that wait again held between 100 and 1,000 milliseconds, up to rounding |
| `JobRuns.DeliveryProgress` | automation-engine/src/workers/automation.worker.ts:241-287 | a delivery that leaves the job queued used up an attempt or ten milliseconds of the deferral budget and recorded RUNNING RETRYING; any other ends it with one success or one dead letter |
| `JobRuns.DeadLetteredIffStopped` | automation-engine/src/workers/automation.worker.ts:256-277 | the processor writes a dead letter exactly when the queue, deciding from its own counters, stops retrying |
| `JobRuns.WorkIsBounded` | automation-engine/src/workers/automation.worker.ts:77-78 | attempts and postponements of any waiting job are bounded by what is left of both budgets |
| `JobRuns.CountersTell` | automation-engine/src/workers/automation.worker.ts:241-250 | a job that is still queued has been delivered as often as its attempts and its deferrals say together, and the tally of the other bounds counts each delivery once |
| `JobRuns.EveryJobStops` | automation-engine/src/workers/automation.worker.ts:241-287 | at most maxAttempts counted deliveries and ceil(rateLimitMaxDeferMs / 10) postponements, then exactly one ending; statuses form (RUNNING RETRYING)* RUNNING SUCCEEDED or DEAD_LETTERED |
| `JobRuns.LifeFollows` | automation-engine/src/scripts/requeue-dead-letters.ts:80-92 | over any retries, postponements, dead letters and requeues the actions move along the uninterrupted run and the resume state is exactly the part taken |
| `JobRuns.NoStepActsTwice` | automation-engine/src/workflows/workflow-engine.ts:94-101 | with last saves that land before plain retries and each dead letter queued once, no step that finished acts again, across jobs as well |
| `JobRuns.ExecutionRefinesUninterruptedRun` | automation-engine/src/workers/automation.worker.ts:142-287 | the successful actions (key, rendered config, output) are a prefix of one uninterrupted run with the same outputs, and all of it once the execution succeeds |
| `LostSaves.LossRepeats` | automation-engine/src/workflows/workflow-engine.ts:94-191 | an attempt that leaves less on the job than it finished acted in a step that acts again when it is run again from there |
| `LostSaves.SaveLandsIsExact` | automation-engine/src/workers/automation.worker.ts:178-183 | a delivery keeps every later life with landing saves to one action per step if and only if no plain retry follows it or its last save landed |
| `LostSaves.LostSaveRepeats` | automation-engine/src/workflows/workflow-engine.ts:179-191 | a concrete workflow whose first save fails and whose first step acts twice |
| `DoubleRequeues.SecondRequeueIsExact` | automation-engine/src/scripts/requeue-dead-letters.ts:91-97 | once a dead letter has been requeued and put back all the same, no step acts twice in any continuation if and only if the job had nothing left to do |
| `DoubleRequeues.RequeuedOnceNeverRepeats` | automation-engine/src/scripts/requeue-dead-letters.ts:6-8 | where every dead letter is requeued once, no finished step acts again, however its jobs fare |
| `Retry.CappedDoubles` | automation-engine/src/lib/retry.ts:15-18 | the delay before jitter doubles with each retry up to the cap, at most thirty times |
| `Retry.CappedStarts` | automation-engine/src/lib/retry.ts:15-18 | the first retry waits the base delay before jitter, or the cap if that is less |
| `Retry.RetryAfterIsHonoured` | automation-engine/src/lib/retry.ts:27-31 | a positive Retry-After is waited for exactly; otherwise the delay is the jittered backoff |
| `Retry.BackoffSpread` | automation-engine/src/lib/retry.ts:15-20 | jittered backoff lies between half of the capped exponential delay and all of it, up to rounding, and is never negative |
| `Retry.DelayIsNonNegative` | automation-engine/src/lib/retry.ts:27-31 | a retry delay is never negative, with or without Retry-After |
| `Retry.RetryAsync` | automation-engine/src/lib/retry.ts:68-81 | the counting loop ends with the outcome and the attempt number of the recursive retry rule |
| `Retry.RetriesAreJustified` | automation-engine/src/lib/retry.ts:68-81 | at most retries + 1 attempts; every one but the last failed retryably; the result is the last outcome, or the reason that aborted the wait after it |
| `Idempotency.KeysDoNotCollide` | automation-engine/src/gateway/idempotency.ts:45-47 | the Redis key determines endpoint and idempotency key, for scopes without a colon |
| `Idempotency.MemoryIdempotencyStore.Claim` | automation-engine/src/gateway/idempotency.ts:121-128 | on the claims that have not expired the in-process store acts as the claim script; a claim lasts exactly its ttl |
| `Idempotency.MemoryIdempotencyStore.Release` | automation-engine/src/gateway/idempotency.ts:130-133 | and as the compare-and-delete script |
| `Idempotency.MemoryIdempotencyStore.Reseed` | automation-engine/src/gateway/idempotency.ts:135-137 | the original event id replaces the fresh claim, for a ttl from then on |
| `Idempotency.DurableIdempotencyStore.Claim` | automation-engine/src/gateway/idempotency.ts:94-110 | claim, lookup and reseed in sequence leave the store and the answer of the durable claim; a fast claim that fails is the caller's error, a failed or empty lookup accepts the event |
| `Idempotency.NextClaimIsToldTheRecord` | automation-engine/src/gateway/idempotency.ts:107-109 | once a duplicate was recognised, the next claim of its key is told the event on record if and only if the reseed did not fail |
| `DeliveryProtocol.ClaimStepsAreTheClaim` | automation-engine/src/gateway/idempotency.ts:94-110 | the atomic claim, lookup and reseed steps of the protocol, run without interruption, do exactly what the store's claim does |
| `DeliveryProtocol.SafeStepKeepsInv` | automation-engine/src/gateway/webhook.ts:251-279 | every safe step of any delivery, of Redis expiry and of the worker's record keeps the invariant on claims, records and publishes |
| `DeliveryProtocol.StagesAreInOrder` | automation-engine/src/gateway/webhook.ts:251-279 | every step takes its delivery, and no other, from its stage to one that may follow it, never changes its key, and publishes exactly the event of a delivery it accepts |
| `DeliveryProtocol.RecordedEventIsRecognised` | automation-engine/src/gateway/idempotency.ts:78-86 | once a published event is on durable record, every later lookup of its key that does not fail recognises a published event, whatever expires |
| `DeliveryProtocol.AtMostOnePublish` | automation-engine/src/gateway/webhook.ts:253-279 | in every interleaving of any number of deliveries each endpoint and key is published at most once |
| `DeliveryProtocol.EarlyExpiryPublishesTwice` | automation-engine/src/gateway/idempotency.ts:82-86 | a claim that expires before its delivery is on record can always be continued to a second publish |
| `DeliveryProtocol.FailedLookupPublishesTwice` | automation-engine/src/gateway/idempotency.ts:97-107 | so can a lookup that fails although the key is on record |
| `DeliveryProtocol.SafetyIsExact` | automation-engine/src/gateway/idempotency.ts:78-110 | from any reachable state a step keeps all later safe runs to one publish per key if and only if it is safe |
| `DeliveryProtocol.LateReleaseSparesOthers` | automation-engine/src/gateway/idempotency.ts:23-27 | however late other deliveries release, a claim stays until it expires, is reseeded, or its own delivery releases it |
| `DeliveryProtocol.RetryAfterReleaseIsAccepted` | automation-engine/src/gateway/webhook.ts:274-279 | after a failed publish and its release the sender's next delivery can be published |
| `DeliveryProtocol.RetryWorksIffReleased` | automation-engine/src/gateway/webhook.ts:274-279 | after a failed publish, whatever others do meanwhile, the key can be published before its claim expires if and only if the release does not fail too |
| `DeliveryProtocol.RefusedUntilExpiry` | automation-engine/src/gateway/idempotency.ts:59-65 | after a failed publish and a failed release, in every run without the expiry of the claim, the key is not published and every new delivery of it waits, fails or is a duplicate of the event nobody published, as is every claim of it still to come; after the expiry the next one can be published |
| `DeliveryProtocol.DuplicatesNameAnEarlierDelivery` | automation-engine/src/gateway/webhook.ts:253-259 | an answer `duplicate` names another delivery of the same endpoint and key |
| `DeliveryProtocol.ReseededClaimNamesTheRecord` | automation-engine/src/gateway/idempotency.ts:67-74 | after a recognised duplicate was reseeded, every later claim of the key, whatever fails meanwhile, is answered with the published event on durable record until the claim expires |
| `DeliveryProtocol.FailedReseedNamesNobody` | automation-engine/src/gateway/idempotency.ts:71-73 | after a reseed that failed, the next duplicate is answered with the id of a delivery that was never published |
| `RateLimiter.TokenBucketLimiter.Create` | automation-engine/src/lib/rate-limiter.ts:32-39 | a rate that is not positive and a burst below one are refused; a limiter starts without buckets, its rate per millisecond |
| `RateLimiter.TokenBucketLimiter.Refilled` | automation-engine/src/lib/rate-limiter.ts:42-51 | a known key is refilled up to the burst, a new one starts full after room was made |
| `RateLimiter.TokenBucketLimiter.Reserve` | automation-engine/src/lib/rate-limiter.ts:41-58 | the buckets and the answer of a reservation: balance may go negative, waits are rounded up, a refusal keeps the refilled balance |
| `RateLimiter.TokenBucketLimiter.Release` | automation-engine/src/lib/rate-limiter.ts:60-64 | one token comes back to a tracked bucket, up to the burst |
| `RateLimiter.TokenBucketLimiter.EvictIdle` | automation-engine/src/lib/rate-limiter.ts:70-79 | the sweep removes exactly the buckets that have filled up, and the oldest key if that freed nothing |
| `RateLimiter.SweepRemovesIdle` | automation-engine/src/lib/rate-limiter.ts:71-74 | after the sweep a key is tracked if and only if it was and its bucket is not full |
| `LimiterBounds.SplitRefill` | automation-engine/src/lib/rate-limiter.ts:49-50 | splitting a refill at any instant changes no later answer |
| `LimiterBounds.WaitIsLeast` | automation-engine/src/lib/rate-limiter.ts:53-57 | a reservation waits the least number of whole milliseconds after which a token is there, and is refused if and only if that is longer than accepted |
| `LimiterBounds.RefusalIsInvisible` | automation-engine/src/lib/rate-limiter.ts:55 | a refused reservation changes no later answer |
| `LimiterBounds.ReleaseUndoes` | automation-engine/src/lib/rate-limiter.ts:60-64 | releasing a reservation before anything else touches the bucket undoes it at any later time |
| `LimiterBounds.ReleaseOnFullBucket` | automation-engine/src/lib/rate-limiter.ts:60-64 | a release on a bucket that has filled up again gives nobody an extra token |
| `LimiterBounds.CappedRefinesUncapped` | automation-engine/src/lib/rate-limiter.ts:41-79 | while only the idle sweep frees the key's bucket, every answer equals that of a limiter that never evicts |
| `LimiterBounds.EvictionInvisibleIffSpared` | automation-engine/src/lib/rate-limiter.ts:75-78 | making room is invisible to a key if and only if it does not drop a bucket that is still refilling |
| `LimiterBounds.ForcedOutIff` | automation-engine/src/lib/rate-limiter.ts:70-79 | at the cap a busy bucket is forced out if and only if the reserving key is new, no bucket is idle, and the bucket is the oldest |
| `LimiterBounds.KeysStayCapped` | automation-engine/src/lib/rate-limiter.ts:44-47 | over every run the number of tracked keys never exceeds the cap |
| `ForcedEviction.SpacingIffSpared` | automation-engine/src/lib/rate-limiter.ts:75-78 | a reservation keeps the admitted requests of a key a token apart in every later run that spares the key if and only if it spares the key itself |
| `ForcedEviction.ForcedEvictionExceedsTheRate` | automation-engine/src/lib/rate-limiter.ts:41-79 | for any rate, burst and cap: with one key more than the cap taking turns at one instant, as many requests of a key start in a window of no width as there are rounds |
| `LimiterBounds.SendsAreSpaced` | automation-engine/src/lib/rate-limiter.ts:53-57 | admitted requests of a key stand at least one token apart in the token stream and start on time up to one millisecond |
| `LimiterBounds.RateBound` | automation-engine/src/lib/rate-limiter.ts:41-64 | at most burst + rate * (W + 1) admitted requests of a key start in any window of W milliseconds, whatever other keys do |
| `TelegramLimits.ClientLimits.AcquireRateLimit` | automation-engine/src/integrations/telegram/telegram-driver.ts:275-291 | both reservations, each at its own clock reading, the release of the bot's token on a chat refusal, and the longer of the two waits |
| `TelegramLimits.WaitIsDecidedRight` | automation-engine/src/integrations/telegram/telegram-driver.ts:275-291 | the bot's least wait decides first, then the chat's, each refused if and only if it is longer than maxWait; a request that passes waits for the longer of the two, not at all if both buckets hold a token |
| `TelegramLimits.WaitIsNeeded` | automation-engine/src/integrations/telegram/telegram-driver.ts:280-290 | a passing request is on time up to one millisecond in the bot's stream or in the chat's: a millisecond less would start before its position there |
| `TelegramLimits.RefusalSparesBot` | automation-engine/src/integrations/telegram/telegram-driver.ts:278-287 | a request either limiter refuses leaves the bot limiter answering as if it had never been made |
| `TelegramLimits.RefusalSparesChat` | automation-engine/src/integrations/telegram/telegram-driver.ts:284-287 | and the chat limiter too |
| `TelegramLimits.RefusalKeepsBotAnswers` | automation-engine/src/integrations/telegram/telegram-driver.ts:284-287 | after a refusal, by the chat limiter or its own, the bot limiter gives all later traffic the same answers as without it |
| `TelegramLimits.PassesAreSpaced` | automation-engine/src/integrations/telegram/telegram-driver.ts:280-290 | first attempts that pass are spaced in the bot's and in the chat's token stream although each waits for the larger delay |
| `TelegramLimits.ComposedRateBound` | automation-engine/src/integrations/telegram/telegram-driver.ts:275-291 | per bot and per chat, at most burst + rate * (W + maxWaitMs) first attempts start in any window of W milliseconds, plus what comes in between the two clock readings of a request |
| `TelegramCall.TelegramClient.AcquireAndWait` | automation-engine/src/integrations/telegram/telegram-driver.ts:275-291 | tokens, then the wait: what is thrown instead of the request, if anything |
| `TelegramCall.TelegramClient.CallOnce` | automation-engine/src/integrations/telegram/telegram-driver.ts:293-318 | only the first attempt takes tokens; at most one request is sent |
| `TelegramCall.TelegramClient.CallWithRetries` | automation-engine/src/integrations/telegram/telegram-driver.ts:257-266 | outcome, limiter state, requests and acquisitions of the inline retry loop |
| `TelegramCall.TelegramClient.Call` | automation-engine/src/integrations/telegram/telegram-driver.ts:245-255 | a migrated chat is called once more under its new id, with tokens of its own |
| `TelegramCall.CallIsBounded` | automation-engine/src/integrations/telegram/telegram-driver.ts:245-266 | one call makes at most 2 * (inlineRetries + 1) HTTP requests and takes tokens once, or twice exactly if the chat moved |
| `TelegramCall.RepeatsAreSafe` | automation-engine/src/integrations/telegram/telegram-driver.ts:268-273 | every repeat follows a retryable error that is safe to retry inline; the call ends with the last outcome or the reason that aborted a wait |
| `TelegramCall.RepeatsAreDecidedRight` | automation-engine/src/integrations/telegram/telegram-driver.ts:268-273 | a request is sent again if and only if attempts are left, the wait is not aborted, and its error is retryable and none of: a network or timeout error outside the connect phase, an API error below 500, a Retry-After that is missing or longer than maxWait, an error of another kind |
| `TelegramCall.RefusalIsNotRepeated` | automation-engine/src/integrations/telegram/telegram-driver.ts:279-294 | a refusal by the client's own limiters ends the loop without a request: no request is made without both tokens |
| `TelegramCall.FirstRequestIsSentIff` | automation-engine/src/integrations/telegram/telegram-driver.ts:290-294 | with both tokens the first request is sent if and only if there is nothing to wait for or the wait is not aborted |
| `TelegramCall.MovedChatIsFollowed` | automation-engine/src/integrations/telegram/telegram-driver.ts:245-255 | a second loop, with tokens of its own, runs under the new chat id if and only if the first ended by naming one that was not the id asked for |
| `TelegramCall.InlineDelaysAreBounded` | automation-engine/src/integrations/telegram/telegram-driver.ts:257-273 | an inline wait lasts at most the larger of maxWaitMs and the backoff cap |
| `RowBatching.MergeUpdate` | automation-engine/src/database/execution-recorder.ts:70-76 | the loop leaves the properties the newer update sets over those of the older |
| `RowBatching.MergeIsAssociative` | automation-engine/src/database/execution-recorder.ts:70-76 | merging is associative in every column |
| `RowBatching.CutsAgreeIffSteady` | automation-engine/src/database/execution-recorder.ts:279-291 | for each of the five column rules, every cut into batches stores the same value as single writes if and only if the updates are steady in that column |
| `RowBatching.ColumnAgreesIffSteady` | automation-engine/src/database/execution-recorder.ts:259-292 | the same for whole rows, any starting row and any grouping of updates |
| `RowBatching.WorkerRowsDoNotDependOnBatching` | automation-engine/src/workers/automation.worker.ts:116-132 | for the updates a worker records, a column is independent of batching if and only if it is none of three named exceptions |
| `RowReports.RowTellsTheReports` | automation-engine/src/database/execution-recorder.ts:279-291 | written report by report, a row has the execution's own ids and times, the job id of its first report, the payload if any attempt started with one, the status and error of its last report, the highest attempt, and the last reading of each time and duration |
| `Recorder.BufferedExecutionRecorder.RecordExecution` | automation-engine/src/database/execution-recorder.ts:113-121 | a buffered execution is merged even when full or closed; a new one is refused then, and counted |
| `Recorder.BufferedExecutionRecorder.AppendLog` | automation-engine/src/database/execution-recorder.ts:123-126 | a log is appended, or refused and counted |
| `Recorder.BufferedExecutionRecorder.RecordIdempotencyKey` | automation-engine/src/database/execution-recorder.ts:128-131 | a key record replaces its predecessor, or is refused and counted |
| `Recorder.BufferedExecutionRecorder.Flush` | automation-engine/src/database/execution-recorder.ts:133-149 | a flush under way is joined; otherwise the whole buffer becomes the batch in flight |
| `Recorder.BufferedExecutionRecorder.Requeue` | automation-engine/src/database/execution-recorder.ts:189-202 | the failed batch goes back under newer updates, its logs in front and trimmed to the room, its keys unless newer ones exist |
| `Recorder.BufferedExecutionRecorder.Isolate` | automation-engine/src/database/execution-recorder.ts:166-186 | rows, then keys and orphan logs are written one by one; failures are counted |
| `Recorder.PutBackGet` | automation-engine/src/database/execution-recorder.ts:190-193 | after a requeue every execution of the batch holds its batch update merged under what came after it |
| `Recorder.PutBackKeysGet` | automation-engine/src/database/execution-recorder.ts:198-201 | after a requeue every key of the batch is buffered again, unless a newer record has taken its place |
| `RecorderRoom.TurnedAwayIffFull` | automation-engine/src/database/execution-recorder.ts:113-131 | in any run without a close, a log, a key or a new execution is turned away, and nothing else happens, if and only if executions, logs and keys together number at least the maximum; otherwise it is taken on |
| `RecorderRoom.BufferTurnsAwayIffFull` | automation-engine/src/database/execution-recorder.ts:113-131 | so does the buffer alone, open or closed; an update of a buffered execution is always merged |
| `RecorderRoom.ClosedTurnsAllAway` | automation-engine/src/database/execution-recorder.ts:113-131 | once closed, a recorder takes on no log, key or new execution in any later run |
| `RecorderRoom.NothingIsTurnedAway` | automation-engine/src/database/execution-recorder.ts:113-202 | a run that records at most the maximum turns nothing away: all logs and updates are accepted in order, and no log is lost unless the database rejects a batch |
| `RecorderRuns.IsolationAttemptsEachRecordOnce` | automation-engine/src/database/execution-recorder.ts:168-186 | the isolation pass attempts every execution, key and log of the batch exactly once |
| `RecorderRuns.LogsAreConserved` | automation-engine/src/database/execution-recorder.ts:123-202 | for one recorder: at every moment each accepted log is in exactly one of buffer, flight, table and losses, and an execution's logs keep their order |
| `RecorderRuns.LossesOnlyByTrimmingOrIsolation` | automation-engine/src/database/execution-recorder.ts:195-198 | logs are lost exactly when a requeue has some room but not enough, or an isolated write that carries logs fails |
| `RecorderRows.StoredRowIsTheHistory` | automation-engine/src/database/execution-recorder.ts:133-202 | for a table that one recorder writes: over any run of flushes, failures and requeues, a steady column of a drained row equals writing every accepted update on its own |
| `RecorderRows.StoredWorkerRow` | automation-engine/src/workers/automation.worker.ts:116-132 | so it does, with one recorder, for worker updates in every column but the named exceptions |
| `RecorderFleet.SharedRowIsWhatWasWritten` | automation-engine/src/database/execution-recorder.ts:133-202 | any number of recorders over one table: a row is always the upserts of the groups they wrote, in the order of their writes, and each recorder's part of them is what it wrote |
| `RecorderFleet.SharedLogsAreConserved` | automation-engine/src/database/execution-recorder.ts:123-202 | each log any recorder accepted is in exactly one of its buffer, its flight, the shared table and its losses, and an execution's logs of one recorder keep their order |
| `RecorderFleet.StoredRowIsTheHistory` | automation-engine/src/worker.ts:63-69 | however many recorders: if an update is recorded only once every other recorder has written what it had of the execution, a steady column of a settled row equals writing every update on its own |
| `RecorderFleet.StoredWorkerRow` | automation-engine/src/workers/automation.worker.ts:116-132 | so it does for worker updates in every column but the named exceptions |
| `RecorderFleet.HandOverIsExact` | automation-engine/src/database/execution-recorder.ts:279-291 | after a recorder records an update that decides a column (the status, say), every settled run without further updates stores it if and only if what each other recorder still holds ends with the same value |
| `RecorderFleet.LateFlushHidesSuccess` | automation-engine/src/workers/automation.worker.ts:278-287 | two workers, RETRYING and then SUCCEEDED: a run after which all is written and the row says RETRYING, with the error of the failed attempt |
| `RoutingIndex.AddedAgrees` | automation-engine/src/workflows/workflow-loader.ts:352-371 | adding a workflow, new or with another endpoint, trigger or version, keeps index and workflows in agreement |
| `RoutingIndex.MatchesIsTheFilter` | automation-engine/src/workflows/workflow-loader.ts:254-262 | a lookup returns exactly the workflows of the endpoint whose trigger is the event type or `*`, each once, exact ones first |
| `WorkflowLoader.Snapshot.Add` | automation-engine/src/workflows/workflow-loader.ts:352-371 | splicing the previous version out and pushing the new one in place has the effect of the index function |
| `WorkflowLoader.Snapshot.Clone` | automation-engine/src/workflows/workflow-loader.ts:344-350 | the copy has the same contents, and no map, table or list of it is one of the original's |
| `WorkflowLoader.Loader.SwapIn` | automation-engine/src/workflows/workflow-loader.ts:194-207 | one reload pass publishes a fresh snapshot of the loaded rows and clears the negative cache |
| `LoadedRows.ReloadServesTheRows` | automation-engine/src/workflows/workflow-loader.ts:194-206 | after a reload a slug is served if and only if a usable row has it, a workflow if and only if a usable row of one of the served endpoints has it, the last such row each time; events are routed to exactly those whose trigger is their type or `*` |
| `WorkflowLoader.Loader.CheckEndpoint` | automation-engine/src/workflows/workflow-loader.ts:227-234 | hit, negative cache and budget, before anything is loaded; nothing changes |
| `LoadedRows.MissIsRemembered` | automation-engine/src/workflows/workflow-loader.ts:230-241 | a slug that was not found is asked for again from its deadline on and not before, as the budget allows; the cache never holds more than 10,001 slugs |
| `LoadedRows.LookupIsAnswered` | automation-engine/src/workflows/workflow-loader.ts:228-234 | a served slug is answered at once; one neither served nor remembered is loaded if and only if there is budget |
| `WorkflowLoader.Loader.FinishEndpoint` | automation-engine/src/workflows/workflow-loader.ts:236-252 | what was loaded is published copy-on-write over whatever snapshot is current by then; a miss is remembered with its deadline, in a cache that is emptied first when it holds more than 10,000 slugs |
| `LoadedRows.FinishServesTheRows` | automation-engine/src/workflows/workflow-loader.ts:237-250 | an endpoint loaded on demand is served with the last usable row of each of its workflows and all else stays; an unknown or unusable one changes nothing |
| `WorkflowLoader.Loader.ResolveEndpoint` | automation-engine/src/workflows/workflow-loader.ts:227-252 | both in sequence: the answer, the snapshot and the negative cache of an uninterrupted lookup |
| `WorkflowLoader.Loader.FinishWorkflow` | automation-engine/src/workflows/workflow-loader.ts:267-275 | an active row that compiles is published copy-on-write over the current snapshot; one that does not is an error; any other row changes nothing |
| `LoadedRows.FinishServesTheWorkflow` | automation-engine/src/workflows/workflow-loader.ts:267-274 | a workflow loaded on demand is routed to from then on if and only if its row is active and compiles; one that does not compile is an error, and any other row changes nothing |
| `WorkflowLoader.Loader.ResolveWorkflow` | automation-engine/src/workflows/workflow-loader.ts:264-275 | a recent enough cached workflow, or the loaded one, when nothing interrupts the lookup |
| `WorkflowLoader.LateLoadIsServed` | automation-engine/src/workflows/workflow-loader.ts:267-274 | a load that resumes after others routes events to the workflow it read and to no other version; a request for the version served before loads again if and only if that was newer |
| `WorkflowLoader.Loader.WorkflowsFor` | automation-engine/src/workflows/workflow-loader.ts:254-262 | the matching workflows, in the snapshot's own list where only the exact or only the wildcard list exists, in a new array where both do |
| `WorkflowLoader.Loader.Perform` | automation-engine/src/workflows/workflow-loader.ts:184-275 | any sequence of reloads and on-demand loads, each finished on whatever snapshot is current by then, keeps the index in agreement and changes no published snapshot, map or list |
| `WorkflowLoader.Loader.LookUpThenLoad` | automation-engine/src/workflows/workflow-loader.ts:243-275 | an array handed out before stays as it was whatever is loaded afterwards |
| `WorkflowLoader.ReloadServesLoadedEndpoints` | automation-engine/src/workflows/workflow-loader.ts:199-204 | after a reload only workflows of endpoints that were loaded are served |
| `ReloadCoalescing.Reloader.Reload` | automation-engine/src/workflows/workflow-loader.ts:184-192 | a call during a pass only queues one more; otherwise a load starts at once |
| `ReloadCoalescing.Reloader.Continue` | automation-engine/src/workflows/workflow-loader.ts:193-219 | after a load: again if queued, otherwise done; a failure ends the run |
| `ReloadCoalescing.ResolvedReloadsAreFresh` | automation-engine/src/workflows/workflow-loader.ts:184-221 | calls are answered once and in order, and when a promise resolves the load last swapped in began no earlier than the call |
| `ReloadCoalescing.OneFurtherLoad` | automation-engine/src/workflows/workflow-loader.ts:185-191 | any number of calls during one load cost exactly one further load |
| `ReloadCoalescing.OneLoadWhenIdle` | automation-engine/src/workflows/workflow-loader.ts:184-219 | a call that finds no pass under way, also after a failed one, costs one load, which answers it if it succeeds |
| `ReloadCoalescing.LoadsPerCall` | automation-engine/src/workflows/workflow-loader.ts:184-221 | no run starts more loads than there were calls |
| `DeadLetters.StepKeepsInv` | automation-engine/src/scripts/requeue-dead-letters.ts:80-96 | every step of any operator but a lost note keeps each row accounted for |
| `DeadLetters.RowsTellTheTruth` | automation-engine/src/scripts/requeue-dead-letters.ts:67-99 | in every run, whatever fails, a row carries a requeue time if and only if it is requeued, and a job id only if that very job is queued |
| `DeadLetters.NewLetterIsEnqueueable` | automation-engine/src/workers/automation.worker.ts:256-269 | a new dead letter is pending, with its payload marked as a job or not, and touches neither queue nor operators |
| `DeadLetters.RequeuedAtMostOnce` | automation-engine/src/scripts/requeue-dead-letters.ts:67-99 | each row is enqueued at most once and never both enqueued and discarded; a requeued row that is not in the queue is in the hands of an operator who still runs, or was left by one whose put-back failed |
| `DeadLetters.LostForGoodIffStranded` | automation-engine/src/scripts/requeue-dead-letters.ts:96-97 | a row stays requeued and out of the queue in every run, whatever fails, if and only if nobody who still runs holds it |
| `DeadLetters.EnqueueableIff` | automation-engine/src/scripts/requeue-dead-letters.ts:67-99 | a row can still be queued if and only if it is a pending job or in the hands of an operator who still runs |
| `DeadLetters.FailedEnqueueIsMadeGoodIffReverted` | automation-engine/src/scripts/requeue-dead-letters.ts:94-98 | after a failed enqueue, whatever others did in between, the row is pending and can be queued again if and only if the put-back does not fail; otherwise it is lost for good |
| `DeadLetters.EachPromiseHasOneFlaw` | automation-engine/src/scripts/requeue-dead-letters.ts:9-13 | a step costs the promises of queueing once and not discarding as well if and only if it is a failure to note the job id, and the promise of putting back if and only if it is a failure to put back |
| `DeadLetters.RequeueScript.Requeue` | automation-engine/src/scripts/requeue-dead-letters.ts:74-99 | the loop leaves the rows, the queue and the count of the recursive pass |
| `DeadLetters.LoopIsARun` | automation-engine/src/scripts/requeue-dead-letters.ts:74-99 | what the loop does is one of the runs of the protocol |
| `DeadLetters.ReportedCount` | automation-engine/src/scripts/requeue-dead-letters.ts:93-104 | the count reported is the number of jobs queued less exactly the number of those whose note was lost |
| `QuoteScan.FindClose` | automation-engine/src/mapper/template-mapper.ts:256-270 | the place of the first `}}` outside quotes, or -1 |
| `QuoteScan.SplitTopLevel` | automation-engine/src/mapper/template-mapper.ts:273-291 | the pieces between separators outside quotes |
| `QuoteScan.Unquote` | automation-engine/src/mapper/template-mapper.ts:293-309 | the value of a string literal, or an error |
| `QuoteScan.LiteralIsCalm` | automation-engine/src/mapper/template-mapper.ts:256-309 | a string literal, whatever it quotes, is passed over by every scanner, and unquoting it gives its value |
| `QuoteScan.WriteValues` | automation-engine/src/mapper/template-mapper.ts:293-309 | every text can be quoted with either quote so that unquoting gives it back |
| `TemplatePath.FindStringEnd` | automation-engine/src/mapper/template-mapper.ts:350-351 | the closing quote of a quoted key |
| `TemplatePath.NextSegment` | automation-engine/src/mapper/template-mapper.ts:341-365 | the dotted, quoted or indexed segment that comes next, or its error |
| `TemplatePath.ParsePath` | automation-engine/src/mapper/template-mapper.ts:324-375 | the segments of a path, or the first error: unknown root, bad segment, depth over 32, forbidden name |
| `TemplatePath.PathReads` | automation-engine/src/mapper/template-mapper.ts:324-375 | every legal path, in any spelling, is read back to its segments |
| `TemplatePath.NamesAreDecided` | automation-engine/src/mapper/template-mapper.ts:332-373 | for any two identifiers, `root.name` is refused as an unknown root unless the root is `trigger`, `steps`, `workflow` or `execution`, then refused if the name is `__proto__`, `prototype` or `constructor`, and read otherwise |
| `TemplatePath.IdentCharacters` | automation-engine/src/mapper/template-mapper.ts:322 | an identifier is made of the 26 letters in both cases, the ten digits, `_`, `$` and `-`, and nothing else |
| `TemplatePath.PathsKeepToTheirNames` | automation-engine/src/mapper/template-mapper.ts:332-373 | whatever path is read, in any spelling, has one of the four roots and none of the three names |
| `TemplateExpression.ArgReads` | automation-engine/src/mapper/template-mapper.ts:311-320 | every written argument, with any white space around it, is read back to its value |
| `TemplateExpression.DecimalsShift` | automation-engine/src/mapper/template-mapper.ts:315 | a numeric argument has the value of its decimal digits: a digit after the point counts a tenth of what it would before it |
| `TemplateExpression.OnlyDecimalsAreNumbers` | automation-engine/src/mapper/template-mapper.ts:315 | nothing but digits, with digits after a point if there is one, is an unsigned number |
| `TemplateExpression.ParseFilter` | automation-engine/src/mapper/template-mapper.ts:384-397 | a filter's name and arguments, with its arity and the checks of `truncate` |
| `TemplateExpression.CallIsDecidedRight` | automation-engine/src/mapper/template-mapper.ts:392-396 | a call is refused for the number of its arguments, then, if it truncates, unless the first is a positive integer and the second, if any, a string, and accepted otherwise |
| `TemplateExpression.ParseExpression` | automation-engine/src/mapper/template-mapper.ts:377-401 | source, path, filters and whether `default` is among them, or the first error |
| `TemplateExpression.FilterReads` | automation-engine/src/mapper/template-mapper.ts:385-398 | every written filter is read back, whatever its arguments quote |
| `TemplateExpression.ExpressionReads` | automation-engine/src/mapper/template-mapper.ts:377-401 | every written expression is read back to its path and filters |
| `Template.CompileTemplate` | automation-engine/src/mapper/template-mapper.ts:403-432 | the loop over openings gives the parts of the character by character reading, and `single` for a lone expression |
| `Template.SingleIsLone` | automation-engine/src/mapper/template-mapper.ts:430-431 | a template keeps the type of its value if and only if it is one expression and nothing else |
| `Template.TextReads` | automation-engine/src/mapper/template-mapper.ts:413-418 | literal text with its braces escaped is gathered back exactly |
| `Template.CompileUndoesPrint` | automation-engine/src/mapper/template-mapper.ts:403-432 | every well-formed template, in any spelling, compiles to the parts it was written from |
| `Template.EveryTemplateIsWellFormed` | automation-engine/src/mapper/template-mapper.ts:408-432 | whatever compiles has no empty or adjacent texts, and no text before an expression that ends in a backslash or a single brace |
| `TemplatePrinting.PrintedPartsCompileBack` | automation-engine/src/mapper/template-mapper.ts:377-432 | any legal list of parts, printed, compiles to the same parts, or is refused as too long |
| `TemplatePrinting.CompiledPartsPrintAndCompileBack` | automation-engine/src/mapper/template-mapper.ts:242-432 | legal parts are exactly what compiles: every compiled template can be printed, and compiles back to the same parts if and only if the print keeps to the length limit |
| `TemplateUnits.AnyUnitsCanBeText` | automation-engine/src/mapper/template-mapper.ts:403-432 | any string of UTF-16 code units, unpaired surrogates included, can be literal text of a template, and is read back from any print within the length limit |
| `TemplateUnits.UnitsAreTold` | automation-engine/src/mapper/template-mapper.ts:403-432 | two templates of code units are the same template of chars if and only if they are equal |
| `TemplateUnits.SurrogatesAreOrdinary` | automation-engine/src/mapper/template-mapper.ts:256-375 | the char that stands for a surrogate is in none of the character classes of the compiler |
| `TemplatePrinting.IntegersAreDecimal` | automation-engine/src/mapper/template-mapper.ts:311-320 | every integer argument has a spelling, so that it is among the parts that can be printed |
| `HtmlText.DecodeUndoesEscape` | automation-engine/src/mapper/template-mapper.ts:116-142 | decoding an escaped text gives the text, for every string of code units |
| `HtmlText.EscapedTextIsSafe` | automation-engine/src/mapper/template-mapper.ts:116-119 | escaped text holds no `<`, `>` or `"`, and every `&` begins one of the four emitted entities |
| `HtmlText.NamedEntityDecodes` | automation-engine/src/mapper/template-mapper.ts:126-141 | a named entity before any text becomes its character, the text of an inherited function, or stays |
| `HtmlText.UnknownNameStaysIff` | automation-engine/src/mapper/template-mapper.ts:132-141 | a name outside the table stays as it is if and only if it is neither `toString` nor `valueOf` |
| `HtmlText.ToStringIsDecoded` | automation-engine/src/mapper/template-mapper.ts:140 | `&toString;` becomes `function toString() { [native code] }` |
| `HtmlText.DecimalReferenceDecodes` | automation-engine/src/mapper/template-mapper.ts:134-139 | a decimal reference becomes its character if and only if it is a valid code point, and stays otherwise |
| `HtmlText.HexReferenceDecodes` | automation-engine/src/mapper/template-mapper.ts:134-139 | the same for hexadecimal references |
| `HtmlText.EveryCharacterCanBeReferred` | automation-engine/src/mapper/template-mapper.ts:134-139 | any number that fits, written in decimal or in hexadecimal of either case, is decoded to the UTF-16 form of its code point, and stays if it is zero, a surrogate, or beyond U+10FFFF |
| `HtmlText.WrongLengthStays` | automation-engine/src/mapper/template-mapper.ts:133 | an ampersand stays if what stands between it and a semicolon is too short or too long for a name or a number |
| `CodeUnits.SplitPoints` | automation-engine/src/mapper/template-mapper.ts:162-166 | the first n code points are a prefix that ends between surrogate pairs |
| `Truncate.TruncateFits` | automation-engine/src/mapper/template-mapper.ts:160-167 | at most `max` code points come out, suffix included |
| `Truncate.TruncateCuts` | automation-engine/src/mapper/template-mapper.ts:160-167 | a text that fits is unchanged; any other is cut between code points and never inside a surrogate pair |
| `Truncate.TruncateKeepsWhatFits` | automation-engine/src/mapper/template-mapper.ts:165-166 | what is kept is exactly the code points that fit, less the white space before a suffix |
| `Truncate.TruncateIsIdempotent` | automation-engine/src/mapper/template-mapper.ts:160-167 | truncating twice is truncating once |

## Left out

- Fastify routes, hooks, backpressure, metrics, logging, configuration, health servers, process entry points and shutdown.
- Redis, BullMQ, PostgreSQL, undici and timers: each call is an atomic step or an oracle; a write commits entirely or not at
  all, a Lua script is one step, a multi-job publish is atomic, and a postponement does not raise the attempt count.
- Worker crashes, stalled-job recovery and lost acknowledgements: the code promises only at-least-once delivery there.
- Sleeping ends exactly when it should, one clock is shared, and `Date.now` and the monotonic clock are that same clock.
- JavaScript numbers are reals here: rounding, NaN and overflow are not modelled. Waits, delays and rounded milliseconds are integers.
- `WorkflowEngine.Execute`: rendering, `runIf` truthiness and the action registry are given functions of the context; record
  timings are not modelled, and step keys are assumed not to be `Object.prototype` member names.
- `JobLifecycle.Processor.Process`: a successful write of job data and of the dead letter; log entries, latencies and the
  idempotency record of the first attempt are not modelled.
- `JobRuns.ExecutionRefinesUninterruptedRun`: for last saves that land before a plain retry, each dead letter queued at most once
  (`RequeuedAtMostOnce`; `SecondRequeueIsExact` has the other case), one workflow version with distinct step keys, and templates
  that do not read `execution.attempt`.
- `JobRuns.NoStepActsTwice`: for each dead letter queued at most once, as above.
- `LostSaves.SaveLandsIsExact`: for each dead letter queued at most once, as above.
- `LimiterBounds.RateBound`: for a clock that does not go back, no forced eviction of the key's bucket, and releases that undo the
  reservation just before them.
- `DeliveryProtocol.AtMostOnePublish`: a delivery without an idempotency key, and an event type that no workflow matches, claim nothing and
  are not part of the protocol; how the key is chosen from headers and body is not modelled.
- `Recorder.BufferedExecutionRecorder.Isolate`: the writes of one isolation pass are one step; entries recorded meanwhile commute with it,
  since the pass touches only the batch, and so does what other workers write in between: the pass writes a row once, and the
  claims about rows are made row by row.
- `RecorderRuns.LogsAreConserved`: of one recorder; `RecorderFleet` has any number of them.
- `RecorderRows.StoredRowIsTheHistory`: for a table that one recorder writes; `RecorderFleet` has the shared table.
- `RecorderRows.StoredWorkerRow`: for a table that one recorder writes, as above.
- `RecorderFleet.HandOverIsExact`: for columns that the last write decides, and pending updates that end with one that sets the column;
  every worker update sets the status.
- `WorkflowLoader.Loader.ResolveEndpoint`: the repository's answer, the compilation of templates, the decryption of secrets and the token of the
  miss limiter are parameters; `sameSnapshot` only chooses a log level.
- `TelegramCall.TelegramClient.Call`: the mapping of Bot API replies to errors and the rendering of a chat id as a limiter key are given.
- `DeadLetters.RequeueScript.Requeue`: listing, dry runs and argument parsing; a job id is opaque, and taken to be new to the queue.
- `Template.CompileTemplate`: a template is a string of UTF-16 code units, each written as one char (`TemplateUnits` says which);
  values of numeric arguments are exact decimals.
- `TemplateExpression.ParseFilter`: the registry is a parameter; `validate` of filters registered later is not modelled.
- Rendering, path resolution, the filters other than `escape_html`, `decode_entities` and `truncate`, the template cache and
  `compileValue`: they add cases, not harder properties.
- `Truncate.TruncateFits`: for `max` at least zero, as the filter demands.
- Regular-expression cleaning in `stripHtml`, URL parsing, JSON serialisation, cryptography, secret redaction and address
  blocking: given functions or other primitives.
- The Apps Script files, benchmarks, the mock server and the check and create scripts.
