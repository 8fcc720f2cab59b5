# Waybill: a verified model of the delivery pipeline

Waybill accepts webhook events over an API, commits each with an outbox row, publishes the rows to SQS,
posts the messages to a destination with retries, and moves what cannot be delivered to dead letters that
can be replayed. This project models that pipeline and the stateful parts around it in Dafny 4.11 and proves
what their design promises. `dafny verify dfyconfig.toml` checks everything.

## How the model is built

* `Store` holds the tables and what the repository functions do to them. `Pipeline` is a machine on these
  tables, an archive, a queue and any number of processes; its steps are the awaits of ingestEvent, publishOne,
  handleMessage, moveToDeadLetter, scheduleRetry and createReplay. A step that is not enabled changes nothing, a
  crash can come between any two steps, and a queue message can be received any number of times, also after it was
  deleted. `PipelineInvariant`, `PipelineSafety` and `PipelineFrames` prove what every reachable state satisfies,
  `Progress` that no event gets stuck, `Publishing` when an outbox row is published, `Lifecycle` what holds with one
  handler at a time and when a terminal delivery can change, `DeadLetters` what a dead letter and a call have of their
  delivery, `Completion` when a terminal delivery never changes again, and `TwoHandlers` how two handlers change one.
* `Handling`, `Ingestion` and a class of `Publishing` are handleMessage, ingestEvent and publishOne as statements on
  mutable state; each call that is not interrupted is shown to be a run of the machine, so the two views cannot drift
  apart.
* `OutboxSelection` and `OutboxPoller` are the ranked selection and the publisher's cursor; `Orders` has the facts
  about ORDER BY and LIMIT they share with the history pages.
* `VisibilityLeases`, `LeaseRuns` and `LeaseSafety` are the lease class, its runs, and its runs against the queue.
  `QueueConfirmations`, `TenantTurns` and `MessageBatch` are the parts of a receive cycle, and `ReceiveCycle` is the cycle
  as statements; at each of its awaits everything else that may happen does happen, any number of times.
* `Backoff`, `RateLimit`, `CircuitBreaker`, `Replays`, `DeliveryHistory`, `DeliveryList`, `BacklogMetrics`,
  `BacklogSampler` and `LoadReport` each follow one file of the repository, or two. `Common` is shared arithmetic.

Where the source updates an object in place there is a class with the same fields, and its methods are proved
against functions of the old state; theorems over runs and interleavings are about those functions.

## Assumptions

* Identifiers are UUID text that is only compared and ordered; numbers stand for them. No UUID is drawn twice. A dead
  letter is named by its delivery, which the schema makes unique (packages/shared/prisma/schema.prisma:84-118 also has
  the unique indexes of replays). There is no unique index on a delivery's event and destination, and the model has none.
* SQS keeps a message until it is deleted. A worker that hides a message or lets it time out is a worker whose
  handling ends; when the queue shows a message again is not restricted, so the machine may receive it at any time.
* Circuit breaker and rate limiter may allow or refuse at will in the pipeline; their own modules say what they do.
* Leases, buckets and breaker use one monotone clock each. Outcomes of the breaker are recorded one after the other, by
  any number of workers; the read, the stamp, the HSET and the EXPIRE of a record each have their own moment. A bucket's
  key is dropped by the clock values its callers pass, as if the script ran at that moment; Redis counts the expiry by
  its own clock from when the script runs.
* Timers of the sampler fire only while no promise callback waits, as the JavaScript event loop orders them.

## What the proofs found

* Two workers on one event can reopen a SUCCEEDED or DEAD_LETTERED delivery (`TwoHandlers.SucceededIsReopened`,
  `TwoHandlers.DeadLetteredIsReopened`). `Lifecycle.TerminalKeptIff` says exactly in which states the next step can do
  this, and `Completion.CompleteForeverIff` after which no later step can; with one handler at a time there is no such
  state, and the guarantee for any number of workers is `PipelineSafety.NothingIsLost`.
* docs/PHASE_4_NOTES.md:27-28 describes a half-open period with a probe whose failure reopens the breaker. With the
  default cooldown of 30 seconds the record lives as long as the cooldown, so this period is only as long as EXPIRE came
  after the stamp (`CircuitBreaker.ProbeWindow`), or as the decision after its read; `CircuitBreaker.ProbesIff` says
  exactly when a worker meets a probe. After it a closed breaker is read. A failure that another worker records inside the
  cooldown makes the period long (`CircuitBreaker.LateFailureMakesProbe`), and failures in it do not reopen the breaker
  (`CircuitBreaker.FailedProbesDoNotReopen`). The model follows the code.
* The record of an outcome is lost when the key expires between its HSET and its EXPIRE (`CircuitBreaker.RecordLostIff`).
* A probe whose record has expired leaves a key without expiry, which stays until the next outcome
  (`CircuitBreaker.MarkIsRead`).
* A replay request whose key already has a replay of that dead letter can be answered with a conflict, when that replay
  commits after the request's first look (`Replays.LateRepeatConflicts`); `Replays.ConflictIffUnrepeated` says that this
  is the only phase in which it can happen. Successful answers always agree.
* A token bucket with a capacity below one advertises a wait that never helps (`RateLimit.RetryAfterNeedsCapacity`).
* drain waits for the acknowledgements it finds, so a caller that is waiting in schedule when drain begins is missed, and
  only such a caller (`MessageBatch.DrainWaitsForAll`). The receive cycle calls drain when no schedule is waiting.

## Model

| member | source | states |
|---|---|---|
| Ingestion.Api.IngestEvent | packages/api/src/services/events.ts:91-139 | Checks that fail change nothing; the claim-check is used exactly above the size limit and is uploaded before the commit; the event, with its payload or its key, is committed together with its unpublished outbox row or not at all; the tables and the archive are those of a run of the pipeline's machine, also when an upload or commit takes effect without being confirmed. |
| Ingestion.Api.Commit | packages/api/src/services/events.ts:126-136 | One transaction: event and unpublished outbox row, both or neither. |
| Ingestion.UploadIff | packages/api/src/services/events.ts:109-125 | A request uploads once and only a large payload, under its event's key. |
| Ingestion.CommitIff | packages/api/src/services/events.ts:126-136 | A request commits if and only if a large payload has been uploaded. |
| PipelineSafety.NothingIsLost | packages/worker/src/index.ts:193-452 | In every reachable state of any number of API requests, publishers, workers and replays, with crashes at every step and redelivery, every committed event has an unpublished outbox row, a message in the queue, a past 2xx answer, or a dead letter whose archive holds its payload. |
| Progress.UnsettledIsDeliverable | packages/worker/src/index.ts:274-452 | From every reachable state, whatever has crashed, failed or been repeated, every committed event that has neither a 2xx answer nor a dead letter with its payload can still be delivered to any destination as it was accepted: there is a continuation in which it is posted, answered and recorded as SUCCEEDED. |
| Progress.DeadLetterIsDeliverable | packages/api/src/services/replays.ts:17-43 | From every reachable state every DEAD_LETTERED delivery that has no replay can be replayed, and the new event then be delivered with the same content. |
| Progress.BeginReplayIff | packages/api/src/services/replays.ts:23-30 | A replay begins if and only if its tenant has the dead letter, of a DEAD_LETTERED delivery for the destination asked for, and the archive holds its payload. |
| Progress.CommitReplayIff | packages/api/src/repositories/replays.ts:43-50 | It commits if and only if neither its source nor its tenant's key has a replay, with exactly its event, outbox row and replay. |
| PipelineSafety.RunKeeps | packages/worker/src/outbox-poller.ts:85-131 | The invariant behind it holds after every run: what is published was sent, what is acknowledged is settled, messages, archives, claims and replays carry their event's content. |
| PipelineSafety.PublishKeeps | packages/worker/src/outbox-poller.ts:109-115 | Marking the row after the confirmed send never leaves an event without its message or its outcome. |
| PipelineSafety.LookupKeeps | packages/worker/src/index.ts:326-343 | A message is acknowledged as complete only when its delivery's event is settled. |
| PipelineSafety.BuryKeeps | packages/worker/src/repositories/dead-letters.ts:3-21 | Creating or overwriting a dead letter never takes the archive away from the event it belongs to. |
| PipelineSafety.DeleteKeeps | packages/worker/src/index.ts:193-201 | No acknowledgement can lose an event, whichever of several messages for it is deleted. |
| PipelineSafety.TerminalMeans | packages/worker/src/repositories/deliveries.ts:46-80 | In every reachable state SUCCEEDED means that the destination answered 2xx for that event, DEAD_LETTERED that the dead letter exists and the event's payload is archived. |
| PipelineSafety.PostedIsAccepted | packages/worker/src/index.ts:119-144 | Whatever was posted is the tenant, type and payload accepted for that event, inline or by claim-check; every archive key holds the payload of the event it names. |
| DeadLetters.CallsAreAddressed | packages/worker/src/index.ts:394-399 | Over all runs every call goes to the destination of a delivery of its event. |
| PipelineSafety.ReplayedIsAccepted | packages/api/src/repositories/replays.ts:43-46 | Through any chain of replays the destination is sent the content accepted for the first event. |
| PipelineSafety.AcceptedIsRequested | packages/api/src/services/events.ts:109-136 | The content of an event that replays no other is what an ingestion request brought. |
| PipelineSafety.CommitReplayKeeps | packages/api/src/repositories/replays.ts:29-51 | The new event of a replay is carried by its outbox row, and its archive key holds the payload of the source event. |
| PipelineFrames.OnlyHandlersWrite | packages/worker/src/repositories/deliveries.ts:12-80 | Of all steps only the beginning of an attempt and the recording of its outcome write a delivery. |
| Publishing.PublishedIffMarked | packages/worker/src/outbox-poller.ts:109-115 | Over all runs an outbox row is published if and only if a publisher whose message the queue had confirmed has marked it. |
| Publishing.OutboxPublisher.PublishOne | packages/worker/src/outbox-poller.ts:69-131 | The message goes out with the event's tenant and type and either its payload or its key, and the row is marked only after the send is confirmed; uninterrupted it is a run of the machine, also when send or update take effect without being confirmed. |
| Publishing.PickIff | packages/worker/src/repositories/outbox.ts:18-31 | A publisher takes a row if and only if it is unpublished, with the message of its event. |
| Publishing.SendIff | packages/worker/src/outbox-poller.ts:77-107 | A message can be sent more than once until its confirmation arrives. |
| Publishing.ConfirmIff | packages/worker/src/outbox-poller.ts:85-111 | A confirmation is of a message that was sent. |
| Publishing.PublishWrites | packages/worker/src/repositories/outbox.ts:39-47 | The update sets the published column of that row and nothing else, and counts one exactly when the row was unpublished. |
| Pipeline.LookupDecides | packages/worker/src/index.ts:326-351 | For a parsed and admitted message whose found row is `row`: it is acknowledged if and only if the row is SUCCEEDED or DEAD_LETTERED, hidden if and only if it is neither and its retry time is after the clock, and attempted otherwise; a message without a row is attempted. |
| Handling.Handler.HandleMessage | packages/worker/src/index.ts:274-452 | The whole of handleMessage as statements: one uninterrupted handling is a run of the machine for every answer of the circuit, rate limit, database, archive, destination and queue. A message that is not refused is deleted exactly when it is poison or its found row is SUCCEEDED or DEAD_LETTERED, and hidden exactly when the row's retry time is after the clock; such messages leave the tables alone. Any other is attempted: at most the one call with the loaded payload, the row and, after the last attempt, the dead letter hold what its outcome requires column by column, and no other row changes. |
| Handling.Handler.Intake | packages/worker/src/index.ts:285-343 | Refused messages are hidden, poison and complete ones deleted, one whose retry time is after the clock is hidden; an attempt begins if and only if the found row is neither complete nor waiting, or there is none. |
| Handling.Handler.Deliver | packages/worker/src/index.ts:394-442 | Exactly one call; SUCCEEDED exactly when its 2xx answer was seen. |
| Handling.Handler.Attempt | packages/worker/src/index.ts:351-442 | From upsertInFlight to the outcome: one attempt more than before, SUCCEEDED after a seen 2xx, otherwise retried or dead-lettered by the attempt budget; only the rows of this delivery change, and the archive only by the inline payload of a dead letter. |
| Handling.Handler.FailAttempt | packages/worker/src/index.ts:402-431 | The attempt that exhausts the budget is dead-lettered with its archive, any earlier one is FAILED with its retry time. |
| Handling.Handler.MoveToDeadLetter | packages/worker/src/index.ts:226-255 | Archive, dead letter, delivery, acknowledgement, in this order, as four steps of the machine. The dead letter takes the cut error, the attempts and the archive key of this attempt, and a new one the event, the tenant and the destination of its delivery; the delivery is DEAD_LETTERED with the same error. |
| Handling.Handler.UpsertInFlight | packages/worker/src/repositories/deliveries.ts:12-44 | Creates the row with one attempt, or puts a found row in flight with one attempt more and without error and retry time. |
| Handling.Handler.MarkSucceeded | packages/worker/src/repositories/deliveries.ts:46-51 | Sets SUCCEEDED and clears the error of that row only. |
| Handling.Handler.MarkFailed | packages/worker/src/repositories/deliveries.ts:53-66 | Sets FAILED, the error cut to 500 characters and the retry time of that row only. |
| Handling.Handler.MarkDeadLettered | packages/worker/src/repositories/deliveries.ts:68-80 | Sets DEAD_LETTERED and the cut error and clears the retry time of that row only. |
| Handling.Handler.CreateDeadLetter | packages/worker/src/repositories/dead-letters.ts:3-21 | Upsert by delivery: error, attempts and key are those given; an existing row keeps its event, tenant and destination, a new one takes them. |
| Handling.Handler.ArchivePayload | packages/worker/src/index.ts:203-224 | A claim-check key is reused, an inline payload is stored under the dead-letter key of its event. |
| Handling.AfterRun | packages/worker/src/index.ts:274-452 | A handling that starts in a reachable state ends in one, so every guarantee about runs covers it. |
| Lifecycle.RunLife | packages/worker/src/index.ts:518-547 | With one handler at a time, which is how one worker process awaits its messages, the life-cycle invariant of every delivery holds over all runs. |
| Lifecycle.DeliveryRecords | packages/worker/src/repositories/deliveries.ts:12-80 | A retry time is set exactly in FAILED, an error exactly in FAILED and DEAD_LETTERED, DEAD_LETTERED implies the dead letter, and attempts exceed the budget by at most the interrupted handlings. |
| DeadLetters.LetterNamesDelivery | packages/worker/src/repositories/dead-letters.ts:3-21 | Over all runs, with any number of handlers, every dead letter has the event, the tenant and the destination of its delivery. |
| DeadLetters.LetterTellsOutcome | packages/worker/src/index.ts:235-245 | With one handler at a time every DEAD_LETTERED delivery has a dead letter that agrees with it in event, tenant, destination, attempts and error, over all runs and crashes. |
| DeadLetters.AgreementKeptIff | packages/worker/src/index.ts:226-245 | With any number of handlers, in any state in which a delivery, if DEAD_LETTERED, has a dead letter with its attempts and its error: every possible next step keeps this so if and only if no worker is about to record another error than the dead letter has, or to overwrite the dead letter of a delivery that has ended with other attempts or another error. |
| Lifecycle.UninterruptedEnds | packages/worker/src/index.ts:402-431 | Without interruptions a delivery nobody handles is FAILED or terminal, and it is terminal once the budget is used up. |
| Lifecycle.TerminalKeptIff | packages/worker/src/repositories/deliveries.ts:17-31 | In any state, every possible next step keeps the row of a SUCCEEDED or DEAD_LETTERED delivery if and only if no worker is at one of the four points where it would rewrite that row: a found row about to be put in flight, a retry about to be recorded, or an outcome of the other kind about to be recorded. |
| Lifecycle.TerminalIsFinal | packages/worker/src/index.ts:326-333 | With one handler at a time no worker ever is at such a point, so a SUCCEEDED or DEAD_LETTERED delivery never changes again. |
| Completion.CompleteForeverIff | packages/worker/src/index.ts:326-452 | In any state in which all deliveries of an event and a destination are SUCCEEDED or DEAD_LETTERED: no continuation, however long, changes one of them or adds one if and only if no worker is under way, that is, past its look at the row and still able to record something else. |
| TwoHandlers.SucceededIsReopened | packages/worker/src/repositories/deliveries.ts:17-31 | The one-handler condition is needed: from any state with a message whose delivery is new, or neither complete nor waiting for its retry time, inline or by claim-check, two handlers can bring the delivery to SUCCEEDED and back to IN_FLIGHT, because the upsert does not look at the status. |
| TwoHandlers.DeadLetteredIsReopened | packages/worker/src/repositories/deliveries.ts:17-31 | The same with DEAD_LETTERED, when the attempt is the last of the budget. |
| Backoff.Limit | packages/worker/src/delivery/backoff.ts:5-19 | The least whole number of attempts that exhausts a budget, which may be any number from one up. |
| Backoff.BackoffDelayMs | packages/worker/src/delivery/backoff.ts:21-27 | The delay is at most the doubled base and at most a minute. |
| Backoff.CeilingDoubles | packages/worker/src/delivery/backoff.ts:21-27 | The ceiling is one second for the first attempt, and each further attempt doubles it up to a minute. |
| Backoff.FullJitter | packages/worker/src/delivery/backoff.ts:21-27 | A whole delay is drawn by some random number if and only if it is at most the ceiling. |
| Backoff.VisibilityTimeoutSeconds | packages/worker/src/delivery/backoff.ts:33-36 | Within 1 to 43200 seconds, which stand for what lies outside; inside that range the message stays hidden at least the delay and less than a second longer. |
| OutboxSelection.Select | packages/worker/src/repositories/outbox.ts:10-25 | The batch has min(limit, pending) rows. |
| OutboxSelection.SelectDistinct | packages/worker/src/repositories/outbox.ts:10-25 | No row is selected twice. |
| OutboxSelection.OldestFirst | packages/worker/src/repositories/outbox.ts:13-15 | Each tenant's selected rows are an oldest-first prefix of its pending rows: a pending row of the same tenant with an earlier creation time, or the same one and a smaller identifier, is in the batch before it. |
| OutboxSelection.FairBatch | packages/worker/src/repositories/outbox.ts:21-24 | Fair round-robin: for tenants t and u, count(t) is at least min(pending(t), count(u) - 1). |
| OutboxPoller.Poller.PublishAll | packages/worker/src/outbox-poller.ts:135-147 | Exactly the rows whose send and update succeeded leave the pending rows, whatever the others did. |
| OutboxPoller.Poller.Tick | packages/worker/src/outbox-poller.ts:133-153 | A tick publishes the selection and moves the cursor to the tenant of its last row. |
| OutboxPoller.Poller.Turn | packages/worker/src/outbox-poller.ts:187-209 | The cursor moves exactly when a tick completed, also when publications failed; leadership is kept exactly when all succeeded. |
| OutboxPoller.CursorAdvances | packages/worker/src/repositories/outbox.ts:21-24 | A tick that passes a waiting tenant over brings the cursor `limit` tenants closer to it. |
| OutboxPoller.SelectedInTime | packages/worker/src/outbox-poller.ts:199-201 | A tenant with pending work is selected within ceil(N / limit) ticks, whatever arrives and whichever sends fail. |
| OutboxPoller.RowSelectedInTime | packages/worker/src/outbox-poller.ts:199-201 | When the tenant's sends succeed and no row with an earlier creation time, or the same one and a smaller identifier, joins it, a row with at most k such rows of its tenant pending is selected within (k + 1) * ceil(N / limit) ticks. |
| VisibilityLeases.VisibilityLeases.Track | packages/worker/src/delivery/visibility.ts:15-17 | A tracked receipt gets a new entry of 30 seconds. |
| VisibilityLeases.VisibilityLeases.IsCurrent | packages/worker/src/delivery/visibility.ts:32-34 | Current means more than five seconds of lease left. |
| VisibilityLeases.VisibilityLeases.Release | packages/worker/src/delivery/visibility.ts:36-39 | The receipt leaves at once, and the outstanding sweep is waited for. |
| VisibilityLeases.VisibilityLeases.RenewNow | packages/worker/src/delivery/visibility.ts:41-55 | At most one sweep is outstanding; a new one asks for the live receipts in batches of ten. |
| VisibilityLeases.VisibilityLeases.Answer | packages/worker/src/delivery/visibility.ts:56-70 | Only entries that are still the same object are renewed or ended by an answer. |
| LeaseRuns.SweepCovers | packages/worker/src/delivery/visibility.ts:50-55 | In every run: a new sweep asks for every receipt whose lease has not ended exactly once, in batches of ten and a last one of one to ten, each call with its own start; while a sweep is outstanding no other begins. |
| LeaseRuns.RenewedExact | packages/worker/src/delivery/visibility.ts:58-66 | An answer sets a confirmed entry to 30 seconds from the start of the call, ends an unconfirmed one, and never touches a receipt tracked again since. |
| LeaseRuns.ReleasedIsNotRenewed | packages/worker/src/delivery/visibility.ts:36-48 | Once release(r) has completed, no outstanding or later renewal includes r unless it is tracked again. |
| LeaseRuns.SweepSettlesIff | packages/worker/src/delivery/visibility.ts:41-55 | In every run the outstanding sweep is over if and only if all its calls have been answered; nothing else ends it, and a second answer to a call changes nothing. |
| LeaseRuns.ReleaseEndsIff | packages/worker/src/delivery/visibility.ts:36-39 | A release completes if and only if the sweep that was outstanding when it began is over. |
| LeaseSafety.TrackedIsCurrent | packages/worker/src/delivery/visibility.ts:15-34 | Over every interleaving a receipt is current for 25 seconds from the arrival of its response, unless it is given up or a renewal of it is not confirmed; and without an answer to a renewal no longer. |
| LeaseSafety.CurrentIsHidden | packages/worker/src/delivery/visibility.ts:32-34 | If responses arrive within five seconds and SQS renews only for current owners, a receipt taken for current is still hidden, over every interleaving of receives, sweeps, partial and failed answers, releases and deferrals, also when SQS carries out an entry of a call that the worker has given up. |
| LeaseSafety.ConfirmedNeverShortens | packages/worker/src/delivery/visibility.ts:55-69 | A confirmed renewal never shortens a lease, each call counting from its own start; an unconfirmed or failed one ends it. |
| QueueConfirmations.ConfirmedBatchReceipts | packages/worker/src/delivery/queue-confirmations.ts:1-14 | Exactly the receipts whose own entry is reported successful and not failed. |
| QueueConfirmations.AllConfirmed | packages/worker/src/index.ts:184-188 | As many confirmed as asked for means that every entry was confirmed. |
| QueueConfirmations.IndexTextInjective | packages/worker/src/delivery/queue-confirmations.ts:5-5 | Different entries of a batch have different identifiers. |
| QueueConfirmations.IndexTextIsDecimal | packages/worker/src/delivery/queue-confirmations.ts:5-5 | An identifier is the decimal text of its index, without a leading zero. |
| TenantTurns.TenantTurns.Take | packages/worker/src/delivery/tenant-turns.ts:8-13 | A request gets a turn if and only if the tenant asked fewer than `limit` times before, whatever other tenants do. |
| MessageBatch.DeliveryConfirmations.Admit | packages/worker/src/delivery/message-batch.ts:14-19 | One turn of schedule's loop is a step of the machine of all callers; an acknowledgement is added exactly when fewer than the limit are pending, and waits otherwise. |
| MessageBatch.DeliveryConfirmations.Finish | packages/worker/src/delivery/message-batch.ts:15-18 | The end of a task is a step of that machine: it leaves the pending ones, is reported exactly when it failed, and its error is kept exactly when the report throws. |
| MessageBatch.BoundedAndOnce | packages/worker/src/delivery/message-batch.ts:13-20 | For any number of concurrent callers at most `limit` acknowledgements are pending, each accepted one runs once, each failure is reported once. |
| MessageBatch.AdmittedIff | packages/worker/src/delivery/message-batch.ts:13-14 | After any calls a caller that is new or waits is admitted if and only if fewer than `limit` acknowledgements are pending. |
| MessageBatch.ErrorsAreKept | packages/worker/src/delivery/message-batch.ts:15-25 | After any calls an error is kept for drain to throw, once for each task, if and only if the report of its failed acknowledgement threw. |
| MessageBatch.DeliveryConfirmations.EndDrain | packages/worker/src/delivery/message-batch.ts:22-25 | drain throws exactly when an error was kept, and then all of them. |
| MessageBatch.DrainWaitsForAll | packages/worker/src/delivery/message-batch.ts:13-25 | After any calls: drain leaves nothing pending, whatever happens without new calls, if and only if no caller is waiting in schedule when it begins. |
| MessageBatch.DrainMissesWaiting | packages/worker/src/delivery/message-batch.ts:13-25 | For every waiting caller there is a continuation in which drain returns while its task is pending. |
| ReceiveCycle.Cycle.Interfere | packages/worker/src/index.ts:491-517 | Whatever happens at an await, any number of times (receives are answered and tracked, acknowledgements begin and release their lease, deletes succeed or fail, leases are renewed or lost, time passes), of the arrived messages exactly those that wait for their turn, are in hand, wait for their acknowledgement or are deferred stay tracked, given that their receipts differ; at most ten acknowledgements are pending. |
| ReceiveCycle.Cycle.Schedule | packages/worker/src/delivery/message-batch.ts:13-20 | Scheduling waits until an acknowledgement ends when ten are pending, with all of that happening meanwhile, and hands the lease of the message over to its acknowledgement. |
| ReceiveCycle.Cycle.Process | packages/worker/src/index.ts:526-546 | The turn of a message: skipped, deferred or handled by the lease that isCurrent finds at that moment and by its tenant's turns; its lease is still tracked then, and no other message is disturbed, whatever happens at the awaits. |
| ReceiveCycle.Cycle.DeferExcess | packages/worker/src/index.ts:170-191 | All deferred leases are released first; the count is that of the confirmed receipts of each batch of ten. |
| ReceiveCycle.Cycle.Run | packages/worker/src/index.ts:485-551 | For every order in which receives are answered and every outcome of handlings, deletes and renewals: the batches are processed one after the other in the order of the race, what became of each message is determined by the leases and turns it met, and at the end every acknowledgement has ended and no lease of the cycle is tracked. |
| ReceiveCycle.EveryMessageOnce | packages/worker/src/index.ts:485-551 | Every received message is handled, skipped or deferred, and that exactly once. |
| ReceiveCycle.SkippedIffUncertain | packages/worker/src/index.ts:527-532 | A message is skipped if and only if its receipt had at most five seconds of lease left, or none, when its turn came. |
| ReceiveCycle.TurnsAreKept | packages/worker/src/index.ts:533-537 | At most ten messages of a tenant are handled in a cycle, and a message is deferred only when its tenant had ten. |
| ReceiveCycle.AcknowledgedIff | packages/worker/src/index.ts:526-546 | A message is acknowledged if and only if one of its turns handled it and the handling returned an acknowledgement. |
| ReceiveCycle.DeferralCounts | packages/worker/src/index.ts:170-191 | The count of a deferral is the number of places i whose entry i mod 10 the answer to call i div 10 reports successful and not failed. |
| RateLimit.Normalize | packages/shared/src/rate-limit.ts:53-61 | A capacity or rate that is not positive is refused; otherwise each is the given one, or ten when missing. |
| RateLimit.StaysFilled | packages/shared/src/rate-limit.ts:63-91 | Tokens stay between zero and the capacity. |
| RateLimit.AllowedIffWhole | packages/shared/src/rate-limit.ts:63-91 | A call is allowed if and only if the capacity and the refilled tokens are at least one; it takes one token and advertises no wait, a refused one takes none and advertises at least a millisecond. |
| RateLimit.WholeTokensAreTaken | packages/shared/src/rate-limit.ts:63-91 | Of any number of calls while the clock stands still exactly as many are allowed as there are whole tokens. |
| RateLimit.RefillsToCapacity | packages/shared/src/rate-limit.ts:68-71 | A bucket is full again if and only if it has waited for its missing tokens, and is never fuller. |
| RateLimit.BurstBound | packages/shared/src/rate-limit.ts:63-91 | In any part of a run, on any clock, at most capacity + rate * forward movement calls are allowed. |
| RateLimit.RetryAfterIsLeast | packages/shared/src/rate-limit.ts:75-80 | For a capacity of at least one, retryAfterMs is the least whole wait that is then allowed. |
| RateLimit.RetryAfterNeedsCapacity | packages/shared/src/rate-limit.ts:75-80 | After a refusal some wait is enough if and only if the capacity is at least one. |
| RateLimit.RefusalsDoNotPostpone | packages/shared/src/rate-limit.ts:75-80 | Refused calls in between do not move the moment that was advertised. |
| RateLimit.RedisBucket.Consume | packages/shared/src/rate-limit.ts:26-51 | The script decides and keeps what consumeToken does on the stored bucket, and on a full one when the key is missing. |
| RateLimit.DropChangesNothing | packages/shared/src/rate-limit.ts:48-49 | When the key may go, the bucket has refilled completely. |
| RateLimit.TimeToLiveIsLeast | packages/shared/src/rate-limit.ts:48-49 | The expiry is the least whole number of milliseconds after which an empty bucket is full. |
| RateLimit.ExpiryRefines | packages/shared/src/rate-limit.ts:26-51 | On a monotone clock the decisions with expiring keys are those of consumeToken on one bucket that begins full and is kept for ever. |
| CircuitBreaker.CircuitStore.RecordDeliveryFailure | packages/worker/src/delivery/circuit-breaker.ts:167-194 | Reads the key, counts the failure at the time taken after the read, sets the hash and then its expiry, each command at its own moment. |
| CircuitBreaker.CircuitStore.RecordDeliverySuccess | packages/worker/src/delivery/circuit-breaker.ts:167-206 | Sets a closed breaker and then its expiry, each command at its own moment. |
| CircuitBreaker.CircuitStore.MarkProbe | packages/worker/src/index.ts:345-349 | Sets one field; a key that is gone comes back without expiry. |
| CircuitBreaker.FailureOpensIff | packages/worker/src/delivery/circuit-breaker.ts:29-70 | For every snapshot, half-open ones included: a failure leaves the breaker open if and only if it was not closed or reaches the threshold; only one that was open keeps its opening time. |
| CircuitBreaker.AllowedAfterDelay | packages/worker/src/delivery/circuit-breaker.ts:85-127 | For every snapshot: an open breaker allows after exactly the advertised delay, which ends the cooldown; a half-open one unless a probe is in flight; a closed one always. |
| CircuitBreaker.WrittenIsRead | packages/worker/src/delivery/circuit-breaker.ts:149-182 | What is written is read back if and only if the opening time is not zero, and a zero one is read as none. |
| CircuitBreaker.MarkIsRead | packages/worker/src/index.ts:345-349 | Over every history the mark of a probe is read if and only if nothing was recorded after it and the record it was set on has not expired; set on no record it stays until the next outcome. |
| CircuitBreaker.StreakIsLongest | packages/worker/src/delivery/circuit-breaker.ts:29-70 | The streak is the longest run of failures up to now with no success and no read that came after the expiry of the record before it. |
| CircuitBreaker.ReadIsHistory | packages/worker/src/delivery/circuit-breaker.ts:149-182 | What is read back is determined by history: until the last record expires, which counts from its EXPIRE, closed with the length of the streak, or open since the stamp of the failure that reached the threshold; closed without failures afterwards. |
| CircuitBreaker.RecordLostIff | packages/worker/src/delivery/circuit-breaker.ts:167-182 | The record of an outcome is lost if and only if the record before it expires between its HSET and its EXPIRE. |
| CircuitBreaker.RefusedWithinCooldown | packages/worker/src/delivery/circuit-breaker.ts:85-127 | However late the decision comes after its read: a delivery is refused if and only if the current streak opened the breaker less than the cooldown ago, with exactly the time left; key expiry never shortens it. |
| CircuitBreaker.HalfOpenIff | packages/worker/src/delivery/circuit-breaker.ts:85-127 | A delivery is let through as a probe if and only if the record had not expired at the read, its streak reached the threshold, and the cooldown is over at the decision. |
| CircuitBreaker.ProbeWindow | packages/worker/src/delivery/circuit-breaker.ts:167-194 | While no outcome follows the opening one, a delivery is a probe exactly when it is decided at or after the stamp plus the cooldown on a read before the EXPIRE plus the time to live. |
| CircuitBreaker.NeverHalfOpen | packages/worker/src/delivery/circuit-breaker.ts:167-194 | With a cooldown of whole seconds, failures recorded only while the breaker allows deliveries, the EXPIRE of every opening at its stamp and the decision at its read, no delivery is a probe. |
| CircuitBreaker.ProbesIff | packages/worker/src/delivery/circuit-breaker.ts:85-194 | For every history with failures recorded only while the breaker allows deliveries, and decisions at most `delay` after their reads: some delivery is a probe if and only if the breaker opened at least once in such a way that one of three holds: the cooldown is no positive whole number of seconds, the EXPIRE of that opening came after its stamp, or decisions take time. |
| CircuitBreaker.ProbesPossibleIff | packages/worker/src/delivery/circuit-breaker.ts:85-194 | For every configuration and every bound on the two delays: such histories with a probe exist if and only if the cooldown is no positive whole number of seconds or one of the delays is not zero. |
| CircuitBreaker.LateFailureMakesProbe | packages/worker/src/delivery/circuit-breaker.ts:29-44 | With any configuration and without any delay a failure recorded inside the cooldown, as another worker can, makes a probe. |
| CircuitBreaker.FailedProbesDoNotReopen | packages/worker/src/delivery/circuit-breaker.ts:37-44 | From a probe on failures never open the breaker again, however many follow, until a success or the expiry or loss of a record ends the streak: every delivery is allowed. |
| Replays.OneReplayEach | packages/api/src/repositories/replays.ts:29-51 | Over all interleavings at most one replay for a dead letter and for a tenant's key, each with its own event and exactly one outbox row. |
| Replays.FailsIff | packages/api/src/services/replays.ts:23-46 | Over all runs: a request has ended with Gone if and only if it read its archive at a moment when the payload was not there, and with NotFound if and only if one of its two looks found no such dead letter of its tenant. |
| Replays.CommittedWasReadable | packages/api/src/services/replays.ts:30-32 | The archive named by the event of every committed replay was there when a request read it. |
| Replays.FirstChecks | packages/api/src/services/replays.ts:23-29 | The first look at the source: not found, a conflict when it is not dead-lettered, already replayed or for another destination, and otherwise on to its archive, by the columns of the tables. |
| Replays.ArchiveCheck | packages/api/src/services/replays.ts:30-46 | The request goes on if and only if the archive holds its key. |
| Replays.SecondChecks | packages/api/src/repositories/replays.ts:36-42 | The look in the transaction: not found, a conflict when status, destination or archive key differ, and otherwise the source to copy. |
| Replays.AnswersAgree | packages/api/src/services/replays.ts:17-43 | All successful answers for one key name the same dead letter, replay and event. |
| Replays.RepeatedKey | packages/api/src/services/replays.ts:36-43 | Before, in or after the transaction: a key that has a replay is answered with it, or refused for another dead letter; nothing is written. |
| Replays.ConflictIffUnrepeated | packages/api/src/services/replays.ts:21-43 | A request whose key has a replay of the very dead letter it asks for, while that source and its archive stay as they are, can end in a conflict if and only if its first look for the key had found nothing and it has not yet read the source; in every other phase it never fails and can be answered with that replay. |
| Replays.LateRepeatConflicts | packages/api/src/services/replays.ts:21-26 | From any database without replays there is a run in which a request is refused with a conflict although the replay of its own key and dead letter is committed and answered. |
| Replays.CommittedReplayIsSeen | packages/api/src/repositories/replays.ts:43-50 | After the commit the key finds exactly this replay and every other key what it found before; the source is unchanged but replayed, every other source as before; and of all requests just those for the same dead letter or the same key are refused from then on. |
| Replays.Primary.CreateReplay | packages/api/src/repositories/replays.ts:29-51 | As one transaction: existing, missing, changed, refused by a unique index, or created with exactly the three inserts. |
| Store.FindSource | packages/api/src/repositories/replays.ts:25-27 | A source is only found for its own tenant. |
| DeliveryHistory.PageIsNewest | packages/api/src/services/delivery-history.ts:18-23 | A page holds at most `limit` rows, each of the tenant, of the status asked for and after the cursor, the latest created first and of equal times the greater identifier first; a row of that tenant and status after the cursor is left out only by a full page of newer ones. |
| DeliveryHistory.NextCursorIff | packages/api/src/services/delivery-history.ts:18-23 | There is a next cursor exactly when such a row is left out; it holds the tenant, the status asked for and the time and identifier of the page's last row. |
| DeliveryHistory.WalkDescends | packages/api/src/repositories/delivery-history.ts:4-15 | Whatever happens to the table between pages, a reader sees rows of the tenant and the status only, in strictly descending order of creation time and identifier, none twice. |
| DeliveryHistory.LastingRowsAreSeen | packages/api/src/repositories/delivery-history.ts:8-11 | A delivery of the tenant and the status that is there at every read is seen by a reader that reaches the end, whatever else changes. |
| DeliveryHistory.WalkIsHistory | packages/api/src/services/delivery-history.ts:10-24 | Following nextCursor, with changing limits and later rows arriving, yields exactly the rows of the tenant and the status at the first page's moment, in descending order, creation-time ties included. |
| DeliveryHistory.WalkEnds | packages/api/src/services/delivery-history.ts:18-23 | The null cursor comes after at most one page for each row. |
| DeliveryHistory.ParseDeliveryHistoryQuery | packages/api/src/services/delivery-history-query.ts:29-55 | Accepted exactly for a tenant UUID, the name of a status or none, a limit of one or two digits without a leading zero or 100, and a cursor of 1 to 1024 characters that encodes this tenant and status; 50 by default. A cursor of another length is an error of the query, an undecodable or foreign one an error of the cursor. |
| DeliveryList.AcceptedIffOwn | packages/web/src/lib/delivery-list.ts:18-24 | In every state of the browser's list its request is accepted exactly when the cursor it sends is its own or there is none, an empty one not being sent, and then asks for what the state shows. |
| DeliveryList.OwnCursorsAreAccepted | packages/web/src/lib/delivery-list.ts:9-16 | With cursors issued for its own filter, every request the list makes is accepted. |
| DeliveryList.PreviousUndoesNext | packages/web/src/lib/delivery-list.ts:13-14 | Going back from the next page restores the state. |
| DeliveryList.FilterIsLast | packages/web/src/lib/delivery-list.ts:8-12 | After any steps the filter is the one that was set last, or ALL. |
| DeliveryList.LimitIsLast | packages/web/src/lib/delivery-list.ts:8-12 | After any steps the page size is the one that was set last, or 50. |
| DeliveryList.StepsOfTheList | packages/web/src/lib/delivery-list.ts:9-17 | A new filter or size goes back to the first page, next adds a cursor and previous takes one, and the revision counts the refreshes, which keep the page. |
| DeliveryList.PageNumberIsOffset | packages/web/src/lib/delivery-list.ts:9-24 | While the table does not change, page n shows the rows of the tenant and the filter that (n - 1) * limit to n * limit - 1 newer ones precede, in that order, through any steps, filters, sizes and refreshes, and next is offered exactly when rows remain. |
| BacklogMetrics.Metrics.RecordOutbox | packages/shared/src/backlog-metrics.ts:46-50 | Recorded exactly when the count is a whole number from 0 to 2^53 - 1; a refused count changes no gauge, a recorded one those of the outbox only. |
| BacklogMetrics.Metrics.RecordQueue | packages/shared/src/backlog-metrics.ts:51-57 | All three counts are checked before the first gauge is set; the outbox gauges are left alone. |
| BacklogSampler.OneSampleEach | packages/worker/src/metrics/backlog-sampler.ts:28-65 | Each source has exactly one sample under way or waiting until stop, so reads never overlap and sampling never dies out. |
| BacklogSampler.EverySampleResolves | packages/worker/src/metrics/backlog-sampler.ts:43-65 | Until stop every sample that began is under way or has ended, as a good one or a failure. |
| BacklogSampler.GoodReadIsShown | packages/worker/src/metrics/backlog-sampler.ts:28-65 | After any steps without stop there is a continuation in which a good read of either source is recorded and shown: no sample that hangs, fails, is refused or is aborted ends the sampling. |
| BacklogSampler.ReadBeginsIff | packages/worker/src/metrics/backlog-sampler.ts:46-49 | A sample begins to read if and only if it was not aborted before. |
| BacklogSampler.GaugesAreHistory | packages/worker/src/metrics/backlog-sampler.ts:28-65 | The gauges always show the last good sample and its time, and success exactly when the last sample that ended was good; each sample ends at most once. |
| BacklogSampler.LateReadIsIgnored | packages/worker/src/metrics/backlog-sampler.ts:46-51 | Once a sample is aborted by its deadline or by stop, no step of it changes a gauge, however much later it comes. |
| BacklogSampler.StopIsFinal | packages/worker/src/metrics/backlog-sampler.ts:70-76 | After stop no gauge changes and no sample begins. |
| BacklogSampler.Loop.OnRead | packages/worker/src/metrics/backlog-sampler.ts:49-51 | Records the sample, or rejects when it is refused, unless aborted or stopped. |
| BacklogSampler.Loop.Failure | packages/worker/src/metrics/backlog-sampler.ts:33-38 | Counts a failure once, and not after stop. |
| BacklogSampler.Loop.StopSampling | packages/worker/src/metrics/backlog-sampler.ts:70-76 | Clears every timer and aborts every task. |
| LoadReport.PassedIffHealthy | packages/shared/scripts/load-report.ts:34-109 | A report passes if and only if the run was healthy, written out by the requests, receipts and outcomes: every planned request was sent on schedule and accepted or throttled without an error; accepted events are distinct, each was received by its tenant and has one outcome, its success; of each tenant's accepted requests 95 in a hundred and all keep its two limits; and the declared preload and fairness volumes are met. |
| LoadReport.MakeReport | packages/shared/scripts/load-report.ts:34-109 | passed means a healthy run; the failures are exactly the checks that fail, in order; the status counts are those of the owned outcomes. |
| LoadReport.CountsArePlaces | packages/shared/scripts/load-report.ts:35-40 | The counts of accepted, rejected, failed and delivered requests are the numbers of requests with those columns. |
| LoadReport.RequestClasses | packages/shared/scripts/load-report.ts:35-40 | A request without an error is accepted or throttled, and every other one is an error. |
| LoadReport.OutcomesMatchIff | packages/shared/scripts/load-report.ts:74-77 | The three counts and the row check mean: every accepted event has exactly one outcome, a success of its tenant. |
| LoadReport.PercentileMeaning | packages/shared/scripts/load-report.ts:28-32 | A percentile is within a limit exactly when that share of the values is. |
| LoadReport.TurnsAreShares | packages/shared/scripts/load-report.ts:22-26 | After any number of requests each tenant had its exact share: one turn in a cycle, or the busy rate for the busy tenant. |

## Left out

- AWS, Redis, PostgreSQL and HTTP clients with their timeouts: each call is a step that takes effect or not, and is confirmed or not.
- JSON, base64url and zod: payloads are compared as values, and a cursor's text is its encoding or text the decoder refuses.
- Access control, signatures, tokens, sessions and the other API routes.
- Prometheus counters and logging, apart from the backlog gauges.
- The dead-letter and API-key lists: the same paging as the delivery history, so they would add only easy members.
- The web pages around the delivery list, and the other scripts: interface and drivers.
- Validation of environment variables, apart from the rate limit; maxDeliveryAttempts is any number from one up and the message size limit is a whole number.
- The visibility timeouts that hideUntil and deferExcessMessages choose: the machine lets a message reappear at any time, which covers every choice.
- Floating-point rounding: tokens, percentiles and latencies are exact; Infinity and NaN appear only as backlog counts.
- The rest of the report of load-report.ts (overall percentiles, completion times, roles, duplicate calls): presentation that the verdict does not use.
- Failures of the reads in requestReplay other than the archive's absence: they only end the request.
- Pipeline, replays, leases against the queue, confirmations of many callers and the sampler's event loop run as machines on values, because their steps interleave; the classes beside them are the same steps as statements. Update in place is therefore shown for one object at a time, not for objects shared between threads.
- OutboxSelection.Select: the second read of listUnpublished, which can only drop rows published meanwhile, is the same moment as the first, because one leader publishes at a time.
- Lifecycle.UninterruptedEnds: says that the budget leads to a terminal state, not that the queue delivers the message again; redelivery is the queue's promise.
- DeadLetters.LetterTellsOutcome: for several handlers of one delivery only event, tenant and destination are promised over runs; DeadLetters.AgreementKeptIff says which steps part the attempts and the error.
- ReceiveCycle.Cycle.Run: the cycle's error callback only writes to the console and does not throw; what drain does with errors of a throwing callback is in MessageBatch. The pause after a failed receive is not there.
- MessageBatch.BoundedAndOnce: says what a task did once it settled, not that it settles.
