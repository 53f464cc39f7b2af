# notifyctl: the delivery protocol, modelled and proved

A Dafny model of the job, dead-letter and replay protocol of notifyctl, with
four companions: the event hub, the webhook worker's handling of one message,
the backoff arithmetic and the soft-deleting service store.

The server keeps no row locks. A send, a retry pass, a replay and the worker
share a job table, a dead-letter table, a bucketed stats table and a NATS
subject, and rely on the order of their writes, on one upsert and on
`ON CONFLICT DO NOTHING`. The theorems are about what that order buys.

- `domain`, `schema`, `query`: the rows, one function per SQL statement with
  its error conditions, and the declared constraints as an invariant. `stores`
  has the store classes and the broker over one shared database object.
- `scheduler`, `server`, `worker`: the handlers as methods on those objects,
  proved equal to the specification functions of `pipeline`. `poll` and `laws`
  say column by column what those functions come to.
- `coarse`: a state machine in which one job of a pass, one replay, one send,
  one dispatch and one delayed delivery are steps. Each call has an outcome:
  clean, lost before it took effect, or lost after it took effect. That covers
  errors and crashes at every point between two calls. Snapshots may be
  arbitrarily stale. `strands`, `batch`, `drain`, `budget`, `ledger`,
  `recovery`, `roundtrip` and `origins` build on it.
- `fine`: every SQL statement and every publish is a step, with any number of
  handlers. `apart` proves no loss for handlers kept apart, `overlaps` loses a
  job by each overlap, `adrift` says exactly when any run loses one. `races`,
  `replays` and `reburial` prove what racing passes and racing replays come to,
  `reached` that runs reach the states those theorems start from, and `grains`
  that an undisturbed handler is its coarse step.
- `stats`, `services`, `hub`, `fanout`, `filters`, `webhook`, `records`,
  `backoff`, `jitter`: the companions.

## What turned out false

- "No job is lost" is false of interleaved handlers. A job counts as lost when
  it is neither DELIVERED nor FAILED and no message, no letter and no handler
  with a call to make is left for it. Four
  overlaps lose one: a delivery written between a pass's publish and its PENDING
  write; a replay that resets between a pass's letter and its DEAD_LETTERED
  write; a pass that starts to bury between a replay's reset and its delete,
  where the replay's delete is the step that loses the job; and, when a publish
  is cut, a replay that looks the letter up while another is under way. With
  sends and the worker's writes taking effect, no run loses a job if and only if
  all four are kept from happening (`Overlaps.NoLossExactlyWhenApart`), and no
  run without a cut if and only if the first three are
  (`Overlaps.NoCleanLossExactlyWhenApart`). `Adrift.LostExactlyWhen` is exact
  for every run, whatever is cut and whatever overlaps. So the comment at
  internal/retry/scheduler.go:149-153 holds for one pass alone
  (`Recovery.BurialRecovers`), and the comment at
  internal/server/notify.go:326-331, that a replay is safely repeatable, for
  one replay alone (`Recovery.ReplayRecovers`).
- A replay inside a burial leaves the job DEAD_LETTERED without a letter, but
  with the replay's message still on the queue (`Grains.ReplayInsideBurial`);
  the job is lost if that message was delivered before the status write
  (`Overlaps.ReplayInBurialLoses`).
- A stale pass can bury a replayed job again, which
  e2e/dlq_e2e_test.go:252-255 rules out. It can if and only if some pass has an
  exhausted snapshot of the job ahead (`Reburial.ReburialExactly`).
- The FAILED stat counts passes, not jobs: `Races.RacingPassesOvercount` gives
  the exact surplus and `Reached.TwoPassesCountTwice` a run with a surplus of
  one.
- No job is stranded silently at the coarse grain only while sends complete and
  the worker's status writes succeed. `Strands.StrandedExactlyWhen` says, for
  every run with any faults, exactly when a job ends stranded.
- `WebhookWorker` increments a local copy of the attempt count. A redelivered
  message carries the old one, so its retry budget is spent at once or never
  (`Webhook.BudgetSpentAtOnceOrNever`).
- README.md:14 backs retries by JetStream; the wired scheduler and worker use a
  plain NATS subject, which the model assumes to deliver each message once.
- The backoff delay of a pass is only logged; what spaces retries is the
  `next_retry_at` that the caller of `FailJob` chose, and nothing in the wired
  code calls `FailJob`. It is a step of the environment here.

## Model

| member | source | states |
|---|---|---|
| Coarse.NoSilentLoss | internal/retry/scheduler.go:113-185 | over every run from empty tables, with any cuts of passes and replays, any stale snapshots and any failures, but completed sends and working worker writes: ACCEPTED has a message in flight, PENDING a message or a letter, DISPATCHED a pending delivery, FAILED a retry time, DEAD_LETTERED exactly one letter |
| Coarse.StrandedOnlyIfReported | internal/worker/worker.go:43-64 | over every run at all, a job found nowhere is one whose sender got an error or whose worker saw a write fail |
| Coarse.InvOverRuns | internal/server/notify.go:326-361 | provenance, declared constraints and traceability of every job survive any run of cut handlers |
| Strands.StrandedExactlyWhen | internal/worker/worker.go:43-64 | over every run with any faults, a job ends with no message, no sleeping delivery and no letter, neither DELIVERED nor FAILED, if and only if some step stranded it and none after that rescued it |
| Strands.StepStrandsExactly | internal/retry/scheduler.go:113-185 | for every step under any faults: passes, replays and failures strand nothing, a stranded job is rescued exactly by a further failure or an old snapshot a pass acts on, and the three steps below strand exactly as they say |
| Strands.SendStrandsExactly | internal/server/notify.go:164-190 | a send strands its new row if and only if it stops before its publish or the publish is lost |
| Strands.DispatchStrandsExactly | internal/worker/worker.go:43-64 | a dispatch strands a job if and only if its status write fails and no other message, no sleeping delivery and no letter leads to it |
| Strands.DeliveryStrandsExactly | internal/worker/worker.go:52-63 | a delayed delivery strands a job if and only if its DELIVERED write is lost and no message, no other sleeping delivery and no letter leads to it |
| Strands.ReplayStrandsNothing | internal/server/notify.go:348-361 | however a replay is cut, it strands nothing: the letter goes only after the message is out |
| Ledger.MessagesBalance | internal/server/notify.go:171-190 | over every run whose sends, replays, dispatches and deliveries succeed, whatever passes suffer: a service's ACCEPTED total and the messages passes put back equal its DISPATCHED total and what is queued, and its DISPATCHED total equals its DELIVERED total and what is asleep |
| Ledger.StepBalances | internal/worker/worker.go:43-63 | what each step adds to the two balances, from any reachable state |
| Coarse.LettersAreExhaustedJobs | internal/retry/scheduler.go:118-121 | every letter of any run carries at least MaxAttempts attempts, names an existing job with its service and payload, and is the only one for it |
| Coarse.LetterKeeps | internal/store/postgres/dead_letter.go:22-43 | storing a letter of a known exhausted job keeps every job findable, and an accepted insert leaves a letter for it |
| Coarse.ResetKeeps | internal/store/postgres/job.go:91-116 | a reset while the letter is still there keeps every job findable: the letter covers the window before the publish |
| Coarse.DeleteKeeps | internal/server/notify.go:353-361 | dropping the letter is safe once the job is PENDING with its message on the queue |
| Fine.ProvenanceOverRuns | internal/store/postgres/job.go:65-116 | at every interleaving with any faults, each letter, message and snapshot names an existing row with its service and payload, and neither column ever changes |
| Fine.ResetFindsRow | internal/store/postgres/job.go:91-103 | a replay about to reset always finds the row, so the upsert takes its conflict branch, and at most one letter names the job |
| Fine.FailedOnlyByFailJob | internal/store/postgres/job.go:78-89 | no other step makes a row FAILED |
| Fine.OutOfFailedStaysOut | internal/store/postgres/job.go:118-131 | once out of FAILED and until FailJob is called again, a job is in no snapshot taken later |
| Fine.PassesAreShaped | internal/store/postgres/job.go:118-131 | in every run each pass is over distinct jobs and at one of them while it has a call left |
| Apart.NoLossApart | internal/retry/scheduler.go:113-185 | over every interleaving from an empty machine, with any cuts of passes and any failures: a job whose handlers are kept apart is never lost, if replays take turns or none is cut between its reset and its publish |
| Apart.ShelteredOverRuns | internal/server/notify.go:326-361 | the invariant behind it, from any state: what each handler in the middle of its calls relies on is still there |
| Overlaps.NoLossExactlyWhenApart | internal/retry/scheduler.go:149-153 | for MaxAttempts from 2 to the largest INT and any set of overlaps that may happen, no run loses a job if and only if the set is empty |
| Overlaps.NoCleanLossExactlyWhenApart | internal/retry/scheduler.go:149-153 | for the same limits, no run without a cut loses a job if and only if no overlap but that of two replays may happen |
| Adrift.LostExactlyWhen | internal/server/notify.go:348-361 | over every run from an empty machine, whatever is cut and whatever overlaps: a job ends lost if and only if no handler has a call left for it, some call lost it and none after that saved it |
| Adrift.ActionIsExact | internal/retry/scheduler.go:113-185 | for every call under any faults, what loses a job (a late status write, a cut after a reset or at a publish, a late delete, a cut worker or send) and what saves it, exactly |
| Overlaps.DeliveryInRequeueLoses | internal/retry/scheduler.go:136-142 | a run from an empty machine without a cut, with that overlap alone, that loses a job at PENDING |
| Overlaps.ReplayInBurialLoses | internal/retry/scheduler.go:161-180 | the same, without a cut, for a replay and its delivery inside a burial, at DEAD_LETTERED |
| Overlaps.BurialInReplayLoses | internal/server/notify.go:353-361 | the same, without a cut, for a second burial, its letter absorbed, before a replay's delete, at DEAD_LETTERED |
| Overlaps.ReplayInReplayLoses | internal/server/notify.go:326-331 | the same for two replays that both looked the letter up, with one cut, the last call of the run, at PENDING |
| Races.RacingPassesBuryOnce | internal/retry/scheduler.go:154-184 | from an exhausted FAILED job, whatever passes held it before and whether or not a cut one left its letter, every interleaving of any number of passes, with replays of other jobs: if any took a snapshot of it, one letter and DEAD_LETTERED; and it is counted FAILED once a snapshot, and once for each earlier burial not counted yet |
| Races.RacingPassesOvercount | internal/retry/scheduler.go:182-184 | the stored FAILED total rises by that number and by the failures counted for other jobs |
| Reached.TwoPassesCountTwice | internal/retry/scheduler_dlq_concurrency_test.go:100-137 | two passes that both poll the job before either buries it: one letter, two failures counted |
| Reached.RaceStartReached | internal/store/postgres/job.go:78-89 | a run from an empty machine to a state the race starts from |
| Races.StatFollowsHistory | internal/store/postgres/job.go:188-202 | the stored FAILED total and the FAILED increments that took effect grow together over any run |
| Replays.ConcurrentReplaysConverge | internal/server/notify.go:310-361 | from a dead-lettered job that passes are past, the one that buried it included, any number of racing replays with the worker and passes end with the job DELIVERED on a new budget, no letter, never buried again, every owner answered OK or NotFound, and successes, resets and publishes equal and at least one |
| Replays.SomeReplaySucceeds | internal/server/notify_test.go:371-378 | once all replays of the letter have ended, wherever their messages are: at least one has succeeded, the other owners found no letter, the letter is gone, and resets and publishes each equal the successes |
| Reached.AtRestReached | e2e/dlq_e2e_test.go:252-280 | a run from an empty machine to such a dead-lettered job |
| Reburial.ReburialExactly | e2e/dlq_e2e_test.go:252-255 | from a dead-lettered job there is a fault-free run in which its owner's replay succeeds and the job is buried again, if and only if some pass has an exhausted snapshot of it ahead |
| Reburial.NeverBuried | internal/retry/scheduler.go:177-180 | with no such pass no run buries the job, whatever is cut, until it fails again |
| Reburial.PassBuriesInTheEnd | internal/retry/scheduler.go:113-121 | a pass with such a snapshot buries the job, however far it has to go |
| Replays.ReplaysOverRuns | internal/server/notify.go:326-361 | the invariant behind it: resets, publishes and deletes match how far each replay got, and a PENDING or DISPATCHED job has someone on the way |
| Grains.LoneReplayIsCoarse | internal/server/notify.go:299-369 | an undisturbed replay, call by call, is the coarse replay under every assignment of faults, answer included |
| Grains.LonePassIsCoarse | internal/retry/scheduler.go:106-147 | an undisturbed pass, call by call, is the coarse batch under every assignment of faults |
| Grains.LoneSendIsCoarse | internal/server/notify.go:144-195 | an undisturbed send, call by call, is the coarse send, answer included |
| Grains.LoneDispatchIsCoarse | internal/worker/worker.go:29-51 | an undisturbed dispatch is the coarse one and goes to sleep exactly if its write succeeded |
| Grains.LoneDeliveryIsCoarse | internal/worker/worker.go:52-63 | an undisturbed delivery is the coarse one |
| Grains.ReplayInsideBurial | internal/retry/scheduler.go:161-180 | a replay between the letter insert and the status write leaves DEAD_LETTERED without a letter, its message on the queue |
| Grains.DeliveryInsideRequeue | internal/retry/scheduler.go:136-142 | a delivery between the publish and the PENDING write leaves a delivered job at PENDING with nothing in flight |
| Recovery.BurialRecovers | internal/retry/scheduler.go:149-180 | dead-lettering cut any number of times anywhere and then run to its end gives the jobs and letters of one uninterrupted run |
| Recovery.ReplayRecovers | internal/server/notify.go:326-361 | the same for a replay |
| Recovery.LetterSurvivesUntilPublished | internal/server/notify.go:353-361 | however replays are cut, the letter is gone only if the job's message was published |
| Recovery.ExhaustionStoresFreshLetter | internal/retry/scheduler.go:161-180 | a job without a letter that spends its budget gets exactly one, with the fresh ID, its payload and its count |
| Recovery.CyclesRestore | e2e/dlq_e2e_test.go:123-154 | any number of dead-letter and replay cycles gives back the same job at PENDING with a new budget, the letters as they were and one publish a cycle |
| Recovery.CycleRestores | internal/server/notify.go:332-361 | one cycle, with the replay answering OK |
| RoundTrip.RoundTripOverRuns | e2e/dlq_e2e_test.go:123-154 | at any point of any run, anything happening before and in between: a burial stores exactly the fresh letter, and while it is there the owner's replay gives back the job with the service and payload it had, PENDING on a new budget, takes that letter alone and publishes once |
| RoundTrip.RunStable | internal/store/postgres/job.go:91-103 | over any run rows stay, with their service and payload |
| Origins.EverythingIsItsSenders | internal/server/notify.go:151-187 | over every run, every row, message, sleeping delivery, snapshot and letter has the service and the payload one send of its ID named, an empty object for none |
| Origins.LettersAreStored | internal/retry/scheduler.go:161-175 | over every run, every letter was stored by one burial, has stayed as it was since, and carries that burial's job, count, time and "max retries exceeded" |
| Origins.LaterBurialListedFirst | internal/store/postgres/dead_letter.go:45-52 | over every run on a clock that does not run backwards: of two letters of a caller, the one buried later is listed first, and is listed if the other is |
| Recovery.ReplaysDoNotInterfere | internal/server/notify.go:305-363 | any sequence of replays by one service leaves jobs, letters, stats and messages of all others as they were, although the reset writes by notification ID |
| Batch.OrderIrrelevant | internal/retry/scheduler.go:113-146 | any permutation of a batch, under any faults, ends in the same tables and queue |
| Batch.IterationsCommute | internal/retry/scheduler.go:113-146 | iterations of two different jobs commute |
| Batch.OutsideBatchUntouched | internal/retry/scheduler.go:113-146 | a pass leaves the row, letters and messages of every other job alone |
| Batch.FaultsStayWithTheirJob | internal/retry/scheduler.go:171-184 | a job of a batch ends as if it had been the only one |
| Batch.OnlyOwnFaultsMatter | internal/retry/scheduler.go:130-146 | two fault assignments that agree on a job give it the same outcome |
| Drain.BacklogDrains | internal/retry/scheduler.go:106-147 | k passes without faults leave max(0, n - 50k) of n due jobs; what they took and what is left is the backlog, each job once |
| Drain.PassHandles | internal/retry/scheduler.go:118-141 | each job of a pass is published once and PENDING below the limit, and otherwise DEAD_LETTERED with a letter and not published |
| Drain.PassShrinksDue | internal/store/postgres/job.go:118-131 | a pass takes exactly its batch out of the due set of any later moment |
| Drain.PassTakesEarliest | internal/store/postgres/job.go:121-124 | a pass takes its jobs in the order of next_retry_at, and no job it leaves for later was due before one it takes |
| Drain.BacklogInOrder | internal/retry/scheduler.go:106-147 | k passes without faults take the jobs of the backlog in the order of next_retry_at, and leave none due before one taken |
| Budget.RetryBudget | internal/retry/scheduler.go:60-62 | with one scheduler, between two replays a job is re-enqueued at most MaxAttempts - 1 times plus once a pass cut before its PENDING write |
| Budget.SpendingIsBounded | internal/store/postgres/job.go:78-89 | the same from any state, measured by the attempts left |
| Budget.PassIsCoarseRun | internal/retry/scheduler.go:106-147 | an atomic pass is a coarse run on fresh snapshots, so the budget applies to it |
| Budget.PollThenPassIsCoarseRun | internal/retry/scheduler.go:106-147 | a poll with its pass is a run of one scheduler, from any reachable state |
| RetryScheduler.Scheduler.ProcessRetries | internal/retry/scheduler.go:106-147 | the loop has exactly the effect of the specified batch, and a failed poll none; the batch holds the FAILED rows due, up to 50, in the order of next_retry_at, and no row left out is due before one taken |
| Poll.TopIsEarliestDue | internal/store/postgres/job.go:118-131 | an answer to the poll is, column by column, FAILED rows with a next_retry_at up to now, ascending, without repeats, as many as the limit allows, and none left out is due before one returned; both ways |
| RetryScheduler.Scheduler.DeadLetterJob | internal/retry/scheduler.go:154-185 | letter, then status, then stat, each only if the one before succeeded; Laws.BurialStores has their columns |
| NotifyService.NotifyServer.SendNotification | internal/server/notify.go:144-195 | tables, queue and answer under every outcome of its calls; an OK names the stored job, which Laws.SendStoresWhatWasSent spells out |
| NotifyService.NotifyServer.ReplayDeadLetter | internal/server/notify.go:299-369 | tables, queue and answer under every outcome, the scoping to the caller included |
| NotifyService.NotifyServer.ListDeadLetters | internal/server/notify.go:265-297 | exactly the caller's letters, newest first, all of them unless there are more than 100, and nothing for another service |
| Laws.SendAnswers | internal/server/notify.go:144-190 | a send is OK exactly for a registered service, JSON or no payload, a new ID and an insert and a publish that both answer; InvalidArgument exactly for no service; a failed stat changes no answer |
| Laws.SendStoresWhatWasSent | internal/server/notify.go:151-190 | after an OK the new row and the one new message carry the caller's service and payload, an empty object for none, ACCEPTED with no retries; no other row, message or letter changes and one ACCEPTED is counted |
| Laws.RefusedSendStoresNothing | internal/server/notify.go:144-169 | a send refused by its arguments or its insert changes nothing |
| Laws.BurialStores | internal/retry/scheduler.go:161-184 | a burial stores, under the fresh ID, the job's ID, service, payload and count with "max retries exceeded" and the time of the burial, marks the row and counts one FAILED |
| Laws.RetryPublishes | internal/retry/scheduler.go:124-142 | below the limit the row is published as it was read and its status alone becomes PENDING |
| Laws.ReplayAnswers | internal/server/notify.go:299-369 | InvalidArgument exactly for an empty ID, NotFound for no letter, PermissionDenied for another's, OK exactly when the caller's own letter can be reset and reset, publish and delete all answer, Internal for the rest; a failed stat changes no answer |
| Laws.RefusedReplayChangesNothing | internal/server/notify.go:299-346 | a replay refused before its reset changes nothing |
| Laws.ReplayRestores | internal/server/notify.go:332-369 | after an OK the row alone is PENDING with no retries and no retry time, its service and payload are out once more, its letter alone is gone and one ACCEPTED is counted |
| DispatchWorker.Worker.OnMessage | internal/worker/worker.go:29-65 | takes one message, writes, counts and puts a delivery to sleep only if the write succeeded |
| DispatchWorker.Worker.Wake | internal/worker/worker.go:52-63 | one sleeping delivery writes DELIVERED and counts, whatever the first write returned |
| Laws.DispatchMarks | internal/worker/worker.go:43-51 | a dispatch that gets through sets one status and counts one DISPATCHED |
| Laws.FailedDispatchStops | internal/worker/worker.go:43-47 | after a failed status write nothing is counted and no delivery is started |
| Laws.DeliveryCounts | internal/worker/worker.go:52-63 | a delivery counts one DELIVERED even if its status write failed |
| Stores.NotificationJobStore.Create | internal/store/postgres/job.go:19-40 | the row is inserted or, for a duplicate, a dangling service or a payload that is not JSON, refused |
| Stores.NotificationJobStore.UpdateStatus | internal/store/postgres/job.go:65-76 | only the status changes; an unknown ID is no error |
| Stores.NotificationJobStore.FailJob | internal/store/postgres/job.go:78-89 | FAILED, one more failure and the given time, unless the INT column would overflow |
| Stores.NotificationJobStore.ResetForReplay | internal/store/postgres/job.go:91-116 | PENDING on a new budget, with service and payload kept when the row exists |
| Stores.NotificationJobStore.GetRetryableJobs | internal/store/postgres/job.go:118-151 | FAILED rows whose next_retry_at has come, in its order, up to the limit, and none left out that is due before one returned |
| Stores.NotificationJobStore.IncrementStats | internal/store/postgres/job.go:188-202 | one more in the bucket of the hour |
| Schema.HourBucket | internal/store/postgres/job.go:188-196 | the bucket is the full hour at or before the time |
| Stores.DeadLetterStore.Create | internal/store/postgres/dead_letter.go:22-43 | a second letter for a notification is absorbed without error |
| Stores.DeadLetterStore.List | internal/store/postgres/dead_letter.go:45-91 | the newest 100 letters of the service, or of all for an empty ID |
| Stores.DeadLetterStore.GetByID | internal/store/postgres/dead_letter.go:93-128 | the row, or none, or an error |
| Stores.DeadLetterStore.DeleteByNotificationID | internal/store/postgres/dead_letter.go:130-136 | exactly the letters of the notification go |
| Stores.ServiceStore.Create | internal/store/postgres/service.go:21-43 | refused exactly when the ID exists or a live row has the name or the key hash |
| Stores.ServiceStore.Delete | internal/store/postgres/service.go:100-112 | stamps a live row; not found for a missing or deleted one |
| Stores.ServiceStore.GetByAPIKeyHash | internal/store/postgres/service.go:79-98 | a live service with the hash, if and only if there is one and the query answers |
| Query.Select | internal/store/postgres/job.go:121-149 | a sorted selection of the smallest keys with no row twice |
| Query.TopIsAllOrFull | internal/store/postgres/dead_letter.go:45-52 | an answer below its limit leaves no row out |
| Schema.IntegrityKept | internal/store/postgres/postgres.go:31-138 | no statement of any store can break a key, a unique or partial unique index or a foreign key |
| Schema.OneLetterEach | internal/store/postgres/postgres.go:100 | a notification with a letter has exactly one |
| Services.IntegrityOverRuns | internal/store/postgres/postgres.go:63-132 | the constraints hold after any run, so jobs, letters and stats reference existing services |
| Services.RowsOnlyRetire | internal/store/postgres/service.go:100-112 | a service row never vanishes, never changes but for one deletion stamp, and never revives |
| Services.KeyResolvesOnce | internal/store/postgres/service.go:79-98 | live services have distinct names and key hashes after any run |
| Services.NameFreedExactlyByDelete | internal/store/postgres/postgres.go:119-132 | a name and a key are refused while their row lives and accepted once it is deleted |
| Stats.BucketsRefineLog | internal/store/postgres/job.go:188-227 | after any sequence of increments with any times, the total of a status is the number of its calls, and a status is listed exactly if it has one |
| Stats.CountAddsOne | internal/store/postgres/job.go:188-202 | one increment adds one to one total and leaves every other |
| Stats.GetStats | internal/store/postgres/job.go:204-227 | the scan returns the total of each status that has a bucket and no other status |
| FanOut.SubscriberIsSent | internal/events/hub.go:25-63 | over any run in which publishes overlap under the read lock: consumed and buffered events are a subsequence of those sent to the subscriber, all of them if and only if its buffer was never full at a send, within capacity; and once no publish is under way, what was sent are exactly the matching publishes begun since it subscribed, each once |
| FanOut.NoSendOnClosed | internal/events/hub.go:31-53 | in any such run the next send, whichever it is, is on an open channel that belongs to its subscriber alone |
| FanOut.Account | internal/events/hub.go:44-52 | over any run, publishes begun for a channel and owed before are those sent to it and owed after, each as often |
| FanOut.LonePublish | internal/events/hub.go:40-53 | a publish that runs alone, its range in any order, leaves what Publish leaves |
| FanOut.OfferedInTurn | internal/events/hub.go:40-53 | if one publish has ended before another begins, every event the first sent on a channel comes before every one the second sent there |
| FanOut.RoomySubscriberIsSentAll | internal/events/hub.go:40-63 | a subscriber to which publishes come one at a time, with room for them, whatever else is published, read or subscribed in between, gets exactly their events in the order they began |
| EventHub.SubscriberSees | internal/events/hub.go:25-63 | over any run of whole publishes, consumed and buffered events are a subsequence of the matching events published while subscribed, all of them if and only if the buffer was never full at one, and within capacity |
| EventHub.GotWithinMeant | internal/events/hub.go:44-51 | what a channel takes in against what is meant for it, for any subscribed or former channel |
| EventHub.RunSeen | internal/events/hub.go:25-53 | consumed and buffered events are what the channel took in, in order; subscribed channels stay open, distinct and within capacity |
| EventHub.OkKept | internal/events/hub.go:31-38 | no operation leaves a subscriber with a closed or a shared channel |
| EventHub.FanOutIsPublished | internal/events/hub.go:44-52 | offering to each matching subscriber once, in whatever order, is one and the same publish |
| EventHub.RoomySubscriberSeesAll | internal/events/hub.go:40-63 | a subscriber matched by all of a sequence of events, with room for them, gets exactly that sequence |
| EventHub.Hub.Subscribe | internal/events/hub.go:25-29 | adds an empty open channel with its filter |
| EventHub.Hub.Unsubscribe | internal/events/hub.go:31-38 | closes the channel and forgets it; an unknown ID is no error |
| EventHub.Hub.Publish | internal/events/hub.go:40-53 | run alone, a subscriber gets the event at the end of its buffer exactly if there is room and the event has each ID its filter names, nobody else anything, and no send is on a closed channel |
| Filters.SubscriberSeesItsOwn | internal/events/hub.go:55-63 | over any run of whole publishes, every event a subscriber consumed or has in its buffer is of the notification its filter names, if any, and of the service it names, if any |
| Filters.SubscriberIsSentItsOwn | internal/events/hub.go:55-63 | the same while publishes overlap |
| Filters.MeantFromSubscription | internal/events/hub.go:25-63 | the events meant for a subscriber are those published before it unsubscribes that carry each ID its filter names, in order |
| Filters.WantedIsSent | internal/events/hub.go:40-63 | while publishes overlap: one that begins while a subscriber is there, of an event with each ID the filter names, is sent to it before all publishes have ended, and seen if its buffer never was full |
| Filters.ClosedExactlyByLeaving | internal/events/hub.go:31-38 | after any run a channel is closed if and only if its subscriber has left |
| Webhook.WebhookWorker.ProcessMessage | internal/worker/webhook.go:78-118 | one attempt record a webhook destination in order, the exact events, one settlement, and the dead letter with the last reason exactly when a destination failed at the limit |
| Webhook.WebhookWorker.DeliverAll | internal/worker/webhook.go:92-101 | the loop counts the failures and keeps the last reason |
| Webhook.WebhookWorker.DeliverWebhook | internal/worker/webhook.go:120-157 | queued, sending, then delivered or failed; the record says success exactly for a 2xx answer |
| Webhook.WebhookWorker.MoveToDLQ | internal/worker/webhook.go:159-181 | the letter is offered to the store and the message to the DLQ subject, whatever either answers |
| Webhook.DeliveriesAreTheWebhooks | internal/worker/webhook.go:94-101 | the deliveries are the webhook destinations, all and only, in order, each with its own answer |
| Webhook.TraceAt | internal/worker/webhook.go:134-156 | delivery k has events 3k to 3k+2 of the trace |
| Webhook.NoFailures | internal/worker/webhook.go:92-106 | a message counts no failure if and only if every answer was 2xx |
| Webhook.LastReasonIsLast | internal/worker/webhook.go:95-98 | the reason kept is that of the last delivery that failed |
| Webhook.SubscriberSeesTrace | internal/worker/webhook.go:183-197 | a hub subscriber to the notification with enough room sees exactly the trace of the message |
| Webhook.SubscriberSeesTraceInRuns | internal/worker/webhook.go:183-197 | the same while other publishes overlap and channels are read in between |
| Webhook.BudgetSpentAtOnceOrNever | internal/worker/webhook.go:108-117 | a redelivered message that keeps failing is retried for ever, if and only if its own count is below the limit |
| Records.AttemptIs | internal/worker/webhook.go:121-152 | the recorded attempt column by column: success exactly for codes 200 to 299, code and body of an answer, the error of none |
| Records.EventsAre | internal/worker/webhook.go:135-156 | the three events of delivery k field by field, the last with the text that fits the answer |
| Records.DecimalReadsBack | internal/worker/webhook.go:154 | a printed code reads back as the code, in digits without leading zeros |
| Records.VerdictIs | internal/worker/webhook.go:104-117 | a message is acknowledged exactly if every answer was a 2xx or the budget is spent, and otherwise comes back after the delay of its next attempt |
| Records.ParkedIs | internal/worker/webhook.go:162-175 | the parked letter column by column, and when the insert is refused |
| Backoffs.CappedMonotone | internal/retry/backoff.go:28-36 | the delay before jitter grows with the attempt and stays positive and within the cap |
| Backoffs.CapIsReached | internal/retry/backoff.go:33-36 | with a factor above one it equals the cap from some attempt on |
| Backoffs.DelayInBand | internal/retry/backoff.go:38-50 | every draw lands in the jitter band around the capped delay, lifted to 100 ms, up to the nanosecond fraction that is dropped |
| Backoffs.LaterDrawsExceedEarlier | internal/retry/backoff.go:28-51 | while uncapped and above the floor, every draw of an attempt exceeds every draw of the one before, if the factor outweighs the jitter |
| Backoffs.DelaysWithinGeometricSum | internal/retry/scheduler.go:64-72 | n consecutive delays stay within (1 + J) base (F^n - 1) / (F - 1), for any cap |
| Backoffs.DefaultDrawsExceed | internal/retry/config.go:13-21 | the shipped configuration is such a one, for every attempt below the cap |
| Jitter.CappedRecurs | internal/retry/backoff.go:29-36 | the delay before jitter is the base, then multiplied by the factor at each attempt, each time cut to the cap; a negative attempt is the first |
| Jitter.JitterIsEven | internal/retry/backoff.go:38-43 | draw 0 gives the low end of the band, and the delay moves up evenly with the draw |
| Jitter.LargerDrawLargerDelay | internal/retry/backoff.go:38-43 | with jitter a larger draw gives a larger delay and conversely; without it the draw has no effect |
| Jitter.EachDelayOneDraw | internal/retry/backoff.go:38-43 | each delay of the band, low end in and high end out, comes of exactly one draw, and no other delay of any |
| Jitter.DelayIsWhole | internal/retry/backoff.go:45-50 | the result is 100 ms below that floor and otherwise the whole nanoseconds of the jittered delay |
| Jitter.DefaultFigures | internal/retry/config.go:13-21 | the shipped delays in figures: 1 s doubled to 256 s and then 300 s for the middle draw, four fifths of that for draw 0 |

## Left out

- gRPC transport, the auth interceptors, SQL, NATS and HTTP themselves: a handler gets the service the interceptor resolved, and each call its outcome.
- The broker may not lose, duplicate or invent messages, and one worker subscribes. A message that cannot be decoded, which the worker drops, is not modelled.
- The clock, the ticker and the one-second sleep: times are parameters and a delayed delivery may happen at any later step.
- Fresh UUIDs: IDs are parameters, assumed distinct only where a theorem says so.
- created_at, updated_at, webhook URLs and secrets: nothing in the protocol reads them.
- Payloads are compared up to JSON equality, as a JSONB column does.
- The BIGINT overflow of a stats bucket and attempt counts outside INT in webhook messages.
- RegisterService, ListServices, DeleteService, ListNotificationJobs, StreamDeliveryStatus and StreamLogs handlers, ServiceStore.List and the job store's list methods: they only forward to a store or a hub.
- Migrate as a program: its final constraints are the invariant of the tables. The log hub repeats the event hub without filters.
- Concurrent registration and deletion of services at the fine grain; the coarse grain has both.
- CLI, terminal UI, configuration loading and generated code.
- Backoffs.DelayInBand: reads float64 as real and assumes a positive base and cap, a factor of at least one and a jitter between zero and one, as the configuration documents.
- Backoffs.DelaysWithinGeometricSum: for a base of at least the 100 ms floor, since with a smaller one the floor alone exceeds the sum.
- EventHub.Hub.Publish: overlapping publishes are runs of the machine in FanOut; the method is one that nothing overlaps.
- EventHub.Hub.Subscribe: for IDs and channels not in use, as the streaming handler draws them; a subscriber with a reused ID would silently replace the first.
- Fine.ProvenanceOverRuns: a handler that crashes takes no further step, or makes its remaining calls in vain; restarting it is a new handler.
- Webhook.WebhookWorker.ProcessMessage: the record and letter IDs and times are parameters, and an insert error of an attempt record, which is only logged, is not modelled.
