# Backend components: rate limiting, webhook delivery and their supporting libraries

A model of the stateful core of the repository and proofs about it. Each module models one component:

- `FixedWindow`, `TokenBucket`, `SlidingWindow`, `LeakyBucket`: the four rate-limiting algorithms, each as a machine over
  the store it uses, and each as a class proved against that machine. The fixed window and the token bucket run their
  store commands in any interleaving, and so does the sliding window in `SlidingInterleaved`; every awaited command, and
  the Lua script, is one atomic step. As in Redis, a key is still there at the very instant of its expiry and gone a
  millisecond later.
- `OutboxEvents`, `OutboxDelivery`: the record of one webhook delivery, its backoffs, the sending code and the retry sweep.
  The replies to POSTs come from an arbitrary oracle, and each may take any time.
- `EventsBroker`: the in-memory events broker and its repository of failed events, whose objects are changed in place.
  The outcomes of handlers come from an arbitrary oracle.
- `InMemoryCaches`, `QuotaCache`: the TTL cache, and the quota-limits repository behind it.
- `Cartesian`, `DeepEquality`, `Paginations`, `JobsScheduling`, `Intervals`: the algorithmic helpers.
- `StoreKeys`: the texts of the keys that the first three of them keep in one store.
- `Wrappers`, `OrderedMaps`, `Pairs`, `Sums`, `Quotas`: shared vocabulary.

Where the code does not keep a promise, the module has a lemma with a run or an input that shows it, and a lemma that says
exactly when it does:

- fixed window: a request that waits more than 1001 ms between reading the clock and its increments can find its counter
  expired, and the limit passed (`FixedWindow.SafeWithinIff`); one that rolls back later than that can leave a counter that
  never expires and reads too little (`FixedWindow.LateRollback`, `FixedWindow.RestExactIff`);
- token bucket: a tick that clamps a counter between an increment and its rollback leaves a negative counter, so that a
  later stretch passes the bound, although the bound from the start still holds (`TokenBucket.StretchSafeIff`);
- sliding window: two requests of one score in one instant are one member, and together pass the limit
  (`SlidingWindow.SafeIff`, `SlidingWindow.CountedIff`); a request that takes `delay` ms to settle lets another call prune
  what it should have counted, so that only intervals shorter by as much keep the bound
  (`SlidingInterleaved.SafeAfterIff`); a refused request stays counted (`SlidingWindow.RefusedStays`); and a quota call
  reports the times of requests instead of their scores (`SlidingWindow.SlidingWindowAlgorithm.GetQuota`);
- leaky bucket: ids with colons share queues (`LeakyBucket.SharedQueueIff`) and are reported wrongly
  (`LeakyBucket.ReportsRightIff`);
- all four limiters: ids with colons share what is kept of them (`FixedWindow.SharedCountersIff`,
  `TokenBucket.SharedCounterIff`, `SlidingWindow.SharedSetsIff`);
- outbox: the 44 h 35 min of a cancelled record fall short by as much as its first attempt takes from reading the clock
  for the next try to reading it for the first (`OutboxDelivery.SafeAfterIff`);
- quota limits: written behind the decorator, they are read stale for up to a day (`QuotaCache.StaleIff`);
- cache: `setNx` overwrites a stored value that counts as false (`InMemoryCaches.SetNxKeepsIff`);
- Cartesian product: arrays among the elements of the first array are spread (`Cartesian.AllCombinationsIff`);
- deep equality: a date equals a record without properties (`DeepEquality.StructuralIff`, `DeepEquality.TransitiveIff`);
- scheduler: a weekday that is today, with its slot over, runs on the next day instead (`JobsScheduling.OnTheDayIff`);
- intervals: a fraction or a power of ten is lost (`Intervals.ReadIff`).

`dafny verify dfyconfig.toml` checks the whole project.

## Model

| member | source | states |
|---|---|---|
| `FixedWindow.WindowBound` | src/components/rate-limiting-management/main/core/domain/algorithms/fixed-window-algorithm.ts:22-60 | over a store that never expires, in every interleaving of the increments, decisions and rollbacks of any number of requests, the score admitted in each second, minute, hour and day window never passes its limit |
| `FixedWindow.StepExact` | src/components/rate-limiting-management/main/core/domain/algorithms/fixed-window-algorithm.ts:37-59 | every command keeps, for every counter, value = admitted + undecided + awaiting rollback |
| `FixedWindow.QuiescentCounters` | src/components/rate-limiting-management/main/core/domain/algorithms/fixed-window-algorithm.ts:47-60 | over a store that never expires, once nothing is in flight every counter equals exactly what was admitted in its window |
| `FixedWindow.QuiescentExpiring` | src/components/rate-limiting-management/main/core/domain/algorithms/fixed-window-algorithm.ts:42-60 | over the expiring store, with increments within 1001 ms of reading the clock, the same of every counter up to its time to live (2 s, 61 s, 3601 s or 86401 s) after its window started |
| `FixedWindow.RestExactIff` | src/components/rate-limiting-management/main/core/domain/algorithms/fixed-window-algorithm.ts:37-60 | over the expiring store, with increments issued within `increments` ms and decrements within `decrements` ms of reading the clock, every counter that is there once nothing is in flight equals exactly what was admitted in its window if and only if neither passes 1001 |
| `FixedWindow.LateRollback` | src/components/rate-limiting-management/main/core/domain/algorithms/fixed-window-algorithm.ts:42-60 | a run in which a refused request that rolls back later than that leaves a counter of -1 without an expiry, although one request was admitted |
| `FixedWindow.BurstBound` | src/components/rate-limiting-management/main/core/domain/algorithms/fixed-window-algorithm.ts:30-51 | over a store that never expires, any span of one width, wherever it starts, admits at most twice the limit |
| `FixedWindow.BurstBoundExpiring` | src/components/rate-limiting-management/main/core/domain/algorithms/fixed-window-algorithm.ts:30-51 | over the expiring store, with increments within 1001 ms of reading the clock, the same |
| `FixedWindow.OpenWindowsLive` | src/components/rate-limiting-management/main/core/domain/algorithms/fixed-window-algorithm.ts:42-45 | expiry never drops a counter whose window is open, nor in the second after it closes |
| `FixedWindow.ExpiryUnobservable` | src/components/rate-limiting-management/main/core/domain/algorithms/fixed-window-algorithm.ts:37-45 | when increments are issued within 1001 ms of reading the clock, the expiring store answers and decides exactly as one that never expires |
| `FixedWindow.SafeWithinIff` | src/components/rate-limiting-management/main/core/domain/algorithms/fixed-window-algorithm.ts:28-51 | over the expiring store, with increments up to `delay` ms after the clock was read, the bound holds if and only if `delay` <= 1001 |
| `FixedWindow.CalendarBounds` | src/components/rate-limiting-management/main/core/domain/algorithms/fixed-window-algorithm.ts:22-60 | in numbers, over either store: each calendar second, minute, hour and day admits at most what is allowed per second, minute, hour and day |
| `FixedWindow.RunNear` | src/components/rate-limiting-management/main/core/domain/algorithms/fixed-window-algorithm.ts:42-45 | in every run a counter left alone for its width and one second, 2 s, 61 s, 3601 s or 86401 s, has reached its expiry |
| `FixedWindow.SameBaseIff` | src/components/rate-limiting-management/main/core/domain/algorithms/fixed-window-algorithm.ts:139-141 | two pairs of ids share their counters if and only if user id, colon and token make one text |
| `FixedWindow.SharedCountersIff` | src/components/rate-limiting-management/main/core/domain/algorithms/fixed-window-algorithm.ts:139-141 | so a pair shares its counters with another pair if and only if one of its ids holds a colon |
| `FixedWindow.LoneRequest` | src/components/rate-limiting-management/main/core/domain/algorithms/fixed-window-algorithm.ts:37-60 | a request nothing overlaps is admitted exactly when it fits all four windows; refused, it leaves every counter as it was |
| `FixedWindow.FixedWindowAlgorithm.Request` | src/components/rate-limiting-management/main/core/domain/algorithms/fixed-window-algorithm.ts:22-91 | leaves the store of the thirteen commands, succeeds exactly when the score fits, reports limit, remaining and reset of each window, leaves every counter of every other colon-free pair as it was, and lets its own four expire in 2, 61, 3601 and 86401 s |
| `FixedWindow.FixedWindowAlgorithm.GetQuota` | src/components/rate-limiting-management/main/core/domain/algorithms/fixed-window-algorithm.ts:93-137 | reports the same four counters, a missing one as zero, and changes nothing |
| `TokenBucket.AdmittedBound` | src/components/rate-limiting-management/main/core/domain/algorithms/token-bucket-algorithm.ts:35-51 | from an empty store every interleaving of requests, rollbacks and ticks admits at most capacity + ticks * fillRate |
| `TokenBucket.StretchBound` | src/components/rate-limiting-management/main/core/domain/algorithms/token-bucket-algorithm.ts:35-51 | any stretch of any interleaving admits at most capacity + refills - what the counter holds beyond pending rollbacks |
| `TokenBucket.StretchSafeIff` | src/components/rate-limiting-management/main/core/domain/algorithms/token-bucket-algorithm.ts:43-49 | the bound holds for every continuation of a state if and only if the counter covers the rollbacks still pending |
| `TokenBucket.ClampCanOvershoot` | src/components/rate-limiting-management/main/core/domain/algorithms/token-bucket-algorithm.ts:147-160 | a run in which a clamping tick falls between an increment and its rollback and breaks that condition |
| `TokenBucket.TickRefills` | src/components/rate-limiting-management/main/core/domain/algorithms/token-bucket-algorithm.ts:147-160 | a tick keeps every key and lowers each counter by the fill rate, though not below zero |
| `TokenBucket.QuietRefills` | src/components/rate-limiting-management/main/core/domain/algorithms/token-bucket-algorithm.ts:147-160 | the converse of the bound: however other keys are asked, n ticks lower a counter v that nobody asks on to max(0, v - n * fillRate) |
| `TokenBucket.RefilledAdmitsIff` | src/components/rate-limiting-management/main/core/domain/algorithms/token-bucket-algorithm.ts:43-51 | so after n ticks a score is admitted if and only if it fits the capacity and what they have given back |
| `TokenBucket.SameKeyIff` | src/components/rate-limiting-management/main/core/domain/algorithms/token-bucket-algorithm.ts:108-110 | two pairs of ids share a counter if and only if user id, colon and token make one text |
| `TokenBucket.SharedCounterIff` | src/components/rate-limiting-management/main/core/domain/algorithms/token-bucket-algorithm.ts:108-110 | so a pair shares its counter with another pair if and only if one of its ids holds a colon |
| `TokenBucket.AskAlone` | src/components/rate-limiting-management/main/core/domain/algorithms/token-bucket-algorithm.ts:43-51 | a request alone is admitted exactly when it fits; a refused one leaves every counter as it was |
| `TokenBucket.SequentialStretch` | src/components/rate-limiting-management/main/core/domain/algorithms/token-bucket-algorithm.ts:35-51 | without overlap, counters stay within 0..capacity between operations and every stretch of the run keeps the bound |
| `TokenBucket.ApplyAllIsRun` | src/components/rate-limiting-management/main/core/domain/algorithms/token-bucket-algorithm.ts:35-51 | a run of whole operations is an interleaving of the machine |
| `TokenBucket.TokenBucketAlgorithm.Request` | src/components/rate-limiting-management/main/core/domain/algorithms/token-bucket-algorithm.ts:35-75 | counters and answer are those of a lone request of the machine; success reports the four limits, what is left of the capacity and a reset in a second; the counters of all other colon-free pairs stay as they were |
| `TokenBucket.TokenBucketAlgorithm.ResetRates` | src/components/rate-limiting-management/main/core/domain/algorithms/token-bucket-algorithm.ts:147-160 | keeps every key and lowers each counter by the fill rate, though not below zero, in whatever order the keys come |
| `SlidingWindow.IntervalBound` | src/components/rate-limiting-management/main/core/domain/algorithms/sliding-window-algorithm.ts:28-81 | for every width and every interval (t, t+W], at most the limit is admitted, whatever quota calls are mixed in, when no two requests of one positive score share an instant |
| `SlidingWindow.SafeIff` | src/components/rate-limiting-management/main/core/domain/algorithms/sliding-window-algorithm.ts:28-81 | whichever of given calls are made and whatever limits they carry, every interval keeps the bound if and only if no two of them ask for one positive score in one instant |
| `SlidingWindow.SafeApartIff` | src/components/rate-limiting-management/main/core/domain/algorithms/sliding-window-algorithm.ts:28-81 | calls whose requests are at least `gap` ms apart keep the bound if and only if `gap` >= 1 |
| `SlidingWindow.AnySpanBounds` | src/components/rate-limiting-management/main/core/domain/algorithms/sliding-window-algorithm.ts:28-81 | in numbers: any 1 s, 60 s, 3600 s and 86400 s admit at most what is allowed per second, minute, hour and day, when no two requests of one positive score share an instant |
| `SlidingWindow.SameBaseIff` | src/components/rate-limiting-management/main/core/domain/algorithms/sliding-window-algorithm.ts:167-169 | two pairs of ids share their sets if and only if user id, colon and token make one text |
| `SlidingWindow.SharedSetsIff` | src/components/rate-limiting-management/main/core/domain/algorithms/sliding-window-algorithm.ts:167-169 | so a pair shares its sets with another pair if and only if one of its ids holds a colon |
| `SlidingInterleaved.IntervalBound` | src/components/rate-limiting-management/main/core/domain/algorithms/sliding-window-algorithm.ts:28-81 | in every interleaving of single commands in which each request settles within `delay` < 1000 ms, every interval shorter than the window by `delay` admits at most the limit |
| `SlidingInterleaved.SafeAfterIff` | src/components/rate-limiting-management/main/core/domain/algorithms/sliding-window-algorithm.ts:28-81 | with requests settled within `delay` ms, all intervals shorter than the window by `lost` ms, for `lost` below 999, keep the bound if and only if `delay` <= `lost`; for whole windows, only without delay |
| `SlidingInterleaved.AloneIsServe` | src/components/rate-limiting-management/main/core/domain/algorithms/sliding-window-algorithm.ts:28-81 | uninterrupted, and at the instant it read the clock, the commands of a request do and decide what the one call of the sequential model does |
| `SlidingWindow.RunCovers` | src/components/rate-limiting-management/main/core/domain/algorithms/sliding-window-algorithm.ts:32-66 | after any mix of requests and quota calls, each set holds exactly once every request of the last W ms, and outlives them |
| `SlidingWindow.CountedIff` | src/components/rate-limiting-management/main/core/domain/algorithms/sliding-window-algorithm.ts:33-66 | a request counts at most what its window was asked for, refused requests included, and exactly that if and only if no two requests of one positive score share an instant |
| `SlidingWindow.RefusedStays` | src/components/rate-limiting-management/main/core/domain/algorithms/sliding-window-algorithm.ts:74-81 | the range a refused request removes is empty, so it stays counted |
| `SlidingWindow.RepeatOvershoots` | src/components/rate-limiting-management/main/core/domain/algorithms/sliding-window-algorithm.ts:33-36 | on any key, at any instant and for any score, two equal requests under a limit of that score are both admitted |
| `SlidingWindow.SlidingWindowAlgorithm.Request` | src/components/rate-limiting-management/main/core/domain/algorithms/sliding-window-algorithm.ts:22-112 | sets and verdict are those of the model; success reports what each window has left; admitted or not, its own four sets expire in 2, 61, 3601 and 86401 s and those of all other colon-free pairs stay as they were |
| `SlidingWindow.SlidingWindowAlgorithm.GetQuota` | src/components/rate-limiting-management/main/core/domain/algorithms/sliding-window-algorithm.ts:114-165 | prunes the four sets as the model does, and reports as left the limit less the times of the members it keeps, where a request takes off their scores |
| `LeakyBucket.FifoFromEmpty` | src/components/rate-limiting-management/main/core/domain/algorithms/leaky-bucket-algorithm.ts:49-71 | after any run, for every key, released followed by queued is what was accepted, in order, and no queue passes the capacity |
| `LeakyBucket.ResolvesOnTick` | src/components/rate-limiting-management/main/core/domain/algorithms/leaky-bucket-algorithm.ts:145-186 | a request queued behind p others is released on exactly the (p / leaksPerSecond + 1)-th later tick |
| `LeakyBucket.NoneTwice` | src/components/rate-limiting-management/main/core/domain/algorithms/leaky-bucket-algorithm.ts:49-71 | no accepted request is released twice, nor released and still queued |
| `LeakyBucket.ReverseKeyIff` | src/components/rate-limiting-management/main/core/domain/algorithms/leaky-bucket-algorithm.ts:135-143 | reverseKey undoes key if and only if neither id holds a colon |
| `LeakyBucket.SharedQueueIff` | src/components/rate-limiting-management/main/core/domain/algorithms/leaky-bucket-algorithm.ts:135-137 | a pair shares its queue with another pair if and only if one of its ids holds a colon |
| `LeakyBucket.TickReports` | src/components/rate-limiting-management/main/core/domain/algorithms/leaky-bucket-algorithm.ts:147-184 | with colon-free ids the i-th request released from a queue of n reports its limits and a reset in a second, capacity - n + i left per second, and 60, 3600 and 86400 times the leaks more per minute, hour and day; the last one reports what quota answers right after |
| `LeakyBucket.ReportsRightIff` | src/components/rate-limiting-management/main/core/domain/algorithms/leaky-bucket-algorithm.ts:139-182 | the releases to a pair report right, on every tick and whatever is queued, if and only if neither of its ids holds a colon |
| `LeakyBucket.ColonOverreports` | src/components/rate-limiting-management/main/core/domain/algorithms/leaky-bucket-algorithm.ts:150-164 | with a colon in either id the first request released reports one place more than the capacity |
| `LeakyBucket.LeakyBucketAlgorithm.Create` | src/components/rate-limiting-management/main/core/domain/algorithms/leaky-bucket-algorithm.ts:33-47 | a capacity or a leak below 1 is refused, the capacity first |
| `LeakyBucket.LeakyBucketAlgorithm.Request` | src/components/rate-limiting-management/main/core/domain/algorithms/leaky-bucket-algorithm.ts:49-71 | refuses exactly at capacity, and otherwise appends the request to its queue |
| `LeakyBucket.LeakyBucketAlgorithm.Tick` | src/components/rate-limiting-management/main/core/domain/algorithms/leaky-bucket-algorithm.ts:145-186 | one tick is one step of the machine: fronts of all queues released, each told its limits, a reset in a second, and per minute, hour and day 60, 3600 and 86400 times the leaks more than per second |
| `LeakyBucket.LeakyBucketAlgorithm.GetQuota` | src/components/rate-limiting-management/main/core/domain/algorithms/leaky-bucket-algorithm.ts:73-99 | reports the four limits, capacity less queue length per second and 60, 3600 and 86400 times the leaks more per minute, hour and day, with a reset only where a queue exists |
| `StoreKeys.CounterTextIff` | src/components/rate-limiting-management/main/core/domain/algorithms/fixed-window-algorithm.ts:37-57 | two counters of the fixed window have one key in the store if and only if base, unit and window start agree |
| `StoreKeys.SetTextIff` | src/components/rate-limiting-management/main/core/domain/algorithms/sliding-window-algorithm.ts:32-36 | two sets of the sliding window have one key if and only if base and unit agree |
| `StoreKeys.StoresApart` | src/components/rate-limiting-management/main/core/domain/algorithms/token-bucket-algorithm.ts:147-160 | the script of the timer finds the counter of every pair and no key of the other two limiters, and those never share one |
| `OutboxEvents.AttemptLawful` | src/components/webhooks-management/main/core/domain/outbox-event.ts:59-104 | an allowed attempt keeps the record lawful: pending iff no tries iff no first try, failed means 1..6 tries, cancelled 7, a next try exactly for pending and failed; it adds one try and keeps the first-try instant |
| `OutboxEvents.CreatedLawful` | src/components/webhooks-management/main/core/domain/outbox-event.ts:31-57 | creation succeeds exactly for a supported event and gives a lawful, retryable record |
| `OutboxEvents.OutcomeRemembers` | src/components/webhooks-management/main/core/domain/outbox-event.ts:59-92 | whatever the reply, it is remembered with its instant, a first try keeps its own, the next is due by the table of backoffs, and what is delivered to whom never changes |
| `OutboxEvents.BackoffsGrow` | src/components/webhooks-management/main/core/domain/outbox-event.ts:106-125 | six backoffs between 5 minutes and 24 hours, each at least twice the one before, and none after the seventh failure |
| `OutboxEvents.BackoffTable` | src/components/webhooks-management/main/core/domain/outbox-event.ts:106-125 | the backoffs are 5 and 30 minutes, 2, 6, 12 and 24 hours, and none after that |
| `OutboxEvents.CancelledTook` | src/components/webhooks-management/main/core/domain/outbox-event.ts:106-125 | a cancelled record was tried over at least 44 h 35 min, the sum of the six backoffs, less what a slow first attempt takes off: at most the time from its reading of the clock for the next try to that for the first, and at most five minutes |
| `OutboxEvents.MaxRetriesNeverDecides` | src/components/webhooks-management/main/core/domain/outbox-event.ts:94-104 | on lawful records the test against the maximum of retries never decides |
| `OutboxDelivery.RunAccounted` | src/components/webhooks-management/main/core/domain/send-webhook-event.ts:15-150 | in every run records stay lawful and posted once per try; settled records and first-try instants never change |
| `OutboxDelivery.AtMostSevenPosts` | src/components/webhooks-management/main/core/domain/outbox-event.ts:94-127 | no record is posted more than seven times, however creations, attempts and replies are ordered |
| `OutboxDelivery.EveryPostAddressed` | src/components/webhooks-management/main/core/domain/send-webhook-event.ts:15-150 | in every run each POST for a record went to its delivery URL, under its webhook id, with its event, and was signed with its secret |
| `OutboxDelivery.PostsSpaced` | src/components/webhooks-management/main/core/domain/outbox-event.ts:94-125 | in every run, however slow the clock is read, the POSTs for a record are at least 5 and 30 minutes, 2, 6, 12 and 24 hours apart |
| `OutboxDelivery.CancelledRecord` | src/components/webhooks-management/main/core/domain/outbox-event.ts:73-125 | a cancelled record was posted exactly seven times over at least 44 h 35 min, less the longest time an attempt took from its reading of the clock for the next try to that for the first, and less five minutes at most |
| `OutboxDelivery.SafeAfterIff` | src/components/webhooks-management/main/core/domain/outbox-event.ts:73-125 | when no attempt takes more than `gap` ms between those two readings, every cancelled record of every run was tried over at least 44 h 35 min less `lost` if and only if `gap` <= `lost` or `lost` is five minutes at least |
| `OutboxDelivery.SpanFallsShort` | src/components/webhooks-management/main/core/domain/outbox-event.ts:73-92 | a run of a creation, a slow failed attempt and six more on time that falls short by more than `lost`, for any `lost` below five minutes |
| `OutboxDelivery.StepMeasure` | src/components/webhooks-management/main/core/domain/send-webhook-event.ts:116-150 | every POST lowers the tries left on live records; only a new record adds any, and it adds seven |
| `OutboxDelivery.RunMeasure` | src/components/webhooks-management/main/core/domain/send-webhook-event.ts:116-150 | so a run posts at most the tries left plus seven for each record created |
| `OutboxDelivery.DeliverSnapshot` | src/components/webhooks-management/main/core/scheduled-jobs/retry-outbox-events-scheduled-job.ts:23-29 | delivering a snapshot is the run of its guarded attempts, posts each record once in order, where and as it says, adds one try to each and leaves the rest |
| `OutboxDelivery.RetryOutboxEventsScheduledJob.Sweep` | src/components/webhooks-management/main/core/scheduled-jobs/retry-outbox-events-scheduled-job.ts:23-29 | on any repository contents the sweep never meets the guard, posts exactly the records retryable when it began, once each, to their URLs and signed with their secrets, and leaves every other record unchanged |
| `OutboxDelivery.InMemoryOutboxEventRepository.AllToRetry` | src/components/webhooks-management/main/infra/in-memory-outbox-event-repository.ts:27-29 | exactly the retryable records, once each, in the order they were stored |
| `OutboxDelivery.InMemoryOutboxEventRepository.CreateBatch` | src/components/webhooks-management/main/infra/in-memory-outbox-event-repository.ts:11-13 | stores the batch in order |
| `OutboxDelivery.SendEventToWebhook` | src/components/webhooks-management/main/core/domain/send-webhook-event.ts:15-50 | an unsupported event stores and posts nothing; any other is created and posted once, to the URL of the webhook, under its id, signed with its secret |
| `OutboxDelivery.SendEventToWebhooks` | src/components/webhooks-management/main/core/domain/send-webhook-event.ts:52-114 | if any webhook does not support the event nothing is stored or posted; otherwise each gets one record and one POST, to its URL, under its id, signed with its secret |
| `OutboxDelivery.BatchCreated` | src/components/webhooks-management/main/core/domain/send-webhook-event.ts:64-79 | a batch stores its fresh records in order, each pending and ready for its first POST, and keeps all others |
| `OutboxDelivery.RetryOutboxEvent` | src/components/webhooks-management/main/core/domain/send-webhook-event.ts:116-150 | refused, with nothing posted, exactly when the record may not be retried; otherwise posted once, where and as the record says |
| `EventsBroker.RecordsAreFailures` | src/lib/messages-broker/main/events-broker/in-memory-events-broker/in-memory-events-broker.ts:32-76 | in every run the failed records are exactly the deliveries that failed, one each, in order |
| `EventsBroker.PublishLeaves` | src/lib/messages-broker/main/events-broker/in-memory-events-broker/in-memory-events-broker.ts:32-76 | a publication calls each handler it reaches once, universal handlers first; each call succeeds or leaves exactly one record, and earlier records stay as they were |
| `EventsBroker.PublishOrder` | src/lib/messages-broker/main/events-broker/in-memory-events-broker/in-memory-events-broker.ts:32-76 | call by call: the universal handlers in the order of their registration, then those of the name of the event in theirs, each with that event and session |
| `EventsBroker.RecordStems` | src/lib/messages-broker/main/events-broker/in-memory-events-broker/in-memory-events-broker.ts:36-71 | in every run each record stems from a first call that failed; its maximum, and a bound of its retries, is what the configuration of that call handler allows, none if it says nothing |
| `EventsBroker.BoundedRetries` | src/lib/messages-broker/main/events-broker/in-memory-events-broker/in-memory-events-broker.ts:82-107 | over any run a failed delivery is retried at most handlerMaxRetries times and never after a success; the record tells how often and whether |
| `EventsBroker.RetriedUnlessDone` | src/lib/messages-broker/main/events-broker/in-memory-events-broker/in-memory-events-broker.ts:82-107 | as long as its handler stays registered, a record has either succeeded or been retried once by every retry run, up to its maximum and no further |
| `EventsBroker.RetriedToMaximum` | src/lib/messages-broker/main/events-broker/in-memory-events-broker/in-memory-events-broker.ts:82-107 | so a delivery that always fails is retried exactly as often as its handler allows, once enough retry runs have come |
| `EventsBroker.RetryAccounted` | src/lib/messages-broker/main/events-broker/in-memory-events-broker/in-memory-events-broker.ts:82-107 | a retry run tries each record that may be retried and whose handler is registered exactly once, by a handler a publication of that event would reach, and touches nothing else |
| `EventsBroker.RunGood` | src/lib/messages-broker/main/events-broker/in-memory-events-broker/in-memory-events-broker.ts:32-150 | publications, retries, registrations and clears in any order keep the account of failures and the registry consistent |
| `EventsBroker.RegisterConsistent` | src/lib/messages-broker/main/events-broker/in-memory-events-broker/in-memory-events-broker.ts:109-145 | registering is refused exactly for an id in use, ignored when disabled, and otherwise adds one handler, behind those already in its list; no id is ever registered twice and each list holds its own event |
| `EventsBroker.FindsAudience` | src/lib/messages-broker/main/events-broker/in-memory-events-broker/in-memory-events-broker.ts:86-92 | a retry finds exactly the handler of that id that a publication of the same event reaches |
| `EventsBroker.OneHandlerPerId` | src/lib/messages-broker/main/events-broker/in-memory-events-broker/in-memory-events-broker.ts:109-145 | registered handlers of one id are one handler |
| `EventsBroker.InMemoryEventsBroker.Publish` | src/lib/messages-broker/main/events-broker/in-memory-events-broker/in-memory-events-broker.ts:32-76 | state after is that of the model: calls in order, and a fresh record object for each failure |
| `EventsBroker.InMemoryEventsBroker.RetryFailedEvents` | src/lib/messages-broker/main/events-broker/in-memory-events-broker/in-memory-events-broker.ts:82-107 | state after is that of the model; the stored record objects are changed where they stand |
| `EventsBroker.InMemoryEventsBroker.RegisterEventHandler` | src/lib/messages-broker/main/events-broker/in-memory-events-broker/in-memory-events-broker.ts:109-128 | the registry after is that of the model, or unchanged with the error |
| `EventsBroker.InMemoryEventsBroker.RegisterUniversalEventHandler` | src/lib/messages-broker/main/events-broker/in-memory-events-broker/in-memory-events-broker.ts:130-145 | the registry after is that of the model, or unchanged with the error |
| `EventsBroker.InMemoryEventsBroker.Clear` | src/lib/messages-broker/main/events-broker/in-memory-events-broker/in-memory-events-broker.ts:147-150 | empties both registries and no record |
| `EventsBroker.InMemoryFailedEventsRepository.Save` | src/lib/messages-broker/main/events-broker/in-memory-events-broker/data-access/in-memory-failed-events-repository.ts:6-8 | stores the object under its id; an object saved again keeps its place |
| `EventsBroker.InMemoryFailedEventsRepository.FindAllUnsuccessfulWithRetriesLessThanMax` | src/lib/messages-broker/main/events-broker/in-memory-events-broker/data-access/in-memory-failed-events-repository.ts:10-14 | exactly the stored objects not yet successful and below their maximum, in order |
| `InMemoryCaches.LazyDeletionUnseen` | src/lib/cache/main/in-memory-cache.ts:21-57 | after any timed run, every key reads as what was last written under it unless that has expired: deleting lazily is never seen |
| `InMemoryCaches.ReadUntil` | src/lib/cache/main/in-memory-cache.ts:21-43 | a value set with a time to live is read until that has passed, to the very millisecond, whatever becomes of other keys; without one, or with 0, for ever |
| `InMemoryCaches.SetNxKeepsIff` | src/lib/cache/main/in-memory-cache.ts:45-53 | setNx keeps what it finds if and only if that counts as true or is written again |
| `InMemoryCaches.ZeroOverwritten` | src/lib/cache/main/in-memory-cache.ts:45-53 | a stored 0 is overwritten although it has not expired |
| `InMemoryCaches.InMemoryCache.GetValue` | src/lib/cache/main/in-memory-cache.ts:21-35 | answers a live entry, deletes an expired one, and changes nothing else |
| `InMemoryCaches.InMemoryCache.SetIfAbsent` | src/lib/cache/main/in-memory-cache.ts:45-53 | answers false and keeps the entry exactly when a live value counts as true |
| `QuotaCache.CachedIsPlain` | src/components/rate-limiting-management/main/infra/quota-limits-repository-cache-decorator.ts:14-45 | over any sequential run with any time passing and any entries dropped, each read answers what the repository alone would |
| `QuotaCache.StaleAtMostADay` | src/components/rate-limiting-management/main/infra/quota-limits-repository-cache-decorator.ts:14-31 | when the repository is also written directly, a read answers what the repository held at some instant of the last day |
| `QuotaCache.StaleIff` | src/components/rate-limiting-management/main/infra/quota-limits-repository-cache-decorator.ts:14-45 | after any operations a read differs from the repository if and only if the operation that cached its answer, told by the operations alone, is at most a day old and other limits have been written since |
| `QuotaCache.StaleRead` | src/components/rate-limiting-management/main/infra/quota-limits-repository-cache-decorator.ts:14-31 | limits written behind the decorator are not seen by the next read |
| `QuotaCache.UndisturbedSince` | src/components/rate-limiting-management/main/infra/quota-limits-repository-cache-decorator.ts:14-45 | since that operation nothing dropped the entry and the decorator updated it no more |
| `QuotaCache.StaleByOthers` | src/components/rate-limiting-management/main/infra/quota-limits-repository-cache-decorator.ts:14-45 | so a stale read comes only after a write behind the decorator |
| `QuotaCache.QuotaLimitsRepositoryCacheDecorator.OfUserId` | src/components/rate-limiting-management/main/infra/quota-limits-repository-cache-decorator.ts:14-31 | answer and state are those of the model; a miss fills the cache for a day |
| `QuotaCache.QuotaLimitsRepositoryCacheDecorator.UpdateLimits` | src/components/rate-limiting-management/main/infra/quota-limits-repository-cache-decorator.ts:33-45 | writes the repository and the cache |
| `QuotaCache.InMemoryQuotaLimitsRepository.OfUserId` | src/components/rate-limiting-management/main/infra/in-memory-quota-limits-repository.ts:8-10 | what was last stored for the user |
| `Cartesian.CartesianOf` | src/lib/primitives/generic/helpers/cartesian-product.ts:38-50 | one entry for each position below the product of the lengths; no arrays have one empty entry |
| `Cartesian.AllCombinationsIff` | src/lib/primitives/generic/helpers/cartesian-product.ts:38-66 | the entries are all the combinations in order if and only if there is one array, or nothing to combine, or no array among the elements of the first |
| `Cartesian.DigitsOfRank` | src/lib/primitives/generic/helpers/cartesian-product.ts:38-50 | every choice of one index per array is the mixed-radix digits of exactly one position |
| `Cartesian.RankOfDigits` | src/lib/primitives/generic/helpers/cartesian-product.ts:38-50 | the digits of a position are a choice whose rank is the position |
| `Cartesian.Lexicographic` | src/lib/primitives/generic/helpers/cartesian-product.ts:38-50 | positions are in lexicographic order of their choices |
| `Cartesian.CartesianProduct` | src/lib/primitives/generic/helpers/cartesian-product.ts:52-66 | element i with element j stands at i * n + j; an element of the first that is an array is spread |
| `Cartesian.CartesianOfRecord` | src/lib/primitives/generic/helpers/cartesian-product.ts:1-36 | one record for each position, its entry laid out under the keys that hold neither null nor undefined |
| `Cartesian.RecordIff` | src/lib/primitives/generic/helpers/cartesian-product.ts:1-26 | the records are one for each combination, in order, if and only if no array of the first key is spread |
| `Cartesian.NestedSpread` | src/lib/primitives/generic/helpers/cartesian-product.ts:52-66 | of [[1]] and [2] the one entry is [1, 2] |
| `Cartesian.CleanedKeeps` | src/lib/primitives/generic/helpers/cartesian-product.ts:28-36 | cleaning keeps exactly the properties that are neither null nor undefined |
| `DeepEquality.DeepEqualIff` | src/lib/primitives/generic/helpers/deep-equal.ts:7-34 | on every input the code decides structural equality regardless of key order, but for dates that face records without properties |
| `DeepEquality.StructuralIff` | src/lib/primitives/generic/helpers/deep-equal.ts:7-34 | a NaN-free value is compared with every value by structural equality if and only if it holds no date and no empty record |
| `DeepEquality.DatelessStructural` | src/lib/primitives/generic/helpers/deep-equal.ts:7-34 | among values without dates the code decides structural equality |
| `DeepEquality.SymmetricAndReflexive` | src/lib/primitives/generic/helpers/deep-equal.ts:7-34 | symmetric on every input, and reflexive if and only if there is no NaN |
| `DeepEquality.TransitiveIff` | src/lib/primitives/generic/helpers/deep-equal.ts:7-34 | equality passes through a NaN-free value, whatever it is compared with, if and only if no record in it is empty |
| `DeepEquality.DatelessTransitive` | src/lib/primitives/generic/helpers/deep-equal.ts:7-34 | transitive among values without dates |
| `DeepEquality.DatesEqualEmpty` | src/lib/primitives/generic/helpers/deep-equal.ts:12-25 | two dates that differ both equal the empty record |
| `DeepEquality.CountedInclusion` | src/lib/primitives/generic/helpers/deep-equal.ts:22-31 | equal key counts and one inclusion are the same as both inclusions |
| `Paginations.WalkShowsAll` | src/lib/primitives/application-specific/pagination.ts:16-52 | following nextPage from page 1 shows each index 0..total-1 exactly once, in order, in max(1, totalPages) pages |
| `Paginations.FollowFrom` | src/lib/primitives/application-specific/pagination.ts:16-52 | from any page on, the links lead through each later page once and show each later index once |
| `Paginations.SizeOf` | src/lib/primitives/application-specific/pagination.ts:16-38 | only page numbers below 1 and sizes below 0 are refused; the size used is always 1..200 |
| `Paginations.SizeInNumbers` | src/lib/primitives/application-specific/pagination.ts:16-38 | a size of 1 to 200 is used as asked, one above 200 gives 200, and 0 or none gives 30; without a page it is the first |
| `Paginations.LinksTell` | src/lib/primitives/application-specific/pagination.ts:40-52 | there is more, and a next page, if and only if indices are left after this one; the last page is the first to leave none |
| `Paginations.LinksInvert` | src/lib/primitives/application-specific/pagination.ts:40-52 | prevPage undoes nextPage, and nextPage undoes prevPage |
| `JobsScheduling.WithinAWeek` | src/lib/jobs-scheduler/main/in-memory-jobs-scheduler.ts:111-131 | given a valid hour and minute, the first run is never in the past and less than seven days away |
| `JobsScheduling.AtOnce` | src/lib/jobs-scheduler/main/in-memory-jobs-scheduler.ts:111-131 | without a time, and without a day or on the very day, the first run comes at once |
| `JobsScheduling.AtMidnight` | src/lib/jobs-scheduler/main/in-memory-jobs-scheduler.ts:111-165 | with another day but no time, it is at midnight of that day |
| `JobsScheduling.RunsApart` | src/lib/jobs-scheduler/main/in-memory-jobs-scheduler.ts:71-109 | runs are 60000, 3600000, 86400000 or 604800000 ms apart, or as far as the custom hours, minutes and seconds say |
| `JobsScheduling.AtTheTime` | src/lib/jobs-scheduler/main/in-memory-jobs-scheduler.ts:111-141 | the first run is at the time of day given |
| `JobsScheduling.OnTheDayIff` | src/lib/jobs-scheduler/main/in-memory-jobs-scheduler.ts:111-165 | the first run is on the weekday given if and only if it is not that the day is today and its slot is over; then it is at that time tomorrow |
| `JobsScheduling.LateMonday` | src/lib/jobs-scheduler/main/in-memory-jobs-scheduler.ts:111-131 | on a Monday at ten, "monday" at nine first runs on Tuesday at nine |
| `JobsScheduling.KeepsTheTime` | src/lib/jobs-scheduler/main/in-memory-jobs-scheduler.ts:71-98 | a daily or weekly job keeps the time of its first run |
| `JobsScheduling.KeepsTheDayIff` | src/lib/jobs-scheduler/main/in-memory-jobs-scheduler.ts:71-165 | a weekly job is on its weekday every time or, registered too late that day, never |
| `JobsScheduling.Runner` | src/lib/jobs-scheduler/main/in-memory-jobs-scheduler.ts:33-54 | runs until a run succeeds, at most 1 + retry times, 2 retries by default |
| `Intervals.ParseWritten` | src/lib/jobs-scheduler/main/in-memory-jobs-scheduler.ts:85-109 | whatever decimal numbers are written, with a sign of either kind, fraction and power of ten, each is read as its whole part, or as NaN when it has none, and what is not named as zero |
| `Intervals.ReadIff` | src/lib/jobs-scheduler/main/in-memory-jobs-scheduler.ts:85-109 | an interval is read as it is written if and only if no number in it has a nonzero fraction, a power of ten that scales it, or no digit before its point |
| `Intervals.NaturalsReadBack` | src/lib/jobs-scheduler/main/in-memory-jobs-scheduler.ts:85-109 | hours, minutes and seconds written as natural numbers are read back |
| `Intervals.HalfIsLost` | src/lib/jobs-scheduler/main/in-memory-jobs-scheduler.ts:85-109 | "every 1.5h" is read as one hour |
| `Intervals.ParseExecutionFrequency` | src/lib/jobs-scheduler/main/in-memory-jobs-scheduler.ts:85-109 | the loop over the words of an interval reads what the specification reads |

## Left out

- Redis, MongoDB, RabbitMQ, HTTP and the file system: only the commands used are modelled, as steps on a store of values.
- Clocks and randomness: the clock is a state component or a parameter, and never goes back. The outcome of a delivery
  reads it as often as the code does; creating a record, testing whether it may be retried, the retry sweep's filter and
  the cache decorator read it once.
- Ids and signatures: generated ids are fresh numbers; HMAC signatures, ULIDs and session correlation are opaque.
- Numbers: scores, limits and rates are integers, scores are not negative, and nothing overflows.
- Keys: in the machines the key of a fixed-window counter is a triple of base key, unit and window start, and that of a
  sliding-window set a pair; `StoreKeys` shows that their texts tell them apart.
- SlidingWindow.IntervalBound: whole calls run one at a time; `SlidingInterleaved` has the interleavings.
- SlidingInterleaved.IntervalBound: asks that no two requests of one positive score share an instant, as
  `SlidingWindow.SafeIff` shows it must; requests that never settle are not among its runs.
- SlidingInterleaved.SafeAfterIff: for `lost` below 999; a request that takes longer can also meet a set whose expiry was
  not refreshed in time, and how much is lost then is not stated.
- FixedWindow.WindowBound: over a store that never expires; `FixedWindow.SafeWithinIff` says how far that carries over.
- FixedWindow.QuiescentCounters: over a store that never expires; `FixedWindow.RestExactIff` says
  how far that carries over.
- FixedWindow.BurstBound: over a store that never expires; `FixedWindow.BurstBoundExpiring` carries it over.
- FixedWindow.FixedWindowAlgorithm.Request: one call that nothing overlaps, with a clock that stands still; the
  interleavings are those of the machine.
- Overlapping sweeps, sends, publications and retry runs: the code does not guard against them, and no claim is made. A
  handler that registers, publishes or clears while it is called is not modelled either.
- Timers: that `setInterval` fires every second or every interval is taken as given; stopping a scheduler's timers and the
  token bucket's is not modelled.
- EventsBroker.InMemoryEventsBroker.Publish: its two loops share one method here, and saving a failure is a method.
- JobsScheduling.Runner: the runs of one firing; the registration that starts the timers is not modelled.
- Intervals.ParseWritten: hexadecimal, octal and binary numbers, a capital E, and a point with nothing after it are not
  among the numbers written.
- JobsScheduling.OnTheDayIff: days of 24 hours, without daylight saving, and a time of day already read from its text.
- DeepEquality.DeepEqualIff: value objects whose `equals` is overridden, arrays, functions and symbols are not values here.
- Cartesian.CartesianOfRecord: a record is the sequence of its own properties as JavaScript enumerates them.
- Paginations.SizeOf: page numbers and sizes are integers.
- Pagination links when the page size is 0, which `getPageAndPerPage` never gives.
- The node-native, Kafka and RabbitMQ brokers, permissions, retry helper, time calculator, query builder, logging,
  authorization and transaction decorators, factories, facades and exceptions: wiring, or settled by a short reading.
