# Verified models of Cauveris

Cauveris analyses incidents of robot perception systems. This project models the parts of it that
hold state over time and proves what they keep over whole runs. Every part comes as a functional
model (`*_model.dfy`), lemmas about all its runs, and a class whose methods update their fields in
place as the program does and are proved to compute exactly what the model says.

| part | files | program |
|---|---|---|
| the discrete-event pipeline simulator | `pipeline_*.dfy` | `simulate_pipeline` |
| the in-memory job queue | `memory_queue*.dfy`, `jobs.dfy` | `InMemoryQueueBackend` |
| the SQLite job queue | `sqlite_queue*.dfy`, `jobs.dfy` | `SQLiteQueueBackend` |
| the sliding-window rate limiter | `rate_limit*.dfy` | `InMemoryRateLimiter` |
| the re-entrant concurrency store | `concurrency_*.dfy` | `InMemoryConcurrencyStore` |
| the unified-diff applier and writer | `diff_*.dfy` | `apply_diff_to_bytes`, `make_unified_diff` |
| the idempotency protocol | `idempotency_*.dfy` | `check_idempotency`, the middleware |

`dict.dfy` models a dictionary with insertion order and sums over its values, `wrappers.dfy` an
optional value.

How the models read the program:

- Time is `real`. Clock readings and random draws are inputs; a call reads the clock once, and over
  a run the clock does not go back. Arrival gaps are not negative.
- The event heap is a list kept in the order in which entries are removed, (time, push counter).
- A call of a queue, the rate limiter, a critical section of the concurrency store and a check of
  an idempotency key are atomic steps; runs are arbitrary sequences of them.
- `Ledger` and `History` are histories that the program does not keep. They only let properties of
  whole runs be stated, and no model step depends on them.
- The order in which a Python set of tenants is iterated, and the order in which the database
  enumerates rows that tie, are inputs.

Where the program does not do what its documentation or its callers might expect, the code is
modelled as it is, the failure is shown by a concrete input, and the exact condition is proved:

- A worker that reports back while both the backlog and the open epoch hold frames overwrites the
  epoch (`Conservation.StepVanishes`). In a run that is long enough for a first batch to be reported
  back, frames can be lost exactly with two workers or more, batches of two or more and an initial
  backlog (`Overwrite.WhoLosesFrames`, `Overwrite.AFrameVanishes`, `Overwrite.AThirdFrameVanishes`).
- The in-memory queue picks the most urgent job of the first tenant that has one, not of all
  tenants. It is the most urgent of all exactly when the tenants agree on the topmost level
  (`QueueUrgency.UrgencyAcrossTenants`, `QueueUrgency.UrgencyIsPerTenant`).
- The SQLite queue exceeds its size limit exactly when a call revives a job that is over while the
  queue is full (`SqliteCapacity.ExceedsOnlyByRevival`, `SqliteCapacity.LimitHoldsThroughout`,
  `SqliteCapacity.TwoWhereOneIsTheLimit`).
- Waiting for `Retry-After` does not guarantee admission (`RateLimitRuns.RetryAfterIsNoPromise`).
  Coming back helps exactly when enough stamps have left each window (`RateLimitRuns.RetryHelps`),
  which for requests of one unit means that the oldest stamp of every full window is out
  (`RateLimitRuns.UnitRetryHelps`); with one window the suggested time ensures it
  (`RateLimitRuns.RetryAfterIsAPromise`). Section 4 of RFC 6585 does not require more.
- A cleanup endangers the limit of a scope exactly when it evicts a slot: its sessions are still at
  work when newcomers enter (`ConcurrencyClients.EvictionOverlaps`,
  `ConcurrencyClients.TwoOwnersWhereOneIsTheLimit`).
- A release can wake a caller that waits no more. It wakes one that waits exactly when the owner
  listed longest does (`ConcurrencyClients.LeaveWakes`, `ConcurrencyClients.LostWakeUp`).
- A hunk with an empty old side is misplaced (`DiffSplice.InsertionMisplaced`,
  `DiffSplice.InsertionAtStartMisplaced`, `DiffHeaders.InsertedOneLineEarly`,
  `DiffHeaders.InsertedBeforeTheLast`), in the header convention of the POSIX.1-2017 `diff`
  utility, section "Diff -u or -U Output Format".
- The writer of diffs ends every line, so a last line without a terminator that a diff keeps or
  adds is given one; exactly then the second file is not reproduced (`DiffWriter.WriterIsExact`,
  `DiffText.TextIsExact`, `DiffWriter.TerminatorAdded`).
- A request that outlives its idempotency record overwrites its successor's answer
  (`IdempotencySessions.OutlivedSessionOverwrites`). A key is kept to one request exactly unless a
  record expires under a request at work (`IdempotencySessions.ExclusiveThroughout`), and an answer
  is final exactly until its record expires (`IdempotencySessions.AnswerIsFinal`).
- The simulator stops exactly when the gaps it draws add up to more than the run lasts
  (`Arrivals.StopsWhenArrivalsPass`), which zero gaps never do (`Termination.ZeroGapsNeverStop`).

## Model

| member | source | states |
|---|---|---|
| `Events.InsertSorted` | cauveris/analysis/model.py:394-400 | the event list stays ordered by (time, push counter), so the next entry taken is the least outstanding one |
| `Pipeline.Configure` | cauveris/analysis/model.py:313-346 | every parameter set, with its rounding, truncation and clamping, yields a configuration the loop can run, and pressure exceeds 1 exactly when demand exceeds a positive memory limit |
| `Discipline.StepKeeps` | cauveris/analysis/model.py:530-646 | every event keeps the worker, timer and epoch discipline: busy workers equal the outstanding completions and failures, a nonempty epoch has a free worker, room, a deadline and an armed timer |
| `Discipline.RunIsOrderly` | cauveris/analysis/model.py:397-646 | that discipline holds after every event of every run |
| `Discipline.OpenEpochIsServable` | cauveris/analysis/model.py:413-419 | a nonempty epoch always has a free worker, fewer than max_batch frames, and an armed timer of its own generation due no earlier than now |
| `Discipline.EveryBatchIsWellClosed` | cauveris/analysis/model.py:453-457 | every dispatched batch holds 1..max_batch frames and left its epoch within the batching window; with one worker it counts as size-limited exactly when full |
| `Discipline.ReleaseNeverClamps` | cauveris/analysis/model.py:563-567 | whenever a worker reports back at least one is busy, so the floor at zero never acts |
| `Discipline.ClockNeverRunsBackwards` | cauveris/analysis/model.py:530-533 | event times never decrease |
| `Conservation.StepPlaces` | cauveris/analysis/model.py:535-646 | an event moves frames between places without creating or losing any; only an arrival adds one frame |
| `Conservation.RunConserves` | cauveris/analysis/model.py:403-646 | after every event each frame ever created is in exactly one of: backlog, open epoch, in service, in transit, buffer, consumed, superseded, lost, evicted, failed, overwritten |
| `Conservation.ConsumedOnce` | cauveris/analysis/model.py:622-644 | no frame is consumed twice, and none that is consumed was lost, evicted, superseded, failed or overwritten |
| `Conservation.StepVanishes` | cauveris/analysis/model.py:413-419 | an event makes frames vanish exactly when a worker reports back while backlog and epoch both hold frames; then the whole open epoch vanishes |
| `Fifo.StepLined` | cauveris/analysis/model.py:535-605 | with no initial backlog, dispatched frames, open epoch and backlog remain the frames created in creation order, and no epoch is overwritten |
| `Fifo.RunIsFifo` | cauveris/analysis/model.py:535-605 | FIFO batching over every run without initial backlog, for any number of workers |
| `Fifo.NeverOverwrites` | cauveris/analysis/model.py:580-605 | the overwriting guard is never met with one worker, batches of one, or no initial backlog |
| `Fifo.NothingVanishes` | cauveris/analysis/model.py:413-419 | in those configurations no frame ever vanishes |
| `Overwrite.WhoLosesFrames` | cauveris/analysis/model.py:413-419 | for a run long enough to report some first batch, of any size from 1 to max_batch: some draws (locks and link deviates in [0, 1), positive gaps if the report takes any time) lose a frame exactly with at least two workers, batches of two or more and an initial backlog |
| `Overwrite.FrameVanishes` | cauveris/analysis/model.py:413-419 | in every such configuration, and for every such batch, a frame that arrives just before the worker of the first batch reports back is lost |
| `Overwrite.AFrameVanishes` | cauveris/analysis/model.py:413-416 | an instance from parameters: one backlog frame, two workers, batches of two, frames captured at 1 and 12 seconds, the second one is lost |
| `Overwrite.AThirdFrameVanishes` | cauveris/analysis/model.py:413-416 | another one in five seconds: frames captured at 1, 1.5 and 2 seconds, of which the first two fill a batch and the third is lost |
| `Work.WorkBound` | cauveris/analysis/model.py:563-567 | service time completed by time T is at most workers x T |
| `Work.RunIsPaid` | cauveris/analysis/model.py:525-567 | completed service plus the elapsed part of running services fits in the workers' time after every event |
| `Work.UtilisationIsExact` | cauveris/analysis/model.py:703-705 | without warm-up the utilisation clamp is the identity and the value lies in [0, 1] |
| `Failures.RunIsAccounted` | cauveris/analysis/model.py:458-528 | accepted requests = failed + size-limited + window-limited, each as many as such batches; every mechanism is counted as often as a batch died of it; dropped = transit losses + evictions |
| `Failures.DoomedServesNothing` | cauveris/analysis/model.py:484-505 | with demand over the memory limit or the connection pool no frame is ever served, on the link, buffered or consumed |
| `Failures.DoomedFailsEverything` | cauveris/analysis/model.py:484-505 | in such a configuration every accepted request fails |
| `Failures.OverTheLimitStarves` | cauveris/analysis/model.py:331-342 | the same in the units of the parameters: demand above a positive limit starves the consumer in every run |
| `Report.RunIsReported` | cauveris/analysis/model.py:633-643 | in every run the stale and missed counters are the reported ages over their budgets, and frames_served counts the frames of the batches that did not fail |
| `Report.RatesAreFractions` | cauveris/analysis/model.py:662-665 | stale, missed and failed never exceed their totals, and stale or missed is zero exactly when no reported age is over its budget |
| `Report.ParametersInSeconds` | cauveris/analysis/model.py:313-346 | parameters within their ranges are taken in seconds, sizes and counts cut to whole numbers, the backlog rounded; pressure is demand over limit, or zero when there is no limit |
| `Termination.StepFalls` | cauveris/analysis/model.py:530-646 | every event lowers a potential over remaining arrivals, ticks, queued frames and outstanding events, provided arrival gaps are bounded below |
| `Termination.Stops` | cauveris/analysis/model.py:530-533 | with gaps of at least some positive bound the loop stops within an explicit number of events |
| `Arrivals.OneArrival` | cauveris/analysis/model.py:535-554 | exactly one arrival is outstanding after every event of every run |
| `Arrivals.ArrivalIsDue` | cauveris/analysis/model.py:535-554 | in every run the outstanding arrival is due at the sum of the gaps drawn at the arrivals so far |
| `Arrivals.StopsWhenArrivalsPass` | cauveris/analysis/model.py:530-554 | the loop stops exactly when the gaps drawn at its arrivals add up to more than the run lasts |
| `Arrivals.BoundedGapsPass` | cauveris/analysis/model.py:553-554 | gaps bounded below by any positive number add up to that |
| `Termination.ZeroGapsNeverStop` | cauveris/analysis/model.py:553-554 | with zero gaps it never stops |
| `Latency.RunIsTraced` | cauveris/analysis/model.py:507-639 | after every event every dispatched frame's latency, transport delay and receipt time agree with how it was served |
| `Latency.LatencyIdentity` | cauveris/analysis/model.py:622-639 | the age, latency and sampling series are aligned; each measured frame has a recorded latency and an age that is the sum of wait, service, transport delay and (by consumption) sampling delay, plus the skew |
| `Latency.AgeFromLatency` | cauveris/analysis/model.py:626-639 | without skew, consumption age = recorded request latency - lock wait + transport delay + sampling delay |
| `Receipts.RunIsReceipted` | cauveris/analysis/model.py:607-644 | in every run every frame with an age at receipt is in the buffer, consumed, superseded or evicted, and that age agrees with how it was served and sent |
| `Receipts.DeliveryIdentity` | cauveris/analysis/model.py:607-615 | every entry of the ages at receipt, wherever the frame is now, is batch wait + service + transport delay (plus the skew) |
| `Receipts.AgesAtReceiptAreReported` | cauveris/analysis/model.py:629-636 | in every run the reported ages at receipt are those of the measured frames that have one, in their order |
| `Requests.EveryRunIsLawful` | cauveris/analysis/model.py:421-605 | at every event of every run: the frames that are due and no others go to a worker (a full epoch, one whose window is over, what waits when a worker reports back), the others keep waiting in their order, and the request they make lasts, fails and is recorded as its size, wait and lock wait say |
| `Requests.ServiceInMilliseconds` | cauveris/analysis/model.py:466-468 | in every run, from the parameters: every outstanding completion and every recorded service of a batch of n frames takes base + n x per-item ms, plus the penalty times demand over limit |
| `Requests.EveryFrameTakesItsShare` | cauveris/analysis/model.py:466-468 | services of batches that differ by k frames differ by k x per-item ms |
| `Requests.DeathsInMilliseconds` | cauveris/analysis/model.py:484-492 | each mechanism as an if-and-only-if on the limits, the lock wait, the latency and the pool, in the order in which they apply; a request is lost exactly when one of them applies |
| `Transport.EveryCompletionSends` | cauveris/analysis/model.py:568-579 | in every run, of a completed batch the frames that the draws lose are lost, and every other one is due after its delay |
| `Transport.DelayInMilliseconds` | cauveris/analysis/model.py:569-573 | that delay is the normal deviate, or the mean without a spread, but never negative |
| `Subscriber.KeepsTheLatest` | cauveris/analysis/model.py:607-620 | KEEP_LAST: in every run the buffer is the last qos_queue_depth samples received since the last tick, and all earlier ones have been evicted in their order |
| `Subscriber.TheNewestIsTaken` | cauveris/analysis/model.py:622-644 | every tick takes the sample delivered last and no other, and counts it if the tick lies in the measurement window |
| `Subscriber.ReceivedInOrder` | cauveris/analysis/model.py:607-620 | receipts since the last tick are in the order of time, so what was evicted is no newer than what is buffered |
| `Tallies.CapturesAreArrivals` | cauveris/analysis/model.py:535-542 | frames are captured when they arrive, and numbered in that order behind the initial backlog |
| `Tallies.CountsWithinTheWindow` | cauveris/analysis/model.py:541-567 | produced frames and busy time are those of the arrivals and completions from the start of the measurement window on |
| `Tallies.TicksArePeriodic` | cauveris/analysis/model.py:407-411 | the consumer ticks at the multiples of its period, the first time at zero |
| `Latency.AgesAreNonNegative` | cauveris/analysis/model.py:626-631 | no age is below the skew, so without skew none is negative |
| `Simulation.Simulator.constructor` | cauveris/analysis/model.py:348-411 | state variables, initial backlog and first two events, as the starting state of the model |
| `Simulation.Simulator.OpenEpoch` | cauveris/analysis/model.py:413-419 | `start_epoch` in place: the new state and the result are exactly the model's |
| `Simulation.Simulator.Judge` | cauveris/analysis/model.py:462-492 | the failure mechanisms in their order, as a function of the batch |
| `Simulation.Simulator.Dispatch` | cauveris/analysis/model.py:421-528 | `dispatch` in place: the new state is the model's |
| `Simulation.Simulator.RecordLatencies` | cauveris/analysis/model.py:507-513 | the loop over a batch records exactly the latencies of the model |
| `Simulation.Simulator.OnArrival` | cauveris/analysis/model.py:535-554 | the arrival handler in place: the new state and the result are exactly the model's |
| `Simulation.Simulator.OnTimer` | cauveris/analysis/model.py:556-561 | the timer handler in place: the new state and the result are exactly the model's |
| `Simulation.Simulator.OnDone` | cauveris/analysis/model.py:563-589 | the completion handler in place, with the loop that puts frames on the link and the refill |
| `Simulation.Simulator.OnFailed` | cauveris/analysis/model.py:591-605 | the failure handler in place: the new state and the result are exactly the model's |
| `Simulation.Simulator.OnDeliver` | cauveris/analysis/model.py:607-620 | the delivery handler in place, with KEEP_LAST |
| `Simulation.Simulator.OnConsume` | cauveris/analysis/model.py:622-646 | the consumer handler in place: the new state and the result are exactly the model's |
| `Simulation.Simulator.Simulate` | cauveris/analysis/model.py:530-533 | the event loop, for arrivals that pass the end of the run, terminates and leaves the state of a run of the model; within the explicit bound when the gaps have a positive one |
| `QueuePlaces.UnexpiredKeepsOrder` | cauveris/job_queue.py:347-355 | the purge keeps exactly the unexpired jobs of a lane, each moved up by the expired jobs before it |
| `QueuePlaces.PurgeKeeps` | cauveris/job_queue.py:347-355 | the purge keeps job conservation: exactly the expired ids leave, and they leave their lane only |
| `QueueRuns.EnqueueEffect` | cauveris/job_queue.py:276-319 | an accepted job joins the lane of its tenant and priority and nothing else changes; a rejected one changes no container |
| `QueueRuns.EnqueueBounded` | cauveris/job_queue.py:298-307 | no tenant's queue exceeds max_size, although a job without a tenant is measured against all tenants |
| `QueueRuns.DequeueKeeps` | cauveris/job_queue.py:321-388 | a dequeue keeps conservation, the balance of the statistics, the capacity and the retry bound |
| `QueueRuns.CompleteKeeps` | cauveris/job_queue.py:403-436 | so does a completion with its pruning |
| `QueueRuns.FailKeeps` | cauveris/job_queue.py:438-481 | so does a failure, whether the retry is queued, rejected or not allowed |
| `QueueRuns.CancelKeeps` | cauveris/job_queue.py:508-541 | so does a cancellation, of a running, queued or completed job |
| `QueueRuns.RunIsGood` | cauveris/job_queue.py:276-541 | all of it holds after every call of every run in which ids are submitted fresh |
| `QueueResults.ExactlyOneContainer` | cauveris/job_queue.py:219-228 | after any run an accepted job is in exactly one container unless it was TTL-purged or pruned, and nothing else is in any |
| `QueueResults.AcceptedIsRemembered` | cauveris/job_queue.py:309-313 | every job whose submission was accepted keeps a place for the rest of the run |
| `QueueResults.NoDuplicates` | cauveris/job_queue.py:219-228 | no container holds a job twice |
| `QueueResults.ContainerFixesJob` | cauveris/job_queue.py:378-479 | the container fixes the status (FAILED never appears), the lane and the tenant; attempts = retries while queued, one more while running, and never more than max_retries + 1 |
| `QueueResults.FailLosesNothing` | cauveris/job_queue.py:438-481 | a failed job is in a lane or among the dead letters afterwards, even when the requeue is rejected |
| `QueueResults.StatisticsBalance` | cauveris/job_queue.py:231-242 | enqueued = queued + dequeued + expired + cancelled while queued; dead letters = dead_lettered + cancelled; and so on for every counter |
| `QueueResults.QueuesStayBounded` | cauveris/job_queue.py:300-307 | no tenant's queue ever exceeds max_size |
| `QueueResults.FinitelyManySteps` | cauveris/job_queue.py:321-541 | hand-outs, completions, retries, burials, cancellations, expiries and prunings never exceed 3 + 2 x max_retries per submission |
| `QueueFates.SubmissionFate` | cauveris/job_queue.py:276-313 | a submission is accepted exactly when it is not past its expiry (its own, or the default TTL from now on) and its tenant has room; it joins the end of its lane, with unknown priorities corrected, and otherwise nothing is queued |
| `QueueFates.FailureFate` | cauveris/job_queue.py:390-481 | a failed job goes back to the end of its lane, QUEUED, with one more retry and a fresh TTL, exactly when a retry was asked for and is left, its tenant has room and the TTL is not negative; otherwise it is the last of the dead letters, DEAD_LETTER |
| `QueueFates.RequeueFate` | cauveris/job_queue.py:390-401 | a job that a client requeues itself is back in its lane exactly if its tenant has room and the TTL is not negative; otherwise it is in no container any more |
| `QueueFates.OnlyRunningJobs` | cauveris/job_queue.py:403-442 | completing or failing a job that does not run does nothing |
| `QueueFates.CompletionFate` | cauveris/job_queue.py:403-436 | a finished job is kept with its result; the kept results are exactly those not past their expiry |
| `QueueFates.CancellationFate` | cauveris/job_queue.py:508-541 | a running, queued or finished job is taken out of its container and buried as CANCELLED; any other id changes nothing |
| `QueueFates.BegunNow` | cauveris/job_queue.py:378-380 | a worker is given the job as it was queued, PROCESSING, started now and with one more attempt |
| `QueueFates.HandedOutAreRunning` | cauveris/job_queue.py:382-388 | the jobs handed out are among the running ones just as they are given; the other running jobs, results and dead letters stay |
| `QueueProgress.WorkFalls` | cauveris/job_queue.py:321-541 | the weighted sum over live jobs falls by every step a call takes; only submissions raise it |
| `QueueOrder.PurgeOffers` | cauveris/job_queue.py:347-355 | purging takes no job that may still be handed out |
| `QueueOrder.FirstMatchIsHead` | cauveris/job_queue.py:357-361 | in a purged lane the first match is the head of what the lane has to offer, and taking it leaves the tail |
| `QueueOrder.ScanTakesHead` | cauveris/job_queue.py:337-373 | one turn of the loop takes the head of the whole offer, or finds nothing exactly when nothing is on offer |
| `QueueOrder.DequeueTakesTheOffer` | cauveris/job_queue.py:321-388 | a call hands out the first max_jobs of the offer (tenants as visited, most urgent level first, oldest first) and leaves the rest on offer |
| `QueueOrder.ShortMeansEmpty` | cauveris/job_queue.py:375-376 | fewer than max_jobs results means no tenant holds an unexpired job of the wanted types |
| `QueueUrgency.UrgencyAcrossTenants` | cauveris/job_queue.py:334-373 | the job handed out is the most urgent on offer in every order of visiting the tenants, exactly when all tenants with something to offer have the same topmost level |
| `QueueUrgency.TenantSorted` | cauveris/job_queue.py:341-361 | within one tenant the most urgent jobs come first |
| `QueueUrgency.RunsAreFiled` | cauveris/job_queue.py:309-310 | in every run each lane holds only jobs of its own level |
| `QueueUrgency.UrgencyIsPerTenant` | cauveris/job_queue.py:334-373 | a run of two submissions: a LOW job of the tenant visited first is handed out before a CRITICAL one of another, against the comment at 334 |
| `InMemoryBackend.InMemoryQueue.CountQueued` | cauveris/job_queue.py:269-274 | `_total_queued`, with the lanes it creates |
| `InMemoryBackend.InMemoryQueue.Enqueue` | cauveris/job_queue.py:276-319 | `enqueue` in place: the new state and the result are exactly the model's |
| `InMemoryBackend.InMemoryQueue.PurgeLane` | cauveris/job_queue.py:346-355 | the index loop that purges a lane in place leaves exactly the unexpired jobs and counts the others |
| `InMemoryBackend.InMemoryQueue.FindMatch` | cauveris/job_queue.py:357-361 | the search of a lane for the first job of a wanted type |
| `InMemoryBackend.InMemoryQueue.FindJob` | cauveris/job_queue.py:337-373 | the tenant and priority loops |
| `InMemoryBackend.InMemoryQueue.Dequeue` | cauveris/job_queue.py:321-388 | `dequeue` in place: the new state and the result are exactly the model's |
| `InMemoryBackend.InMemoryQueue.Requeue` | cauveris/job_queue.py:390-401 | `requeue` in place: the new state and the result are exactly the model's |
| `InMemoryBackend.InMemoryQueue.Complete` | cauveris/job_queue.py:403-418 | `complete` in place: the new state and the result are exactly the model's |
| `InMemoryBackend.InMemoryQueue.PruneCompleted` | cauveris/job_queue.py:420-436 | `_prune_completed` drops exactly the stale results |
| `InMemoryBackend.InMemoryQueue.Fail` | cauveris/job_queue.py:438-481 | `fail` in place: the new state and the result are exactly the model's |
| `InMemoryBackend.InMemoryQueue.Cancel` | cauveris/job_queue.py:508-541 | `cancel` in place: the new state and the result are exactly the model's |
| `SqliteLeases.ClaimsTheFirst` | cauveris/job_queue.py:1543-1563 | a call claims exactly the first max_jobs queued, unexpired rows of the wanted types by (priority descending, created_at ascending), each once, and changes no other row after the sweep |
| `SqliteLeases.LeaseStays` | cauveris/job_queue.py:1519-1563 | while a lease runs no call other than a fail, requeue or new submission of the job makes it claimable, and no call claims it |
| `SqliteLeases.LeasesDoNotOverlap` | cauveris/job_queue.py:1519-1563 | two claims of one job with no fail, requeue or new submission of it in between are more than claim_timeout apart |
| `SqliteLeases.RetriesBoundedInRuns` | cauveris/job_queue.py:1526-1594 | neither reclaiming nor failing pushes retry_count past max_retries, in every run whose submissions and requeues respect the bound |
| `SqliteLeases.ClaimedAtMost` | cauveris/job_queue.py:1519-1594 | a job submitted once is claimed at most max_retries + 1 times, however its leases end |
| `SqliteReclaim.SweepFate` | cauveris/job_queue.py:1519-1541 | a row claimed more than claim_timeout ago is queued again with one more retry and no worker if retries and TTL are left, and a dead letter otherwise; a queued row past its TTL is one too; no other row is touched |
| `SqliteReclaim.DeadWorkersJobIsClaimedAgain` | cauveris/job_queue.py:1519-1563 | the converse of lease exclusivity: a job whose worker died, with retries and TTL left, is claimed by the next dequeue of its type more than claim_timeout after the claim that has room for it |
| `SqliteReclaim.ClaimFate` | cauveris/job_queue.py:1552-1563 | of a claimed row only status, start and worker change |
| `SqliteReclaim.ClaimedInOrder` | cauveris/job_queue.py:1543-1551 | rows are claimed by descending priority and then by age, and no queued row of a wanted type is passed over for a later one |
| `SqliteReclaim.SubmissionStored` | cauveris/job_queue.py:1474-1514 | a submission is stored exactly when there is room, with its own expiry or the default one, if there is a default |
| `SqliteReclaim.SettlementStored` | cauveris/job_queue.py:1565-1614 | what completion, requeue, failure and cancellation store: the result, the error, FAILED without retry and DEAD_LETTER with retries used up |
| `SqliteReclaim.MissingIsLeftAlone` | cauveris/job_queue.py:1565-1614 | none of them does anything about a job that is not there |
| `SqliteCapacity.RevivalAdds` | cauveris/job_queue.py:1565-1601 | failing with a retry left, or requeueing, a row that is over adds exactly one live row, whatever the number of rows |
| `SqliteCapacity.ExceedsOnlyByRevival` | cauveris/job_queue.py:1478-1601 | from a table within max_size a call leaves it within max_size exactly unless it revives a row that is over while the queue is full |
| `SqliteCapacity.LimitHoldsThroughout` | cauveris/job_queue.py:1474-1601 | max_size bounds the live rows throughout a run exactly when no call of it does that |
| `SqliteCapacity.TwoWhereOneIsTheLimit` | cauveris/job_queue.py:1478-1601 | a run of five calls from the empty table with two live rows where one is the limit |
| `SqliteBackend.SqliteBackendQueue.Enqueue` | cauveris/job_queue.py:1474-1514 | `enqueue` in place: the new state and the result are exactly the model's |
| `SqliteBackend.SqliteBackendQueue.ReclaimDead` | cauveris/job_queue.py:1519-1535 | the reclaim loop updates exactly the rows whose lease is over |
| `SqliteBackend.SqliteBackendQueue.ClaimRows` | cauveris/job_queue.py:1552-1563 | the claim loop claims every selected row and returns the rows as claimed |
| `SqliteBackend.SqliteBackendQueue.Dequeue` | cauveris/job_queue.py:1516-1563 | `dequeue` in place: the new state and the result are exactly the model's |
| `SqliteBackend.SqliteBackendQueue.Requeue` | cauveris/job_queue.py:1565-1571 | `requeue` in place: the new state and the result are exactly the model's |
| `SqliteBackend.SqliteBackendQueue.Complete` | cauveris/job_queue.py:1573-1580 | `complete` in place, whatever the status |
| `SqliteBackend.SqliteBackendQueue.Fail` | cauveris/job_queue.py:1582-1601 | `fail` in place, whatever the status |
| `SqliteBackend.SqliteBackendQueue.Cancel` | cauveris/job_queue.py:1608-1614 | `cancel` in place, live rows only |
| `RateLimitWindows.PruneAgain` | cauveris/rate_limit.py:246-250 | an earlier pruning makes no difference to a later one |
| `RateLimitWindows.LookDecides` | cauveris/rate_limit.py:278-309 | the first loop allows exactly when the cost fits in every window, suggests the least waiting time of the full ones, and reports the tightest |
| `RateLimitWindows.AllowedIffFits` | cauveris/rate_limit.py:291-292 | a request is allowed exactly when its cost fits in every window |
| `RateLimitWindows.CheckCharges` | cauveris/rate_limit.py:311-319 | an allowed request adds its cost to the log of every window of the policy, once for each window that shares the log, and to nothing else; a denied one changes no window's usage, now or later |
| `RateLimitWindows.RemainingIsExact` | cauveris/rate_limit.py:299-303 | after an allowed request, another one at the same instant is allowed precisely when its cost does not exceed `remaining` |
| `RateLimitWindows.VerdictReports` | cauveris/rate_limit.py:299-327 | count, limit and remaining are those of one window, the one with the least room; the reset is the longest window |
| `RateLimitWindows.EqualLengthsChargeTwice` | cauveris/rate_limit.py:279-288 | windows of one length share a log: an allowed request is charged to a window exactly once precisely when no other window has its length |
| `RateLimitRuns.LogIsHistory` | cauveris/rate_limit.py:282-287 | for every policy, a window's pruned log at every later instant is the unpruned history, once for each window of its length |
| `RateLimitRuns.PruningIsInvisible` | cauveris/rate_limit.py:246-250 | every verdict of a run is the one an unpruned history of all admitted requests gives |
| `RateLimitRuns.NoWindowIsExceeded` | cauveris/rate_limit.py:278-319 | in any half-open interval of a window's length the cost admitted for a key is at most that window's limit, for every window of the policy |
| `RateLimitRuns.BothEndsAreAdmitted` | cauveris/rate_limit.py:250 | a closed interval is too long: a limit of one lets a request through at each end |
| `RateLimitRuns.RetryAfterIsSound` | cauveris/rate_limit.py:293-297 | after a denial any request of at least the same cost made less than retry_after - 1 seconds later is denied, whatever happens in between |
| `RateLimitRuns.ComingBackHelps` | cauveris/rate_limit.py:291-297 | the same request after a denial is allowed exactly when as many stamps have left each window as it was too much for it |
| `RateLimitRuns.RetryHelps` | cauveris/rate_limit.py:291-297 | the same in every run, for a denied request repeated with no request of its key in between |
| `RateLimitRuns.UnitRetryHelps` | cauveris/rate_limit.py:291-297 | in every run, a denied request of one unit repeated at any later time, with no request of its key in between, is allowed exactly when the oldest stamp of every full window is out by then (windows of distinct lengths) |
| `RateLimitRuns.RetryAfterIsAPromise` | cauveris/rate_limit.py:293-297 | for a key with one window, a request of one unit repeated retry_after seconds later or more is allowed |
| `RateLimitRuns.RetryAfterIsNoPromise` | cauveris/rate_limit.py:293-297 | for two units it is not: a run of four requests whose third is told to return in 6 seconds, and whose fourth does and is denied |
| `RateLimiter.InMemoryRateLimiter.PruneWindow` | cauveris/rate_limit.py:246-250 | `_prune_window` as a loop |
| `RateLimiter.InMemoryRateLimiter.LookAtWindows` | cauveris/rate_limit.py:270-309 | the first loop of `check_limit` in place: the new state and the result are exactly the model's |
| `RateLimiter.InMemoryRateLimiter.ConsumeCost` | cauveris/rate_limit.py:311-319 | the second loop in place: the new state and the result are exactly the model's |
| `RateLimiter.InMemoryRateLimiter.CheckLimit` | cauveris/rate_limit.py:252-327 | `check_limit` in place, with the whole verdict |
| `RateLimiter.InMemoryRateLimiter.GetCurrentUsage` | cauveris/rate_limit.py:329-336 | `get_current_usage` |
| `ConcurrencySafety.NotifyWakesFirst` | cauveris/concurrency.py:181-191 | a notification wakes the waiter that has been listed longest, and there is one whenever anyone waits |
| `ConcurrencySafety.StepSafe` | cauveris/concurrency.py:96-235 | every critical section keeps capacity, reference counts of at least one, and unset, unshared events in the waiter map |
| `ConcurrencySafety.RunIsSafe` | cauveris/concurrency.py:96-235 | under every interleaving of attempts, releases, heartbeats, cancellations and cleanups |
| `ConcurrencySafety.NeverOverCapacity` | cauveris/concurrency.py:117-130 | a key never has more slots than its limit, each with a positive reference count |
| `ConcurrencySafety.WaitersAreAsleep` | cauveris/concurrency.py:132-136 | every event in the waiter map is unset |
| `ConcurrencySafety.RefsAreOwed` | cauveris/concurrency.py:106-179 | without cleanup the reference count is acquires less releases, and a slot exists exactly while that is positive |
| `ConcurrencyHeartbeats.HeartbeatIsLastSeen` | cauveris/concurrency.py:106-130 | in every interleaving a slot carries the instant at which it was taken and the latest one at which its owner acquired it or sent a heartbeat |
| `ConcurrencyHeartbeats.SurvivesCleanup` | cauveris/concurrency.py:193-235 | a slot survives a cleanup exactly if that latest instant is at or after the threshold |
| `ConcurrencyHeartbeats.AttemptIsGranted` | cauveris/concurrency.py:103-136 | an attempt is granted exactly to an owner with a slot or while there are fewer slots than the limit; otherwise it waits on a fresh event |
| `ConcurrencyHeartbeats.CancelledIsUnlisted` | cauveris/concurrency.py:147-153 | a cancelled attempt takes its own event off the list and no other |
| `ConcurrencyClients.PlayIsBalanced` | cauveris/concurrency.py:266-316 | for clients that follow the manager, while no slot of a key is evicted, the reference count of each slot is the number of sessions inside |
| `ConcurrencyClients.LeavingSucceeds` | cauveris/concurrency.py:295-316 | the release on the way out always finds its slot |
| `ConcurrencyClients.OwnersWithinLimit` | cauveris/concurrency.py:266-302 | as long as no cleanup evicts a slot of the scope, sessions of at most `limit` owners are inside it, whatever happens to other scopes |
| `ConcurrencyClients.EvictionOverlaps` | cauveris/concurrency.py:214-235 | from any balanced state, after a cleanup, newcomers at any instant bring more owners inside than the limit exactly when the cleanup found a stale slot; when it found none, nothing that follows without an eviction does |
| `ConcurrencyClients.TwoOwnersWhereOneIsTheLimit` | cauveris/concurrency.py:214-235 | a run from the start: enter, clean up, enter leaves two owners inside where the limit is one |
| `ConcurrencyClients.CleanUpFreesStale` | cauveris/concurrency.py:214-235 | cleanup frees exactly the slots without a recent heartbeat and wakes at most one waiter for all of them |
| `ConcurrencyClients.LastReleaseWakes` | cauveris/concurrency.py:157-179 | only the last release of an owner frees the slot, and then wakes the longest waiter, once |
| `ConcurrencyClients.LeaveWakes` | cauveris/concurrency.py:138-191 | the last release of a slot wakes a sleeping session exactly when the owner listed longest still has a session asleep on the listed event |
| `ConcurrencyClients.LostWakeUp` | cauveris/concurrency.py:138-191 | the wake-up is lost otherwise: a timed-out attempt is still listed first, and the session that waits sleeps on |
| `ConcurrencyStore.InMemoryConcurrencyStore.TryAcquire` | cauveris/concurrency.py:103-136 | one attempt of `acquire` in place: the new state and the result are exactly the model's |
| `ConcurrencyStore.InMemoryConcurrencyStore.Abandon` | cauveris/concurrency.py:147-153 | what a cancelled wait takes back |
| `ConcurrencyStore.InMemoryConcurrencyStore.NotifyWaiter` | cauveris/concurrency.py:181-191 | `_notify_waiter` in place: the new state and the result are exactly the model's |
| `ConcurrencyStore.InMemoryConcurrencyStore.Release` | cauveris/concurrency.py:157-179 | `release` in place: the new state and the result are exactly the model's |
| `ConcurrencyStore.InMemoryConcurrencyStore.Heartbeat` | cauveris/concurrency.py:193-200 | `heartbeat` in place: the new state and the result are exactly the model's |
| `ConcurrencyStore.InMemoryConcurrencyStore.CleanUpStale` | cauveris/concurrency.py:219-234 | `cleanup_stale` for one key in place: the new state and the result are exactly the model's |
| `Diff.ApplyDiff` | audit_independent_e2e.py:153-187 | the two-cursor loops compute the model's result; no header at all yields None |
| `DiffSplice.InnerLoop` | audit_independent_e2e.py:174-185 | a hunk's loop emits its new side and passes over as many source lines as its old side has, whether its blank lines are written bare or with a space |
| `DiffSplice.AppliesAsSplice` | audit_independent_e2e.py:153-187 | the source as gaps and old sides becomes the same gaps with the new sides |
| `DiffSplice.AppliesByExtent` | audit_independent_e2e.py:174-185 | the applier counts the lines of an old side and compares none of them with the source |
| `DiffSplice.NoResultWithoutHeader` | audit_independent_e2e.py:157-159 | there is no result exactly when no line is a header |
| `DiffSplice.AppliesToNothing` | audit_independent_e2e.py:153-187 | to an empty source a diff appends its new sides, wherever its headers place them |
| `DiffSplice.SplicesSource` | audit_independent_e2e.py:153-187 | for ordered hunks that do not overlap and match the source, each old side is replaced by its new side and nothing else changes |
| `DiffSplice.ReverseUndoes` | audit_independent_e2e.py:153-187 | applying the side-swapped diff to the result gives the source back |
| `DiffSplice.InsertionMisplaced` | audit_independent_e2e.py:170-172 | an insertion after line p lands one line early; it is right exactly when every inserted line equals line p |
| `DiffSplice.InsertionAtStartMisplaced` | audit_independent_e2e.py:170-172 | an insertion before the first line lands before the last one; right exactly when the lines before that one commute with the insertion |
| `DiffHeaders.HeaderReads` | audit_independent_e2e.py:157 | the header pattern reads back the two starts of every written header, with or without a count of one |
| `DiffHeaders.HeaderIffShaped` | audit_independent_e2e.py:157-164 | a line is taken for a header exactly if it has the shape of the pattern, and the two starts are read from it |
| `DiffHeaders.InsertedOneLineEarly` | audit_independent_e2e.py:170-172 | an instance: the line inserted after the first of two lines comes before it |
| `DiffHeaders.InsertedBeforeTheLast` | audit_independent_e2e.py:170-172 | an instance: the line inserted at the beginning of two lines comes before the last one |
| `DiffHeaders.WrittenDiffApplies` | audit_independent_e2e.py:153-187 | a diff written with its headers turns the first file into the second, if no old side is empty or the file is |
| `DiffHeaders.WrittenDiffRoundTrips` | audit_independent_e2e.py:153-187 | and the flipped diff, written with its own headers, turns it back, if the same holds of the new sides |
| `DiffWriter.WriterApplies` | cauveris/patch/unified_diff.py:490-508 | the writer's output, in which every line is ended, turns the first file into the second with terminators on the kept and added lines |
| `DiffWriter.WriterIsExact` | cauveris/patch/unified_diff.py:490-508 | it turns the first file into exactly the second if and only if every line it keeps or adds has a terminator |
| `DiffWriter.TerminatorAdded` | cauveris/patch/unified_diff.py:490-508 | an instance: a last line without a terminator, kept as context, is given one |
| `DiffText.LinesOfText` | audit_independent_e2e.py:156-160 | a text is cut at its newlines into nonempty lines, all but the last one ended, which make up the text again |
| `DiffText.MakeText` | cauveris/patch/unified_diff.py:502-508 | the loop that strips the newlines and the join that puts one behind every line, as a text |
| `DiffText.DiffReadsBack` | cauveris/patch/unified_diff.py:490-508 | the text of a written diff is cut into exactly its lines, each one ended |
| `DiffText.TextIsExact` | cauveris/patch/unified_diff.py:475-508 | on texts: the diff written for two texts and applied to the first gives the second exactly when every line it keeps or adds ends with a newline |
| `DiffText.TerminatedTextsRoundTrip` | cauveris/patch/unified_diff.py:475-508 | in particular whenever the second text is empty or ends with a newline |
| `IdempotencyReplay.GrantIsExclusive` | cauveris/idempotency.py:456-520 | between a grant and its save or delete no second request with the key is granted within the time to live: the same hash waits, another gets a conflict that names the granted operation |
| `IdempotencyReplay.ExpiredGrantIsGivenAgain` | cauveris/idempotency.py:133-141 | in every run, while a grant is neither saved nor deleted, the next request with the key, of whatever hash, is granted exactly when the time to live is over |
| `IdempotencyReplay.SavedResponseIsReplayed` | cauveris/idempotency.py:522-540 | after a saved completion every later request with the same hash gets that body and status, marked as a replay, every other hash a conflict that names the granted operation |
| `IdempotencyReplay.GrantIsRecorded` | cauveris/idempotency.py:456-475 | a grant puts the whole request on record, open and dated, and touches no other key |
| `IdempotencyReplay.ReplayIsRecorded` | cauveris/idempotency.py:522-540 | a check that grants nothing changes no record, except that a replay marks the stored headers |
| `IdempotencyReplay.SettlementIsRecorded` | cauveris/idempotency.py:600-645 | a response is put on record with its instant, completed below 400 and failed below 500; from 500 on the record goes |
| `IdempotencySessions.HeldKeyIsGranted` | cauveris/idempotency.py:456-520 | a request for a key that a session is at work on is granted exactly when that key's record has expired |
| `IdempotencySessions.ExclusiveUnlessOutlived` | cauveris/idempotency.py:133-198 | one step keeps a key to one session with its record in place, exactly unless it looks at the expired record of a session still at work |
| `IdempotencySessions.ExclusiveThroughout` | cauveris/idempotency.py:570-645 | a key is kept to one session throughout a run exactly when no step of it does that |
| `IdempotencySessions.OneSessionPerKey` | cauveris/idempotency.py:570-645 | then no two requests with the key are at work together, whatever happens to other keys |
| `IdempotencySessions.AnswerIsFinal` | cauveris/idempotency.py:600-635 | once an admitted request was answered below 400, a later one with the key is replayed or conflicts exactly until the record of this key is found past its expiry |
| `IdempotencySessions.FailureReopens` | cauveris/idempotency.py:615-645 | a client error reopens the key to the same request only, a server error to any request |
| `IdempotencySessions.OutlivedSessionOverwrites` | cauveris/idempotency.py:157-175 | a session that outlives its record overwrites its successor's answer |
| `IdempotencyStore.InMemoryIdempotencyStore.Get` | cauveris/idempotency.py:133-141 | `get` in place, deleting an expired record |
| `IdempotencyStore.InMemoryIdempotencyStore.Set` | cauveris/idempotency.py:143-155 | `set` in place: only a free key, with the store's time to live |
| `IdempotencyStore.InMemoryIdempotencyStore.Update` | cauveris/idempotency.py:157-175 | `update` in place: the new state and the result are exactly the model's |
| `IdempotencyStore.InMemoryIdempotencyStore.CleanupExpired` | cauveris/idempotency.py:184-198 | `cleanup_expired` removes exactly the expired records |
| `IdempotencyStore.InMemoryIdempotencyStore.CheckIdempotency` | cauveris/idempotency.py:433-546 | `check_idempotency` in place, with the restart after a failed attempt |
| `IdempotencyStore.InMemoryIdempotencyStore.SettleResponse` | cauveris/idempotency.py:612-645 | what the middleware does with the response |

## Left out

- Simulation.Simulator.Simulate: stops at the first entry past the end of the run without removing it, and needs gaps that add up to more than the run lasts, without which the loop does not stop (`Arrivals.StopsWhenArrivalsPass`).
- Latency.LatencyIdentity: the skew is added in seconds to ages in milliseconds, as the code does; backlog frames have no capture time, and their age counts from delivery.
- The simulator's series of epoch waits, services, batch sizes, transports, request latencies and backlog samples, and all means and percentiles: reports that no step depends on.
- Simulation.Simulator.Judge: takes the lock draw as an input; the distributions of the draws are not modelled.
- The class groups the simulator's counters in one record.
- InMemoryBackend.InMemoryQueue.Enqueue: does not model the waiters' events, locks and log lines; jobs are values, so a caller's alias of a queued job object is not captured.
- QueueRuns.RunIsGood: covers jobs submitted as queued under ids not accepted before and retried through `fail`; a direct `requeue` by a client is not part of those runs, and a job is lost when it is rejected (`QueueFates.RequeueFate`).
- `get_job`, `get_stats` and `health_check` of the queues: the look-ups are not modelled.
- SqliteLeases.LeasesDoNotOverlap: takes each call as one transaction; between single statements the reclaim update has no status guard. SQL text, JSON, connections and pragmas are not modelled.
- RateLimitRuns.NoWindowIsExceeded: needs one policy per key, each with at least one window; a policy without windows makes the source raise and is excluded.
- RateLimitWindows.RemainingIsExact: needs windows of distinct lengths; with equal lengths `remaining` does not count that a request is charged more than once (`RateLimitWindows.EqualLengthsChargeTwice`).
- RateLimitRuns.RetryAfterIsAPromise: one window and one unit of cost; for several windows the condition is `RateLimitRuns.UnitRetryHelps`, for larger costs `RateLimitRuns.RetryHelps`.
- Overwrite.WhoLosesFrames: speaks of runs that last longer than some first batch takes to be reported; a full batch counts if it is served and not reported back at once. The least duration at which a frame can be lost is not determined.
- `InMemoryRateLimiter.reset`, which deletes by string prefix, and the header properties.
- ConcurrencyStore.InMemoryConcurrencyStore.TryAcquire: one attempt; the polling loop around it, the sleep on the event and the timeout are the interleaving of attempts in the runs.
- ConcurrencySafety.NeverOverCapacity: takes the limit of a key as fixed; `set_limit` between attempts is not modelled.
- Diff.ApplyDiff: decoding, `splitlines` on other separators than newline and non-ASCII digits in headers are not modelled. Diffs of several files are out of its reach in the source as well.
- DiffWriter.WriterIsExact: takes the changes and the gaps between them as given; how `difflib` finds and groups them is not part of this model.
- DiffHeaders.WrittenDiffApplies: needs the old side of every hunk nonempty unless the file is empty; otherwise the hunk is misplaced (`DiffSplice.InsertionMisplaced`).
- IdempotencyReplay.SavedResponseIsReplayed: within the time to live of the grant (`IdempotencySessions.AnswerIsFinal` has the exact end). The check is one step; between its awaits another retry's record could be deleted.
- `compute_request_hash`, the method and key-format filters and the header objects of the middleware: the hash is an input.
- The Redis and RabbitMQ back ends, worker tasks, calibration, authentication, configuration, telemetry, evidence loading and the user interface.
