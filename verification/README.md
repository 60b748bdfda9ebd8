# JobFlow verification

JobFlow runs background jobs. PostgreSQL holds the truth about every job (status,
attempts, error, timestamps); Redis holds the tokens that say what to run next (one
sorted set per queue, a sorted set of delayed retries, a dead-letter list). API calls,
one scheduler loop and any number of worker goroutines change the two stores step by
step, and no transaction spans both. These Dafny files model that protocol and prove
what holds in every state of every run, together with the arithmetic of delays and
scores, the SSE broker, the job table of the dashboard and its payload view.

`dafny verify dfyconfig.toml` verifies everything.

## How it is organised

| file | content |
|---|---|
| `Prelude.dfy` | Option, Result, sums over maps |
| `Timing.dfy` | retry delays in int64 nanoseconds, queue scores in float64 |
| `Jobs.dfy` | a row of the jobs table and the effect of every UPDATE on it |
| `Protocol.dfy` | the state machine: one action is one SQL statement, one Redis command or one internal move of a goroutine |
| `DatabaseSafety.dfy` | runs with any faults: exclusion, absorbing outcomes, attempts, bounds, coherence of columns |
| `Scheduling.dfy` | the backlog of scheduled jobs |
| `Tokens.dfy`, `TokenPlaces.dfy` | the invariant on "run me" tokens in fault-free runs |
| `LossWindow.dfy`, `LossExample.dfy` | which runs lose a job, which do not, one that does, and runs that orphan a job |
| `Stranding.dfy` | runs with crashes and failing statements: when a waiting job loses its last token, and when a token doubles |
| `Accounting.dfy` | conservation laws of the dead-letter list and of the worker counters |
| `Progress.dfy`, `Completion.dfy` | a measure that falls, absence of deadlock, completion of every job whatever the processor decides |
| `Fairness.dfy` | infinite runs in which every party goes on acting: every job that is not lost finishes |
| `RedisQueues.dfy` | the key space, the queue operations as methods, the order of a drain |
| `Services.dfy` | repositories, worker pool and job service as classes with the loops of the program |
| `Refinement.dfy` | each method that changes the two stores, run alone, is a run of the state machine with the same effect |
| `Broker.dfy` | the SSE broker, as a class and as a state machine over its locks and channels |
| `JobFilters.dfy` | filter, stable sort and clamped pages |
| `PayloadDisplay.dfy` | the recursive rewrite that hides identifiers |

The same state machine is used in three ways.

* *Any run.* The actions under `Broken` let the contents of Redis change
  arbitrarily, let goroutines, API calls and the scheduler die anywhere, let the database
  refuse the statements whose errors a worker meets, and let the answer of MarkRunning be
  lost. `DatabaseSafety` and `Scheduling` hold for all of these, `Stranding` for all but
  the changes of Redis.
* *Fault-free runs* (`AllRegular`). Every command interleaves with every other; there
  is one scheduler. `Tokens`, `LossWindow`, `Accounting`, `Progress` and `Fairness`.
* *Coarse runs* (`CoarseRegular`). As above, and the scheduler promotes each retry
  (fetch, enqueue, remove) without another command in between. They expand to
  fault-free runs (`ExpandAll`); token linearity is stated for them, and completion of
  every job without exception.

Fields that exist for the statements only: `stamp` and `writes` number the writes of the
retry set, `hist` counts manual retries and remembers the last clock reading of
`EnqueueAfter`, `lost` names the jobs whose rewritten retry entry was removed, and
`missedDone` and `missedFailed` count increments that met no row of the workers table.

## Where the code does not keep a promise

* *A job can be lost without any fault.* `PromoteRetries` enqueues a due retry and then
  removes its entry. If the job is popped, fails and is re-added in between, the removal
  deletes the new entry. `JobsCanBeLost` gives such a run from the empty system,
  `LostOnlyByRemoval` and `LostAlongIff` show that nothing else loses a job,
  `TokenLinearity` that none is lost when the iteration is not interrupted.
* *A crash can lose a waiting job, or double its token.* Nothing puts an id back: a call
  that dies between its statement and the enqueue, a scheduler that dies with its batch, a
  goroutine that dies between the pop and MarkRunning or between MarkFailed and
  EnqueueAfter take the id with them. `SuppliedUnlessStranded` says for all runs with such
  faults exactly when a job that waits is left without a token, `StrandedForever` that it
  never runs then. A scheduler that dies between the enqueue and the removal of a retry
  leaves two tokens (`FaultOnToken`); exclusion holds all the same.
* *A running row may never get an outcome.* It happens exactly when the goroutine
  executing the job dies, or, with the worker process alive, MarkRunning takes effect but
  its answer is lost, or the database does not run MarkCompleted or MarkFailed. `handle`
  returns on an error of the first and of the last and drops the error of the other
  (`OrphanedIff` for one step, `OrphanedAlongIff` for runs, `JobsCanBeOrphaned` for the
  four runs from the empty system). No statement recovers such a row (`OrphanedForever`).
* *Errors inside `PromoteRetries` lose a retry.* When Find fails, or the enqueue, the error
  is ignored and the entry removed all the same (`RetrySurvivesIff`).
* *Delays* are wrong from attempt 35 on (`BackoffExactIff`); the first wrong one is
  negative, so that retry is due at once. Without faults this takes centuries: by
  `RetryIsNotEarly` alone the job has waited about 2^34 seconds by then.
* *Age* stops counting where scores are rounded. `AgeCountsIff` and `OrderLawIff` say
  exactly between which moments the order by priority and age holds; for a priority from
  -9000000 to 9000000 it does at any time of this century.
* *A failed enqueue* leaves its row `queued` in the database without a token. It fails
  exactly when the key of the queue holds a list (`EnqueueFails`). In `Create` and `Retry`
  the contracts state this path, and that of a statement whose answer is lost. In
  `PromoteScheduled` every later row of the batch stays behind as well: `PushStopsIff` and
  `PushedIff` say exactly when and which, `BatchCanLoseTokens` gives an input, a job for
  the queue "dead-letter" ahead of another job.
* *A queue called "dead-letter"* shares its Redis key with the dead-letter list
  (`KeysApart`, `EnqueueBlocksDeadLettersIff`). Fault-free runs create no such job.
* *Worker counters.* `workers.id` is a UUID column but the default worker id is not a
  UUID, so heartbeats and increments of such a pool change nothing. `FleetConservation`
  counts them; `RegisteredPoolsMissNothing` is the case without.
* *The payload view* drops a field when a later one is shown under the same name.
  `FieldsAreKeptIff`, `ValueMattersIff` and `OnlyIdentifiersAreHiddenIff` say exactly when.
* The architecture document lists `failed` among the outcomes of a job. No statement ever
  sets it (`AttemptAccounting`).

## Model

| member | source | states |
|---|---|---|
| Timing.ClockReadings | internal/queue/redis_queue.go:27-44 | The second and the millisecond of a clock reading in nanoseconds, by their bounds: the reading lies in them. |
| Timing.BackoffExactIff | internal/worker/pool.go:93 | For every attempt count from 1 on, the computed delay is 2^(attempts-1) seconds if and only if attempts <= 34: exact for every automatic retry when max_attempts <= 35, wrong for every count above. |
| Timing.BackoffAfter34IsNegative | internal/worker/pool.go:93-94 | At attempt 35 int64 overflow makes the delay negative, so the retry entry is already due when written. |
| Timing.BackoffPastTheBound | internal/worker/pool.go:93 | Past the bound the delay is 2^(attempts-1) seconds modulo 2^64 nanoseconds, and from attempt 56 on it is 0. |
| Timing.TotalBackoffClosedForm | internal/worker/pool.go:92-94 | For max_attempts up to 35, the delays of a life in which every run fails add up to 2^(max_attempts-1) - 1 seconds. |
| Timing.RetryScoreIs | internal/queue/redis_queue.go:34-44 | The due second is exactly the one in which 2^(a-1) seconds after the clock reading fall, and a scan no sooner than that finds the entry due. |
| Timing.RipeMeansWaited | internal/queue/redis_queue.go:34-44 | An entry that the retry scan selects was written more than 2^(a-1) - 1 seconds ago, although both clock readings are cut to whole seconds. |
| Timing.ToDoubleMonotone | internal/queue/redis_queue.go:27 | Rounding an integer to float64 (nearest, ties to even) never reverses two integers. |
| Timing.ToDoubleIsNearest | internal/queue/redis_queue.go:27 | Rounding by its definition: the result is a float64 value and no float64 value is nearer. |
| Timing.TiesGoToEven | internal/queue/redis_queue.go:27 | Between two float64 values as near as each other, just above 2^53, the one with the even mantissa. |
| Timing.ScoreNeverReversesDominance | internal/queue/redis_queue.go:27 | For all priorities and times, rounded or not, a job at least as urgent and at least as old never gets the later score. |
| Timing.ScoreOrderIff | internal/queue/redis_queue.go:26-31 | While the scores of both jobs lie within 2^53, a job of priority p written at t scores before one of priority q written at u if and only if t - u < (p - q) * 10^9 ms, and the scores are equal exactly at the limit. |
| Timing.BaseIsExact | internal/queue/redis_queue.go:27 | For every value of the INTEGER column the product of priority and 10^9 is exact in float64, far beyond 2^53. |
| Timing.AgeCountsIff | internal/queue/redis_queue.go:26-31 | Between two moments at least 3 ms apart, jobs of one priority always score in the order they were written if and only if the later moment and the scores at both ends lie within 2^53. |
| Timing.OrderLawIff | internal/queue/redis_queue.go:26-31 | Between two such moments the whole order by priority and age holds among jobs of two priorities if and only if no score of either is rounded there. |
| Jobs.StatementsInColumns | internal/repository/job_repository.go:92-184 | For each UPDATE the columns its WHERE clause asks for and the columns it sets, all others unchanged. |
| DatabaseSafety.UpdatesAreCoherent | internal/repository/job_repository.go:92-184 | Each UPDATE, under the condition on the status that guards it, keeps the columns of a row coherent: status, attempts, error and timestamps. |
| DatabaseSafety.StepIsGuarded | internal/repository/job_repository.go:92-184 | In a safe state every action of every party, faults included, changes a row by one of its guarded transitions; attempts grows by one exactly on a granted MarkRunning, the number of manual retries exactly on a Requeue. |
| DatabaseSafety.StepKeys | internal/repository/job_repository.go:32-49 | Only Create adds a row, in the status it chose; no action removes one. |
| DatabaseSafety.ExecutionIsOwned | internal/repository/job_repository.go:107-148 | An execution begins with a granted MarkRunning of the same goroutine, and while it lasts no action of anybody touches the row. |
| DatabaseSafety.RunKeepsSafe | docs/ARCHITECTURE.md:57-63 | From a safe state every run, with arbitrary contents of Redis and crashes anywhere, ends in a safe state: rows coherent, executions exclusive. |
| DatabaseSafety.OneExecutionAtATime | internal/repository/job_repository.go:107-148 | In every run from the start, faults included, a job has at most one execution at a time and its row is running throughout, so the updates guarded by id only always meet a running row of their own. |
| DatabaseSafety.ClosedForever | internal/repository/job_repository.go:92-164 | After completion or a successful Cancel the row never changes again and no MarkRunning of the job succeeds, whatever ids Redis still holds or goroutines have already popped. |
| DatabaseSafety.CallsAreGuarded | internal/repository/job_repository.go:92-158 | Cancel is possible exactly for the owner of a queued, scheduled or retrying job, a manual retry exactly for the owner of a failed or dead one. |
| DatabaseSafety.UsersKeepToTheirRows | internal/repository/job_repository.go:92-158 | A Cancel or manual retry of one user changes no row of another. |
| DatabaseSafety.CancelledIff | internal/repository/job_repository.go:92-105 | Over every run, faults included, a job is cancelled if and only if its own owner made a successful Cancel. |
| DatabaseSafety.OrphanedIff | internal/worker/pool.go:72-89 | A step leaves a running row without a goroutine if and only if there was none before or the step is a MarkRunning whose answer is lost, the death of the goroutine executing the job, a refused MarkCompleted or a refused MarkFailed. |
| DatabaseSafety.OrphanedAlongIff | internal/worker/pool.go:71-89 | After any run a running row has no goroutine if and only if it had none at the start or some step of the run was one of these four; every other running row still has the goroutine that will end it. |
| DatabaseSafety.OrphanedForever | internal/repository/job_repository.go:92-184 | Such a row never changes again and the job never runs again. |
| DatabaseSafety.RunCounts | internal/repository/job_repository.go:107-158 | Along every run, attempts grows by the granted runs and the requeue count by the manual retries; owner, queue, priority, max_attempts and schedule never change. |
| DatabaseSafety.AttemptAccounting | internal/repository/job_repository.go:107-158 | Over every run from the start: attempts is the number of granted runs and at most max(1, max_attempts) plus the manual retries; retrying means 1 <= attempts < max_attempts and no manual retry ever; dead means attempts >= max_attempts; failed is never reached. |
| DatabaseSafety.OneRunPerManualRetry | internal/repository/job_repository.go:150-158 | After a manual retry a job is granted at most one more run until the next manual retry, and none once it is no longer queued. |
| DatabaseSafety.ChangesAreBounded | internal/repository/job_repository.go:92-184 | Without manual retries a run of any length changes the status of a job at most 2 * max(1, max_attempts) + 1 times, faults included. |
| DatabaseSafety.ReachableRowsAreCoherent | internal/repository/job_repository.go:32-184 | In every reachable state: completed_at is set iff completed, started_at iff attempts > 0; retrying and dead rows carry an error; an error occurs only in the named statuses; no job leaves scheduled, or starts, before scheduled_at. |
| Scheduling.ScanShrinksBacklog | internal/repository/job_repository.go:166-184 | One scan takes 100 jobs, or all, off the set of jobs that were due at any earlier moment: later arrivals cannot push ahead. |
| Scheduling.BacklogIsWorkedOff | internal/service/job_service.go:129-141 | Over every run, faults included, after n scans at most max(0, D - 100 n) of the D jobs due at the start are still scheduled. |
| Scheduling.EnoughTicksClearBacklog | internal/service/job_service.go:129-141 | ceil(D/100) ticks leave none of the D due jobs scheduled. |
| Tokens.ApiKeepsLive | internal/service/job_service.go:37-92 | Create, Cancel, Requeue and the enqueue that follows keep the number of live tokens of every job at what its status demands. |
| Tokens.SchedKeepsLive | internal/queue/redis_queue.go:41-57 | So does every command of the scheduler; the one exception, removing a rewritten entry, is recorded in `lost`. |
| Tokens.WorkKeepsLive | internal/worker/pool.go:57-100 | So does every step of a goroutine, from the pop to the re-add or the dead-letter push. |
| TokenPlaces.DueIsReady | internal/queue/redis_queue.go:41-53 | A retry fetched by the scheduler has a row with the queue it is enqueued to, and if it is still retrying its delay is over. |
| TokenPlaces.StepKeepsTokens | internal/worker/pool.go:71-100 | Every fault-free step keeps the token invariant: what each place that holds an id implies about the row, the stamps of the retry set, and the token count. |
| TokenPlaces.RunKeepsTokens | internal/worker/pool.go:71-100 | Every fault-free run keeps the token invariant. |
| LossWindow.TokenUnlessLost | internal/queue/redis_queue.go:41-80 | In every fault-free run a queued or running job has exactly one live token; a retrying one has one unless and only unless it is in `lost`; a scheduled, completed or dead one has none; a cancelled one at most one. |
| LossWindow.LostOnlyByRemoval | internal/queue/redis_queue.go:49-55 | `lost` grows exactly when a PromoteRetries iteration removes an entry written after that iteration's enqueue. |
| LossWindow.TokenLostOnlyByRemoval | internal/queue/redis_queue.go:49-55 | A retrying job that has its token is without one after a step, and still retrying, if and only if the step was that removal. |
| LossWindow.LostAlongIff | internal/queue/redis_queue.go:49-55 | After a fault-free run a job is lost if and only if it was at the start or some step of the run was such a removal. |
| LossWindow.LostForever | internal/queue/redis_queue.go:49-55 | A lost job stays retrying or is cancelled, no place leads it to a goroutine, and it never runs again. |
| LossWindow.PopIsWastedOnlyOnCancelled | internal/worker/pool.go:71-75 | In fault-free runs MarkRunning of a popped id succeeds if and only if the job was not cancelled. |
| LossWindow.RetryIsNotEarly | internal/worker/pool.go:92-94 | In fault-free runs the run after failed attempt a, for a up to 34, is granted more than 2^(a-1) - 1 seconds after EnqueueAfter read the clock. |
| LossWindow.RetryIsNotLate | internal/queue/redis_queue.go:36-48 | In fault-free runs, from 2^(a-1) seconds after EnqueueAfter read the clock on, the scan of the retry set selects the entry. |
| LossWindow.PromoteOneKeepsAll | internal/queue/redis_queue.go:49-55 | An uninterrupted iteration fetches, enqueues and removes, and loses no job. |
| LossWindow.CoarseRunKeepsAll | internal/queue/redis_queue.go:41-57 | A run whose iterations are not interrupted loses no job. |
| LossWindow.TokenLinearity | internal/worker/pool.go:71-99 | In every coarse run a queued, retrying or running job is in exactly one of all the places that can hold its id, a scheduled, completed or dead one in none, a cancelled one in at most one. |
| LossExample.WindowLosesJob | internal/queue/redis_queue.go:49-55 | Whenever the scheduler is about to promote a job with two attempts left and a goroutine polls its empty queue, an explicit fault-free run loses the job. |
| LossExample.JobsCanBeLost | internal/queue/redis_queue.go:49-55 | An explicit fault-free run from the empty system ends with a retrying job that has no token. |
| LossExample.JobsCanBeOrphaned | internal/worker/pool.go:72-89 | From the empty system, a fault-free run and then any one of the four faults ends with an orphaned job. |
| Stranding.StrandedIff | internal/worker/pool.go:57-100 | In runs with any faults but changes of Redis, a step leaves a queued or retrying job in no place if and only if it was in none before, or the step takes it out of the last one: the death of the call, the scheduler or the goroutine that holds it, or the removal of its only retry entry. |
| Stranding.StrandedForever | internal/repository/job_repository.go:107-121 | Such a job never runs; it stays as it is or is cancelled. |
| Stranding.SuppliedUnlessStranded | internal/service/job_service.go:50-61 | Over every such run from the start, a job that waits to run is in no place if and only if some step of the run was one of these. |
| Stranding.FaultOnToken | internal/queue/redis_queue.go:49-55 | A fault leaves the one token of a waiting job alone, takes it exactly when it kills the party holding it, and doubles it exactly when the scheduler dies between the enqueue and the removal of that job's retry. |
| Accounting.DeadLetterConservation | internal/worker/pool.go:86-98 | In fault-free runs, the entries of a job in the dead-letter list plus the goroutines about to push it equal its manual retries, plus 1 if it is dead. |
| Accounting.FleetConservation | internal/worker/pool.go:72-91 | In fault-free runs, attempts summed over jobs equal jobs_processed + jobs_failed summed over workers, plus executions and outcomes not yet counted, plus increments that met no row; completed rows equal the counted and uncounted successes. |
| Accounting.WorkCounters | internal/repository/worker_repository.go:29-36 | A step of a goroutine is missed by the counters if and only if it is an increment of a pool without a row. |
| Accounting.RegisteredPoolsMissNothing | internal/repository/worker_repository.go:19-36 | Once every pool has sent a heartbeat, no increment meets no row. |
| Progress.StepUsesWork | internal/worker/pool.go:57-99 | In fault-free runs every step that moves a job or its token makes the measure of remaining work strictly smaller, and no step but Create and Requeue raises it. |
| Progress.MovesAreBounded | internal/worker/pool.go:57-99 | Without new work, a fault-free run of any length moves jobs and tokens at most as often as the measure says at its start. |
| Completion.PollUntilPop | internal/queue/redis_queue.go:59-73 | A goroutine that polls round the list reaches and pops a queue that is not empty. |
| Completion.EarliestExists | internal/repository/job_repository.go:171-174 | The selection of the scan exists for every table: at most k due rows, the earliest, not empty if any row is due. |
| Completion.UnfinishedMeansMoves | internal/worker/pool.go:57-99 | No deadlock: when every used queue is polled by some goroutine, as long as a job is neither finished nor lost, time, the scheduler, pending enqueues and goroutines alone can move something, whatever outcome the processor gives to each execution. |
| Completion.EveryJobFinishesUnlessLost | internal/worker/pool.go:57-99 | After any fault-free run, when every used queue is polled by some goroutine, and for any outcome of each execution, a continuation without any user brings every job to completed, cancelled or dead, except the lost ones and the one whose rewritten entry is about to be removed; no such continuation moves more often than the measure says. |
| Completion.EveryJobFinishes | internal/worker/pool.go:57-99 | The same after any coarse run, without exception. |
| Fairness.FairRunsSettle | internal/worker/pool.go:57-69 | In every infinite fault-free run without new work in which every goroutine and the scheduler act again and again, pending calls get to their enqueue and time goes on, from some step on every job is completed, cancelled, dead or lost. |
| Fairness.EveryJobFinishesFairly | internal/worker/pool.go:57-69 | The same for every such continuation of any fault-free run from the start, when every used queue is polled by some goroutine. |
| RedisQueues.KeysApart | internal/queue/redis_queue.go:22-24 | Different queues have different keys, none the key of the retry set, and exactly one queue name yields the key of the dead-letter list. |
| RedisQueues.DrainReturns | internal/queue/redis_queue.go:59-73 | Repeated Dequeue with no enqueue in between returns an item if and only if it waits in a listed queue. |
| RedisQueues.DrainIsOrdered | internal/queue/redis_queue.go:59-73 | It returns the items by position of the queue in the list, then score, then id, and none twice. |
| RedisQueues.DrainTouchesOnlyListed | internal/queue/redis_queue.go:59-73 | It empties the listed queues and changes no other key. |
| RedisQueues.OvertakenOnlyByAge | internal/queue/redis_queue.go:26-31 | In one queue, with exact scores, a waiting job of priority q written at u is overtaken by a job of priority p only if that one was written by u + (p - q) * 10^9 ms. |
| RedisQueues.EnqueuedIsWaiting | internal/queue/redis_queue.go:26-31 | Enqueue makes its job wait with its score and leaves what else waits in any queue as it was. |
| RedisQueues.UrgentComesOutFirst | internal/queue/redis_queue.go:26-73 | Of two jobs enqueued in one queue at clock readings in nanoseconds, both come out of a drain, and the one ahead by priority times 10^9 ms and age in whole milliseconds first, whatever else waits. |
| RedisQueues.EnqueueBlocksDeadLettersIff | internal/queue/redis_queue.go:82-84 | Enqueue makes the dead-letter list unusable if and only if the queue is called "dead-letter" and the list is empty. |
| RedisQueues.RedisQueue.Enqueue | internal/queue/redis_queue.go:26-32 | Writes the job into the sorted set of its queue, scored, where nothing is rounded, by the millisecond of the clock reading less 10^9 per priority; or fails and changes nothing when the key holds a list. |
| RedisQueues.RedisQueue.EnqueueAfter | internal/queue/redis_queue.go:34-39 | Writes the job into the retry set, due in the second in which the delay ends; otherwise changes nothing. |
| RedisQueues.RedisQueue.RemoveRetry | internal/queue/redis_queue.go:54 | Removes the one entry from the retry set. |
| RedisQueues.RedisQueue.DeadLetter | internal/queue/redis_queue.go:82-84 | Puts the job at the head of the dead-letter list, or fails and changes nothing when the key holds a sorted set. |
| RedisQueues.RedisQueue.Due | internal/queue/redis_queue.go:42-48 | Returns exactly the entries of the retry set whose second has begun, by score and id, or the error when the key holds a list. |
| RedisQueues.DueIsDue | internal/queue/redis_queue.go:42-48 | An entry is among the due ids if and only if its second has begun. |
| RedisQueues.InOrderMembers | internal/queue/redis_queue.go:42-48 | The answer to the scan names every due id and no other. |
| RedisQueues.InOrderIsOrdered | internal/queue/redis_queue.go:42-48 | It names each once, by score and then by id. |
| RedisQueues.RedisQueue.Dequeue | internal/queue/redis_queue.go:59-80 | Returns the head of the drain order and leaves its tail. It reports a failed command exactly when the failing one is among those it sends, which may be while an entry waits; otherwise it fails with a type error exactly when a key holding a list comes first, and gives up exactly when all listed queues are empty. An error changes nothing. |
| Services.JobRepository.Create | internal/repository/job_repository.go:32-49 | Stores a new row with no attempts, scheduled iff its time lies in the future, else queued; a refused INSERT stores nothing, one whose answer is lost stores the row and reports an error. |
| Services.JobRepository.Find | internal/repository/job_repository.go:77-90 | Returns the row of the id, or the error when there is none. |
| Services.JobRepository.Cancel | internal/repository/job_repository.go:92-105 | Succeeds iff the caller owns the job and it is queued, scheduled or retrying; changes that row only. |
| Services.JobRepository.MarkRunning | internal/repository/job_repository.go:107-121 | Succeeds iff the job is queued or retrying; sets status, attempts + 1 and started_at, no other column, and returns the new row. |
| Services.JobRepository.MarkCompleted | internal/repository/job_repository.go:123-130 | Sets status, completed_at to the clock reading and clears the error of the row of the id, whatever its status, unless the database refuses. |
| Services.JobRepository.MarkFailed | internal/repository/job_repository.go:132-148 | Makes the row retrying while attempts are left and dead otherwise, whatever its status, stores the message, no other column, and returns the row. |
| Services.JobRepository.Requeue | internal/repository/job_repository.go:150-164 | Succeeds iff the caller owns the job and it is failed or dead; queues it without touching attempts. |
| Services.JobRepository.ReadyScheduled | internal/repository/job_repository.go:166-184 | Makes exactly the selected rows queued, no other column, and returns them in the order the database gave. |
| Services.WorkerRepository.Heartbeat | internal/repository/worker_repository.go:19-27 | Stores hostname, status and time, starts the counters of a new pool at 0 and keeps those of a known one; an id that is no UUID is rejected without effect. |
| Services.WorkerRepository.IncrementProcessed | internal/repository/worker_repository.go:29-36 | Adds one to the counter of the outcome and notes the time, or changes nothing when the pool has no row or the database refuses. |
| Services.Pool.Handle | internal/worker/pool.go:71-100 | The effect on both stores of handling one popped id: a refused grant, a success, a retry due in the second in which 2^(a-1) seconds after the failure end, a dead letter, and each with MarkRunning, the outcome or the counter refused, or done with the answer lost. |
| Services.JobService.Create | internal/service/job_service.go:37-64 | Rejects an empty type, and reports a refused INSERT, without effect; otherwise stores the job, column by column, with queue "default", 3 attempts and payload {} where none or an invalid one is given, and enqueues it iff it is queued, reporting an enqueue error, or a lost answer, although the row stays. |
| Services.JobService.Cancel | internal/service/job_service.go:74-80 | Cancels iff the guarded UPDATE matched; Redis is not touched. |
| Services.JobService.Retry | internal/service/job_service.go:82-92 | Requeues and enqueues the job of its owner iff it is failed or dead; an enqueue error leaves the row queued. |
| Services.JobService.PromoteRetries | internal/queue/redis_queue.go:41-57 | Afterwards the due ids are gone from the retry set, those that Find returned and whose queue accepts them wait there with their scores, and nothing else changed; an error of the scan ends it at once. |
| Services.RetriesArePromoted | internal/queue/redis_queue.go:49-55 | The same for the loop over any list of ids, repeated ids included. |
| Services.RetrySurvivesIff | internal/queue/redis_queue.go:49-55 | A promoted id waits in its queue afterwards if and only if Find returned its row and the key of the queue holds no list; its entry is gone either way. |
| Services.JobService.PromoteScheduled | internal/service/job_service.go:129-141 | The loop over the promoted batch stops with an error exactly when the key of some job holds a list; a job new to its queue then waits there exactly when no key up to its own does; no retry is promoted in that case, otherwise the retries follow. |
| Services.EnqueueFails | internal/queue/redis_queue.go:26-32 | Enqueue fails if and only if the key of the queue holds a list, and then changes nothing. |
| Services.PushStopsIff | internal/service/job_service.go:134-139 | The loop over a batch stops with an error if and only if the key of some job holds a list. |
| Services.PushedIff | internal/service/job_service.go:134-139 | A job of the batch, new to its queue, waits there afterwards if and only if neither its key nor that of an earlier job holds a list. |
| Services.BatchCanLoseTokens | internal/service/job_service.go:134-139 | After one job has died, a batch headed by a job of the queue "dead-letter" leaves both of its jobs queued in the database and in no queue. |
| Refinement.HandleIsARun | internal/worker/pool.go:71-100 | `handle`, run alone, with any outcome and any refused statements or lost answers, is a run of the state machine with the same effect on both stores, ending with the goroutine polling again; without these and with a usable dead-letter list the run is fault-free. |
| Refinement.DequeueIsARun | internal/queue/redis_queue.go:59-80 | `Dequeue`, run alone, is a run whatever its result: empty polls and the pop of the first minimum, empty polls and a failed command or type error, or rounds of empty polls until the context is done. |
| Refinement.CreateIsARun | internal/service/job_service.go:37-64 | `Create`, run alone, is a run for every input: nothing, the INSERT, the INSERT and the enqueue, or the INSERT and an enqueue error or lost answer that ends the call. |
| Refinement.RetryIsARun | internal/service/job_service.go:82-92 | `Retry`, run alone, is a run in every case: nothing when the UPDATE matches no row or is refused, else the UPDATE and the enqueue, its error, or a lost answer. |
| Refinement.CancelIsARun | internal/service/job_service.go:74-80 | `Cancel`, run alone, is a run: the guarded UPDATE, or nothing. |
| Refinement.HeartbeatIsARun | internal/repository/worker_repository.go:19-27 | A heartbeat is a run: the registration of a new pool, or nothing that the machine keeps. |
| Refinement.TickIsARun | internal/service/job_service.go:129-141 | A whole `PromoteScheduled`, with its `PromoteRetries`, run alone, is a run of the scheduler from rest to rest in every case: a scan refused or without an answer, a batch that stops at an enqueue error, retries whose Find or enqueue fails. It is fault-free when none of these occurs. |
| Broker.EventBroker.Subscribe | internal/realtime/broker.go:57-60 | Registers a new, empty, open channel. |
| Broker.EventBroker.Unsubscribe | internal/realtime/broker.go:61-66 | Removes the channel and closes it; what it buffers stays readable. |
| Broker.EventBroker.PublishRaw | internal/realtime/broker.go:33-42 | Offers the message exactly once to every registered channel; a full one keeps its 16 messages. |
| Broker.NoSendOnClosed | internal/realtime/broker.go:33-66 | Under every interleaving of publishers and connections, no send reaches a closed channel. |
| Broker.EveryMessageIsAccountedFor | internal/realtime/broker.go:33-78 | A message is read or buffered, skipped, or still to be offered to a client, exactly one of these, if and only if it was published while the client was registered; it is skipped only when 16 messages were waiting. |
| Broker.ReadInPublishOrder | internal/realtime/broker.go:44-78 | With one publisher a client reads a subsequence, in publish order, of what was published while it was registered. |
| JobFilters.SpaceCodes | web/src/views/useJobFilters.js:14 | White space is exactly the 25 code points of WhiteSpace and LineTerminator in ECMA-262. |
| JobFilters.TrimCutsBlanks | web/src/views/useJobFilters.js:14 | Trimming a query takes all the white space off both ends and nothing else. |
| JobFilters.MatchesIff | web/src/views/useJobFilters.js:14-20 | For any lower-case mapping, a job passes if and only if it has the chosen status and queue and its type, queue and status, in one line and lower case, contain the trimmed query in lower case. |
| JobFilters.FilterIs | web/src/views/useJobFilters.js:15-20 | Filtering keeps the jobs that match, each where it stood. |
| JobFilters.SortIsStable | web/src/views/useJobFilters.js:22-27 | The sorted list is ordered by the chosen column and has, for every key, the same elements in the same order as before. |
| JobFilters.StableOrderIsUnique | web/src/views/useJobFilters.js:22-27 | Two lists that are ordered and have the same elements per key in the same order are equal: any stable sort shows the same table. |
| JobFilters.TableIsInOrder | web/src/views/useJobFilters.js:22-27 | Of two rows the upper one has the higher or equal priority, the more attempts, the earlier status in collation or the later date, as the sort option says. |
| JobFilters.PageIs | web/src/views/useJobFilters.js:30-33 | The page shown is the requested stretch of the list, or the last one when there are not so many; the page count is the least that covers the list, and at least 1. |
| JobFilters.PagesCoverList | web/src/views/useJobFilters.js:30-33 | The pages from 1 to the page count, one after the other, are the whole list. |
| JobFilters.PageIsNotEmpty | web/src/views/useJobFilters.js:30-33 | A requested page from 1 on, however far past the end, is not empty unless the list is. |
| JobFilters.TableIsComplete | web/src/views/useJobFilters.js:13-33 | Going through all pages shows exactly the jobs that match the filters, ordered, equal ones in the order they came. |
| PayloadDisplay.IdentifiersAreHidden | web/src/utils/format.js:18-37 | Two values that differ only under identifier keys look the same, at any nesting and when shown keys collide. |
| PayloadDisplay.IdentifierKeys | web/src/utils/format.js:26 | A key is an identifier exactly when it is "id" or ends with "_id" or "Id". |
| PayloadDisplay.ShownKeys | web/src/utils/format.js:27-29 | The name a key is shown under, for each spelling; a key keeps its name exactly when it is no identifier. |
| PayloadDisplay.LeavesAreShown | web/src/utils/format.js:36 | A value that is neither array nor object is shown as it is. |
| PayloadDisplay.ArraysAreShown | web/src/utils/format.js:19-21 | An array is shown item by item, in order. |
| PayloadDisplay.ObjectsAreShown | web/src/utils/format.js:23-33 | The view of an object has each shown name once; under it stands, for the last field of that name, "Name unavailable" if its key is an identifier and the view of its value if not. |
| PayloadDisplay.OrderIsShown | web/src/utils/format.js:24-33 | The names stand in the order in which they first occur. |
| PayloadDisplay.PlainIsShown | web/src/utils/format.js:18-37 | A value without identifier keys at any depth is shown as it is. |
| PayloadDisplay.FieldsAreKeptIff | web/src/utils/format.js:24-33 | An object shows as many fields as it has if and only if no two of its keys are shown under one name. |
| PayloadDisplay.ValueMattersIff | web/src/utils/format.js:24-33 | Two objects that differ in the value of one field look the same if and only if its key is an identifier, a later field is shown under the same name, or the two values look the same. |
| PayloadDisplay.LooksSameIff | web/src/utils/format.js:18-37 | Between values with the same keys, collisions included, they look the same if and only if their visible parts are the same. |
| PayloadDisplay.OnlyIdentifiersAreHiddenIff | web/src/utils/format.js:18-37 | The view of a value hides the identifiers and nothing else if and only if, at any nesting, no other field gives way to a later one shown under the same name. |

## Left out

- Completion.EveryJobFinishes: shows that a finishing continuation exists for every choice of outcomes and that no continuation moves more often than the measure. Fairness.FairRunsSettle is the statement for infinite runs; that every goroutine goes on acting includes that the processor always returns.
- LossWindow.TokenLinearity: stated for runs whose PromoteRetries iterations are not interrupted, because it is false otherwise (LossExample.JobsCanBeLost); LossWindow.TokenUnlessLost is the statement for all fault-free runs.
- Timing.AgeCountsIff: windows shorter than 3 ms past 2^53 may be in order by chance. Scores are rounded after each operation, as on amd64; a fused multiply-add is not modelled.
- DatabaseSafety.ClosedForever: takes ReadyScheduled as one atomic statement. Under READ COMMITTED its outer UPDATE selects by id only and does not ask for the status again, so a Cancel that commits between the inner selection and the row lock may be undone.
- RedisQueues.RedisQueue.Dequeue: the wait of 500 ms between rounds is left out, the context is done after a given number of rounds or at a given command, and the member that is not a string cannot occur.
- Services.JobRepository.ReadyScheduled: the selected ids, and the order in which they come back, are a parameter, since SQL fixes neither.
- Atomicity and identity: one SQL statement and one Redis command are atomic, new ids are fresh, rows are never deleted, and one monotone clock in nanoseconds serves all machines. The rounding of PostgreSQL to microseconds is not modelled.
- Columns: created_at and updated_at; the overflow of 32-bit columns, over-long names, and a user removed from the users table.
- The processor: its result is any success or any failure after any time; timeouts and network calls are one of these. That it returns is assumed.
- Connection errors of Redis: in the classes, Dequeue apart, a command fails only on a key of the wrong type; in the state machine they are crashes and lost writes.
- A queue called "dead-letter" in fault-free runs: the state machine keeps the list and the sorted sets apart, so its fault-free runs create no job there. Refinement covers such jobs, with their errors.
- More than one scheduler: the token statements assume one, as the API process starts it. The statements for any run follow the rows only.
- The endless loops of the pool (`Pool.loop`, heartbeats every 5 seconds): the state machine has their steps, the classes have one iteration.
- Publishing of events, Redis pub/sub and JSON encoding: only the in-process fan-out of the broker is modelled. A message is named by its position in the order in which publishers take the read lock.
- JavaScript details: lower case and the collation of statuses are parameters, dates are numbers, keys that look like integers are not moved to the front of an object. The page size is positive, as the page offers no other.
- Statistics, listing, the dashboard copy, HTTP handlers, authentication, configuration, schema set-up, React components and title-casing: settled by reading one function, or not part of the protocol.
