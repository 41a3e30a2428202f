# Verified model of the job queue and its self-healing agent

This project models a distributed job queue (job rows in MySQL, a delay queue, cancellation flags and limiter keys in
Redis, a Kafka topic, and the Java services that move jobs between them) together with the agent that heals it (a C++
log reader that prints JSON, and a Python pipeline that decides which admin request to make). It proves what every
step keeps, what holds over every run, and where the code does less than its documentation says.

## How it is organised

`Protocol.dfy` holds the whole system as one state (`Sys`: clock, job table, delay queue, flags, limiter windows,
watcher heartbeat, topic, breakers) and the atomic steps that change it. A step is one service method; `watch`, its gap
recovery and the reconciliation are one step for each query and its batch of updates. A `Run` is any sequence of enabled
steps, in any interleaving, with a clock that never runs backwards; losing all of Redis and redelivering a message are
steps of the environment. `Booted` runs start from an empty system. Claims about fewer runs say which kinds of step the
run `Avoids`, or, for one job, that the run gives it no second message (`Single`) or leaves it its wait (`Patient`).

The services are classes (`Stores`, `Watcher`, `Dispatcher`, `JobCreation`, `Consumer`, `Admin`) whose methods work
on the shared stores step by step, with the loops of the source. Each is proved to make exactly the protocol's change of
the whole state. `JobQueue.JobQueueSystem` wires all of them to one set of stores, with a method for each of the two
steps of the environment; its invariant says that the objects are always in the state that a run leads to, so that the
theorems about runs speak about these objects.

`PerJob.dfy` reduces a step to what it does to one job: at most one of a dozen events. The theorems about single jobs
(`Ownership`, `ExecutionBound`, `BackoffFloor`, `NeverEarly`, `Cancellation`) and parts of the others rest on it.
`Effects.dfy` says what each step does in the numbers that the system promises, apart from the functions that compute it.
The theorems on runs, too, are stated in numbers; only the model itself uses the constants in `Jobs.dfy`.

`Starvation`, `Fairness` and `RedisRecovery` say who is served when; `AdmissionControl` compares limiter and breaker with
the history of a run. `Tightness` and `Revival` hold runs that reach a bound or break a promise. `Observer`, `Healing`
and the `Json*` and `SelfHealer*` modules model the agent, `SelfHealerPipeline` all of it from log to request.
`FiniteSets` holds facts about cardinalities.

## Where the code and its documentation differ

The model follows the code. The lemmas named here give the exact condition under which the documented behaviour holds,
or a concrete run on which it does not.

- The documented limit is 5 requests per second per type. The sorted set has one member per millisecond, so the code
  limits distinct milliseconds: six calls in one millisecond all pass (`SixInOneMillisecond`). `BurstWithinLimitIff`
  and, on runs, `DocumentedRateKeptIff` say exactly when the limit on requests is safe.
- After a loss of Redis the watcher is said to re-add every SCHEDULED job whose time has passed. Its recovery is sure to
  reach a job only within the last 60 s and among at most 500 (`RecoveryReachesIff`); older jobs stay lost however often
  it runs (`ForgottenForEver`, for a job such as that of `ForgottenJob`), until an admin reconciles (`LossIsDrained`).
- The retry delays of 2, 4, 8, 16 and 20 s hold (`BackoffKept`) unless recovery or reconciliation re-adds the job, with
  its schedule time, during its wait. `RescueKeepsBackoffIff` and `RescueKeepsWaitIff` say that this is the exact
  condition; `ReconcileDefeatsBackoff` is a run with two attempts in the same millisecond. Requeues and duplicate messages
  defeat the delays, too: `RequeueDefeatsBackoff`, `DuplicateDefeatsBackoff`.
- A duplicate message can move a finished job back to RETRY, because the cancellation, rate and circuit gates come
  before the status check: `DuplicateKeepsTerminalIff`, and a run, `DuplicateRevivesCompleted`.
- A cancellation only reaches deliveries within ten minutes: `DeliveryCancelsIff`, and a run, `LateDeliveryRuns`.
- An action that the model invents gets the operator's policy but nobody is alerted: `UnknownActionIsDropped`, and an
  incident, `InventedActionSilences`.
- The observer takes its clock to run forward. `RightFromIff` and, on the cached times alone, `AnswerIsRightIff` say
  exactly when its answers are right after the clock stepped back; there is an agent that suppresses an expired incident
  (`StepBackBreaksDedup`) and one that forwards an incident twice (`StepBackForgets`).
- The printer escapes three control characters and no Unicode line breaks; the reader gets an item exactly when its
  strings avoid the others: `LineParsesIff`, `LineIsOneLineIff`, `LinesOfItem`, and two lost incidents,
  `SeparatorIsLost`.

## Model

| member | source | states |
|---|---|---|
| `PerJob.StepIsEvent` | src/main/java/com/project/job_queue/service/KafkaConsumerService.java:64-165 | Each step of the system, batches of hundreds of jobs included, changes any one job by at most one of twelve events, each with its own guard, and changes nothing else about it |
| `Ownership.EveryRunIsSound` | src/main/java/com/project/job_queue/service/WatcherService.java:46-71 | On every run: a delay-queue score lies between the epoch and 20 s from now, a RETRY job has a retry time at most 20 s ahead, retries are at most 5, no job rests in PROCESSING, no message or score exists for a job that was never created |
| `Ownership.NothingIsLost` | src/main/java/com/project/job_queue/service/RedisDispatcherService.java:33-52 | On every run that does not lose Redis, requeues and redelivered messages included: a QUEUED job has an undelivered message, a SCHEDULED job is in the delay queue |
| `Ownership.SingleOwnership` | src/main/java/com/project/job_queue/service/RedisDispatcherService.java:26-56 | On runs without requeue, redelivery and loss of Redis the delay queue holds exactly the SCHEDULED jobs, the topic exactly one message per QUEUED job and none for any other |
| `Ownership.OneHolderRun` | src/main/java/com/project/job_queue/service/KafkaConsumerService.java:64-165 | Losses of Redis may strand a SCHEDULED job, but a job that is not requeued and whose messages are not redelivered never gets a second holder, whatever happens to other jobs |
| `Ownership.TerminalIsAbsorbing` | src/main/java/com/project/job_queue/service/KafkaConsumerService.java:119-123 | A COMPLETED, FAILED or CANCELLED row never changes again on a run that gives this job no second message |
| `Ownership.AtMostOneSuccess` | src/main/java/com/project/job_queue/service/KafkaConsumerService.java:119-132 | For a job that gets no second message the executor returned normally exactly once if it is COMPLETED and never otherwise |
| `Ownership.DuplicateKeepsTerminalIff` | src/main/java/com/project/job_queue/service/KafkaConsumerService.java:79-123 | A duplicate message leaves a finished job alone if and only if no gate stops it, or the flag finds it CANCELLED already |
| `Revival.DuplicateRevivesCompleted` | src/main/java/com/project/job_queue/service/KafkaConsumerService.java:79-123 | A run from an empty system on which the sixth message within a second turns a COMPLETED job into one that waits for a retry |
| `ExecutionBound.Amortised` | src/main/java/com/project/job_queue/service/KafkaConsumerService.java:119-163 | Executions so far plus the potential (retries left, messages in flight, one for a job on its way) never exceed 6 plus requeues plus redeliveries |
| `ExecutionBound.ExecutionsBounded` | src/main/java/com/project/job_queue/service/AdminService.java:88-108 | On every run a job's executor is invoked at most 6 times plus its effective requeues and its redelivered messages |
| `ExecutionBound.Descent` | src/main/java/com/project/job_queue/service/KafkaConsumerService.java:88-163 | For a job that gets no second message the measure 3 * (5 - retryCount) + stage pays for every status change; only a deferral gives three units back |
| `ExecutionBound.StatusChangesBounded` | src/main/java/com/project/job_queue/service/KafkaConsumerService.java:88-163 | A job that gets no second message and has D deferrals changes status at most 18 + 3D times |
| `Tightness.BoundsAreReached` | src/main/java/com/project/job_queue/service/KafkaConsumerService.java:119-163 | Without any deferral, requeue, duplicate or recovery a job makes 6 executions and 18 status changes |
| `Tightness.StatusBoundIsReached` | src/main/java/com/project/job_queue/service/KafkaConsumerService.java:88-163 | For every number n of deferrals there is a run with single delivery on which a job changes status 18 + 3n times |
| `Tightness.ExecutionBoundIsReached` | src/main/java/com/project/job_queue/service/AdminService.java:88-108 | For every number n of effective requeues there is a run on which a job is executed 6 + n times |
| `Jobs.BackoffTable` | README.md:300-306 | The computed delays are the documented 2, 4, 8, 16 and 20 seconds |
| `BackoffFloor.RunRespects` | src/main/java/com/project/job_queue/service/KafkaConsumerService.java:146-162 | The invariant behind the floor: retry time, score and clock of a job in each state are no earlier than its last attempt plus the backoff due |
| `BackoffFloor.BackoffKept` | src/main/java/com/project/job_queue/service/KafkaConsumerService.java:146-162 | Attempt k+1 comes no sooner than the k-th backoff after attempt k, and a FAILED job had six attempts over at least 50 s, on every run that gives this job no second message and re-adds it by recovery or reconcile only when its wait is over |
| `BackoffFloor.DeferralIsKept` | src/main/java/com/project/job_queue/service/KafkaConsumerService.java:88-114 | On the same runs, a job put off by the rate limiter does not run for 2 s, by the open circuit for 5 s, by a failed attempt for its backoff, although the watcher picks it up to 20 s early |
| `BackoffFloor.RescueKeepsWaitIff` | src/main/java/com/project/job_queue/service/AdminService.java:54-65 | All continuations without another shortcut for the job keep it off the topic until its retry time if and only if it was re-added no sooner than that |
| `BackoffFloor.RescueKeepsBackoffIff` | src/main/java/com/project/job_queue/service/WatcherService.java:88-99 | A failed job that recovery or reconcile re-adds while no gate is in its way, dispatched and run at once, keeps its backoff if and only if its retry time had come |
| `BackoffFloor.ReconcileDefeatsBackoff` | src/main/java/com/project/job_queue/service/AdminService.java:54-65 | A run from an empty system with one reconcile on which a job fails twice in the same millisecond |
| `BackoffFloor.RequeueDefeatsBackoff` | src/main/java/com/project/job_queue/service/AdminService.java:88-108 | A run from an empty system with one requeue on which a job fails twice in the same millisecond |
| `Revival.DuplicateDefeatsBackoff` | src/main/java/com/project/job_queue/service/KafkaConsumerService.java:88-100 | A run from an empty system with redeliveries only on which the rate limiter replaces a wait of 4 s by one of 2 s, and the third attempt comes too soon |
| `NeverEarly.EveryRunIsTimely` | src/main/java/com/project/job_queue/service/JobService.java:58-65 | The invariant of a deferred job: until its time comes it is PENDING or SCHEDULED at its schedule time, with no message ever sent |
| `NeverEarly.NeverRunsEarly` | src/main/java/com/project/job_queue/service/JobService.java:58-65 | Without a requeue of it, a deferred job never runs before its schedule time and no job runs more than 60 s before it, whatever recoveries, retries, duplicates and losses occur |
| `Cancellation.StaysStopped` | src/main/java/com/project/job_queue/service/RedisService.java:18-31 | After a cancellation, on runs that do not lose Redis and give the job no second message, the flag stays up for its ten minutes or has already made the job CANCELLED |
| `Cancellation.CancelledUntilExpiry` | src/main/java/com/project/job_queue/service/RedisService.java:18-31 | On such runs, after a cancellation at t no step before t + 600000 executes the job, and a delivery of it before then ends in CANCELLED |
| `Cancellation.CancelledForGood` | src/main/java/com/project/job_queue/service/KafkaConsumerService.java:79-86 | After such a delivery the job is CANCELLED on every continuation that gives it no second message |
| `Cancellation.DeliveryCancelsIff` | src/main/java/com/project/job_queue/service/RedisService.java:11-26 | With one request, on runs that do not lose Redis and give the job no second message, a delivery ends in CANCELLED if and only if it comes before the flag expires |
| `Cancellation.LateDeliveryRuns` | src/main/java/com/project/job_queue/service/RedisService.java:11-26 | A run from an empty system on which a cancelled job is delivered after ten minutes and executed to COMPLETED |
| `Starvation.PageTakesFromAhead` | src/main/java/com/project/job_queue/repository/JobRepository.java:11-17 | A page of the watcher that leaves a due job out is full, and all 200 of its jobs were ahead of that job |
| `Starvation.PendingIsServed` | src/main/java/com/project/job_queue/service/WatcherService.java:46-57 | A due PENDING job with k others at or before its schedule time has left PENDING after k/200 + 1 watch ticks, whatever steps interleave |
| `Starvation.DueIsSent` | src/main/java/com/project/job_queue/service/RedisDispatcherService.java:26-56 | On every run that does not lose Redis, a job that is no longer PENDING and whose schedule time has come has been sent after the next dispatch |
| `Starvation.PendingReachesTopic` | src/main/java/com/project/job_queue/service/WatcherService.java:46-57 | A due PENDING job with k others at or before its schedule time has been sent after k/200 + 1 watch ticks and, once its time has come, one dispatch |
| `Starvation.RetryIsServed` | src/main/java/com/project/job_queue/service/WatcherService.java:60-71 | While an overdue RETRY job with k others at or before its retry time keeps its row, the watcher makes at most k/200 ticks, however other steps interleave, requeues and duplicates of other jobs included |
| `Starvation.RetryIsPickedUp` | src/main/java/com/project/job_queue/service/WatcherService.java:60-71 | Such a job that gets no second message has left RETRY at some point of every run with k/200 + 1 ticks |
| `Starvation.EachWatchTicksOnce` | src/main/java/com/project/job_queue/service/WatcherService.java:31-72 | Every call of `watch`, with or without gap recovery, is exactly one tick over PENDING and one over RETRY jobs |
| `RedisRecovery.RoundsDrain` | src/main/java/com/project/job_queue/service/AdminService.java:51-85 | From an empty delay queue with the clock held, each round of reconcile and dispatch takes 500 jobs off the stranded ones until none is left |
| `RedisRecovery.LossIsDrained` | src/main/java/com/project/job_queue/service/AdminService.java:51-85 | After Redis comes back empty, n rounds with 500n at least the number of overdue SCHEDULED jobs leave every one of them QUEUED with exactly one new message, the only one if the job got no second message before |
| `Fairness.OverdueIsServed` | src/main/java/com/project/job_queue/service/AdminService.java:51-65 | An overdue SCHEDULED job whose row stays as it is sees at most (k + c)/500 rounds of reconciliation and dispatch, for k jobs in front of it and c deliveries that set jobs back in front of it, with all other steps but losses of Redis in between and time passing |
| `Fairness.OverdueIsDispatched` | src/main/java/com/project/job_queue/service/AdminService.java:51-65 | Such a job that gets no second message has been dispatched after (k + c)/500 + 1 rounds |
| `RedisRecovery.RecoveryReachesIff` | src/main/java/com/project/job_queue/service/WatcherService.java:80-99 | A lost SCHEDULED job is sure to come back, whichever page recovery is given, if and only if its schedule time lies in the last minute and at most 500 jobs match |
| `RedisRecovery.ForgottenForEver` | src/main/java/com/project/job_queue/service/WatcherService.java:80-99 | A lost job more than a minute overdue stays lost on every run that neither reconciles nor requeues it nor redelivers a message of it, against the recovery described in README.md:333-339 |
| `RedisRecovery.ForgottenJob` | src/main/java/com/project/job_queue/service/WatcherService.java:80-99 | A run from an empty system that leaves such a job behind |
| `RateLimiter.AllowRefinesHistory` | src/main/java/com/project/job_queue/service/RateLimiterService.java:13-26 | For non-decreasing call times the script admits if and only if the full history has fewer than `limit` distinct admission instants in the last second; expiry of the key never changes the decision |
| `RateLimiter.ScriptEffect` | src/main/java/com/project/job_queue/service/RateLimiterService.java:18-25 | A call keeps exactly the stored instants of the last 1000 ms, adds its own and starts the 1000 ms of the key anew if and only if it is admitted, and leaves no empty key |
| `RateLimiter.WindowBound` | src/main/java/com/project/job_queue/service/RateLimiterService.java:18-25 | Any window of 1000 ms, wherever it ends, holds at most `limit` distinct admission instants |
| `RateLimiter.BurstAdmits` | src/main/java/com/project/job_queue/service/RateLimiterService.java:18-25 | How many of any number of calls in one millisecond pass: none, one, or all of them, depending on the free slots |
| `RateLimiter.BurstWithinLimitIff` | src/main/java/com/project/job_queue/service/RateLimiterService.java:18-25 | Every burst of calls in this millisecond keeps the requests of the last second within the documented limit if and only if no millisecond among them admitted more than one request, and no slot is free or the last one is free and this millisecond is new |
| `RateLimiter.SixInOneMillisecond` | README.md:292-296 | From an idle key six requests pass the limit of five per second |
| `AdmissionControl.WindowAgrees` | src/main/java/com/project/job_queue/service/RateLimiterService.java:13-49 | On every run each type's sorted set agrees with the log of all its admissions since Redis last came up empty |
| `AdmissionControl.RateGateMatchesHistory` | src/main/java/com/project/job_queue/service/KafkaConsumerService.java:88-100 | A delivery is put off for its rate if and only if it is not cancelled and five distinct admission instants of its type lie in the last second |
| `AdmissionControl.DocumentedRateKeptIff` | README.md:292-296 | At every point of every run, the exact condition under which the next burst of deliveries keeps five requests per second for its type |
| `AdmissionControl.ExecutionRateBound` | src/main/java/com/project/job_queue/service/KafkaConsumerService.java:88-128 | On runs that do not lose Redis a type's executors start at no more than five distinct instants of any window of one second |
| `AdmissionControl.BreakerMatchesHistory` | src/main/java/com/project/job_queue/service/KafkaConsumerService.java:101-145 | On every run the failure count is the number of failures since the last success or reset, an open circuit means at least five, and no execution starts within 30000 ms of a fifth or later failure in a row |
| `AdmissionControl.CircuitGateMatchesHistory` | src/main/java/com/project/job_queue/service/KafkaConsumerService.java:102-118 | A delivery that passed the limiter meets an open circuit if and only if the latest attempts are five or more failures, the last less than 30000 ms ago |
| `Effects.DeliveryByHistory` | src/main/java/com/project/job_queue/service/KafkaConsumerService.java:64-165 | On every run what a delivery makes of the job follows from the flag, the admissions of the last second and the latest attempts: CANCELLED, RETRY in 2 s, RETRY in 5 s, unchanged, COMPLETED, FAILED, or RETRY in 2, 4, 8, 16 or 20 s |
| `Effects.DeliveryFrame` | src/main/java/com/project/job_queue/service/KafkaConsumerService.java:64-165 | A delivery uses up one message, and the flag if and only if it cancels; no other row, score, flag or message changes |
| `Effects.CreateEffect` | src/main/java/com/project/job_queue/service/JobService.java:27-67 | A job without a time is due now, one with HH:mm at the instant of the coming 24 hours that reads so in UTC+5:30; due within 60 s it is QUEUED with one message, else PENDING with none |
| `Effects.TickEffect` | src/main/java/com/project/job_queue/service/WatcherService.java:46-57 | A tick makes PENDING jobs due within 20 s SCHEDULED at their schedule time, leaves one out only for 200 others that come no later, and touches no other job |
| `Effects.RetryTickEffect` | src/main/java/com/project/job_queue/service/WatcherService.java:60-71 | The same for RETRY jobs whose retry time comes within 20 s |
| `Effects.RecoveryEffect` | src/main/java/com/project/job_queue/service/WatcherService.java:83-99 | Gap recovery re-adds PENDING and SCHEDULED jobs that fell due in the last 60 s, leaves one out only for 500 others, and touches no other job |
| `Effects.RetryRecoveryEffect` | src/main/java/com/project/job_queue/service/WatcherService.java:101-114 | The same for RETRY jobs whose retry time came in the last 60 s |
| `Effects.DispatchEffect` | src/main/java/com/project/job_queue/service/RedisDispatcherService.java:26-56 | Every id with a score from 0 to now leaves the delay queue; a SCHEDULED job among them becomes QUEUED with one more message; nothing else changes |
| `Effects.RequeueEffect` | src/main/java/com/project/job_queue/service/AdminService.java:88-108 | Every existing job but a COMPLETED or CANCELLED one becomes QUEUED with one more message, else nothing changes |
| `Effects.ResetEffect` | src/main/java/com/project/job_queue/service/KafkaConsumerService.java:168-172 | The failure count, flag and time of one type are as new, those of others unchanged |
| `WallClock.NextOccurrenceUnique` | src/main/java/com/project/job_queue/service/JobService.java:37-52 | The computed schedule time is the one instant of the coming 24 hours whose UTC+5:30 clock reads HH:mm |
| `Stores.FirstPage` | src/main/java/com/project/job_queue/repository/JobRepository.java:11-67 | The page of a query: distinct matching rows, in order, at most the limit, all of them if fewer match, and no row left out sorts before one taken |
| `Stores.JobRepository.FindWindow` | src/main/java/com/project/job_queue/repository/JobRepository.java:11-17 | First page of the PENDING jobs in a time window, by schedule time |
| `Stores.JobRepository.FindRetryWindow` | src/main/java/com/project/job_queue/repository/JobRepository.java:19-26 | First page of the RETRY jobs in a time window, by retry time |
| `Stores.JobRepository.FindPendingOrScheduledInRange` | src/main/java/com/project/job_queue/repository/JobRepository.java:28-34 | A page, in no order, of the PENDING and SCHEDULED jobs in a time range |
| `Stores.JobRepository.FindRetryInRange` | src/main/java/com/project/job_queue/repository/JobRepository.java:36-42 | A page, in no order, of the RETRY jobs in a time range |
| `Stores.JobRepository.FindOverdueScheduled` | src/main/java/com/project/job_queue/repository/JobRepository.java:51-58 | First page of the SCHEDULED jobs whose time has passed, by schedule time |
| `Stores.JobRepository.FindRetryDue` | src/main/java/com/project/job_queue/repository/JobRepository.java:60-67 | First page of the RETRY jobs whose retry time has passed, by retry time |
| `Stores.RedisDelayQueueService.ScheduleJob` | src/main/java/com/project/job_queue/service/RedisDelayQueueService.java:18-21 | Sets the job's score, replacing an older one, and no other |
| `Stores.RedisDelayQueueService.RemoveJob` | src/main/java/com/project/job_queue/service/RedisDelayQueueService.java:27-30 | Removes one member and no other |
| `Stores.RedisService.CancelJob` | src/main/java/com/project/job_queue/service/RedisService.java:18-21 | Performs the protocol's cancellation: a flag for ten minutes, nothing else |
| `Stores.RedisService.ClearCancellation` | src/main/java/com/project/job_queue/service/RedisService.java:28-31 | Removes one flag and no other |
| `Stores.RateLimiterService.Allow` | src/main/java/com/project/job_queue/service/RateLimiterService.java:13-49 | The script, command by command on the stored set, decides and updates as the specification function that is proved against the history |
| `Stores.JobTopic.SendJob` | src/main/java/com/project/job_queue/service/KafkaProducerService.java:16-19 | Adds exactly one message |
| `Watcher.WatcherService.Watch` | src/main/java/com/project/job_queue/service/WatcherService.java:31-72 | Leaves the system where a run of heartbeat, recovery exactly if the heartbeat was more than 25 s old, one PENDING page and one RETRY page leads |
| `Watcher.WatcherService.SchedulePending` | src/main/java/com/project/job_queue/service/WatcherService.java:46-57 | The loop over the page performs the PENDING step, enabled with exactly the page the query returned |
| `Watcher.WatcherService.ScheduleDueRetries` | src/main/java/com/project/job_queue/service/WatcherService.java:60-71 | The loop performs the RETRY step with the page the query returned |
| `Watcher.WatcherService.TriggerRecovery` | src/main/java/com/project/job_queue/service/WatcherService.java:74-77 | Performs both recovery steps and returns how many jobs they touched |
| `Watcher.WatcherService.RecoverMissedJobs` | src/main/java/com/project/job_queue/service/WatcherService.java:80-116 | The two recovery steps in order, with the count over both pages |
| `Watcher.WatcherService.RecoverPendingOrScheduled` | src/main/java/com/project/job_queue/service/WatcherService.java:83-99 | The first recovery loop performs its step and counts every job of its page |
| `Watcher.WatcherService.RecoverDueRetries` | src/main/java/com/project/job_queue/service/WatcherService.java:101-114 | The second recovery loop performs its step and counts every job of its page |
| `Dispatcher.RedisDispatcherService.Dispatch` | src/main/java/com/project/job_queue/service/RedisDispatcherService.java:26-56 | In whatever order the ready ids come, the loop makes exactly the dispatch step: SCHEDULED ones become QUEUED with one message, all leave the delay queue |
| `JobCreation.JobService.CreateJob` | src/main/java/com/project/job_queue/service/JobService.java:27-67 | Performs the creation step, both saves and the message included, and returns the stored row: due in the coming 24 hours at the given time of UTC+5:30, or now, and QUEUED exactly within 60000 ms |
| `JobCreation.JobService.ResolveTime` | src/main/java/com/project/job_queue/service/JobService.java:36-55 | The instant of the coming 24 hours whose clock in UTC+5:30 reads HH:mm, or now |
| `JobCreation.JobService.GetStats` | src/main/java/com/project/job_queue/service/JobService.java:74-81 | One count per status; the counts account for every job exactly once and add up to the total |
| `Consumer.KafkaConsumerService.Consume` | src/main/java/com/project/job_queue/service/KafkaConsumerService.java:64-165 | Performs the delivery step on every branch: row, flag, limiter window, breaker and acknowledgement, and nothing else |
| `Consumer.KafkaConsumerService.Process` | src/main/java/com/project/job_queue/service/KafkaConsumerService.java:102-163 | What circuit gate, status check, execution and failure handling make of row and breaker |
| `Consumer.KafkaConsumerService.Retry` | src/main/java/com/project/job_queue/service/KafkaConsumerService.java:146-162 | The row after a failed attempt: FAILED after the fifth retry, else RETRY with the next backoff |
| `Consumer.KafkaConsumerService.ResetCircuit` | src/main/java/com/project/job_queue/service/KafkaConsumerService.java:168-172 | Performs the reset step of one type and leaves the others |
| `Admin.AdminService.RecoverWatcher` | src/main/java/com/project/job_queue/service/AdminService.java:39-48 | Performs both recovery steps and reports how many jobs they touched |
| `Admin.AdminService.ReconcileRedis` | src/main/java/com/project/job_queue/service/AdminService.java:51-85 | Performs both reconcile steps; the count is that of the details, which name exactly the re-added jobs and the requeued retries |
| `Admin.ReconcileReaches` | src/main/java/com/project/job_queue/service/AdminService.java:51-85 | On the run of a reconciliation every overdue SCHEDULED job gets its schedule time as score, and every RETRY job whose retry time has come is SCHEDULED at that time, unless there are 500 others that come no later; no other job changes |
| `Admin.AdminService.RequeueJob` | src/main/java/com/project/job_queue/service/AdminService.java:88-108 | Performs the requeue step; fails, changing nothing, exactly for an unknown, COMPLETED or CANCELLED job |
| `Admin.AdminService.ResetCircuit` | src/main/java/com/project/job_queue/service/AdminService.java:111-120 | Performs the reset step of the consumer it holds |
| `JobQueue.JobQueueSystem.StoresHaveSingleOwners` | src/main/java/com/project/job_queue/service/KafkaConsumerService.java:64-165 | Single ownership of the stores the service objects share, after any calls of their methods other than requeue and the two of the environment |
| `Observer.PurgeIsComplete` | ai-agent/app/agents/observer.py:73-80 | Purging from the front only removes every stale entry and no fresh one |
| `Observer.CacheMatchesHistory` | ai-agent/app/agents/observer.py:64-80 | The purged cache knows a key if and only if the full history has a forward of it within the last ttl seconds |
| `Observer.AnswerIsRightIff` | ai-agent/app/agents/observer.py:64-80 | When nothing was dropped that is still fresh at t, the answers to all calls from t on are those of the full history if and only if no cached entry that is fresh at t stands in front of an older one |
| `Observer.RightFromIff` | ai-agent/app/agents/observer.py:64-80 | For any cache and history the answers are right from t on if and only if every forward still fresh has an entry that survives as long and no entry survives longer than its key was forwarded |
| `Observer.ForwardingKeepsCache` | ai-agent/app/agents/observer.py:64-71 | Two forwards of one key are always more than ttl apart |
| `Observer.ObserverAgent.IsDuplicate` | ai-agent/app/agents/observer.py:64-71 | As long as the clock has not stepped back, drops an incident if one of the same type and job with the same first 80 characters of evidence was forwarded within the last ttl seconds, and, when no type or id has a colon, only then; forwards and remembers it otherwise |
| `Observer.KeysEqualIff` | ai-agent/app/agents/observer.py:65-65 | Without colons in types and ids two incidents share a key if and only if type, shown id and the first 80 characters of the evidence agree |
| `Observer.SameJobKeyIff` | ai-agent/app/agents/observer.py:65-65 | Two incidents of one type and job share a key if and only if the first 80 characters of their evidence agree |
| `Observer.KeysCollide` | ai-agent/app/agents/observer.py:65-65 | With colons incidents of different types and jobs can share a key |
| `Observer.ObserverAgent.RightAgainIff` | ai-agent/app/agents/observer.py:64-80 | Whatever its clock did before, from its latest call on an agent answers rightly if and only if its cache holds no fresh entry in front of an older one |
| `Observer.ObserverAgent.PurgeStale` | ai-agent/app/agents/observer.py:73-80 | The popping loop is the front-only purge |
| `Observer.StepBackBreaksDedup` | ai-agent/app/agents/observer.py:73-80 | An agent whose clock steps back by 1000 s suppresses an incident that was forwarded 1100 s ago, with a ttl of 300 s |
| `Observer.StepBackForgets` | ai-agent/app/agents/observer.py:73-80 | An agent whose clock steps back by 900 s forwards an incident again that was forwarded 100 s ago, with a ttl of 300 s |
| `Healing.Plan` | ai-agent/app/agents/planner.py:7-42 | The planner's successive overwrites settle on the action, endpoint, id and permission stated in closed form |
| `Healing.OnlySafeCalls` | ai-agent/app/agents/executor.py:14-95 | For every incident, model answer and setting, recovery and reconcile are requested exactly when chosen and licensed (no dry run, auto-execute on, confidence at the threshold), and requeue and circuit reset never |
| `Healing.EscalationIff` | ai-agent/app/orchestrator.py:47-59 | Someone is called if and only if the action is of the operator kind or a mutating request failed |
| `Healing.UnknownActionIsDropped` | ai-agent/app/agents/planner.py:27-42 | The pipeline settles on an action outside the table exactly when the self-healer planned one, or else the model invented one; such an action makes no request and calls no one |
| `Healing.SilenceIff` | ai-agent/app/orchestrator.py:47-59 | No request is made and no one is called if and only if the action is unknown, a wait, a check without a job or in dry run, or a recovery that is not licensed |
| `Healing.TypeDecides` | ai-agent/app/rules/engine.py:93-140 | Without output of the self-healer and a usable answer of the model, the type of the incident, its job and the settings determine the request and who is called |
| `Healing.ModelDecides` | ai-agent/app/agents/planner.py:27-42 | Without output of the self-healer, the model's action and confidence, the incident's job and the settings determine them |
| `Healing.OutputDecides` | ai-agent/app/rules/engine.py:52-90 | With output of the self-healer its action, the greater confidence of action and severity, its job and the settings determine them, whatever the model says |
| `Healing.InventedActionSilences` | ai-agent/app/orchestrator.py:47-59 | An open circuit that escalates by the rules goes unheard when the model answers with an invented action |
| `Healing.OnlyHarmlessDecided` | ai-agent/app/agents/executor.py:14-95 | In every such history the pipeline never decides on a request but recovery, reconciliation and reading a job |
| `Healing.HealingKeepsOwnership` | ai-agent/app/orchestrator.py:30-84 | In every history of queue and agent together, with any incidents, model answers and settings, each decided request posted any number of times and at any later point, and the queue taking its own steps in between, every job keeps one owner |
| `Healing.AgentOrchestrator.ProcessIncident` | ai-agent/app/orchestrator.py:30-84 | Runs the pipeline as specified; the history is always the last hundred outcomes, in order |
| `SelfHealerPipeline.TypeToRequest` | ai-agent/app/orchestrator.py:30-84 | A detected incident, planned for by its strategy, printed, read back and put through the agent, leads to the request and escalation that its type, its job and the settings determine |
| `SelfHealerPipeline.SeverityToConfidence` | ai-agent/app/rules/engine.py:44-65 | On the same way the confidence is that of the planned action or of the printed severity, whichever is greater |
| `SelfHealerPipeline.RulesAgreeWithStrategies` | self-healer/src/healing_strategies.cpp:19-132 | The agent's own rules choose the action that the self-healer's strategies plan, for each type name that the self-healer prints |
| `JsonWriter.EscapeJson` | self-healer/src/json_writer.cpp:9-22 | The loop escapes character by character what the round trip is proved about |
| `JsonWriter.StringArray` | self-healer/src/json_writer.cpp:24-33 | The commas fall between the elements: the text is the rendering of the array of strings |
| `JsonWriter.WriteIncident` | self-healer/src/json_writer.cpp:40-47 | The text is the rendering of the object with the six incident fields |
| `JsonWriter.IncidentText` | self-healer/src/json_writer.cpp:40-47 | The six fields stand under their names, in their order, quoted and separated by commas |
| `JsonWriter.WritePlan` | self-healer/src/json_writer.cpp:48-57 | The text is the rendering of the object with the five plan fields |
| `JsonWriter.PlanText` | self-healer/src/json_writer.cpp:48-57 | The five fields stand under their names, in their order, the flag bare and the lists in brackets |
| `JsonWriter.Write` | self-healer/src/json_writer.cpp:37-60 | The whole line is the rendering of one JSON document |
| `JsonWriter.DocumentText` | self-healer/src/json_writer.cpp:37-60 | The incident comes first and the plan second, each under its name, in one pair of braces |
| `JsonRoundTrip.ValueTrip` | ai-agent/app/clients/self_healer.py:94-94 | A rendered value followed by anything parses to that value with the rest untouched if its strings are safe, else fails |
| `JsonRoundTrip.LoadsInvertsRender` | ai-agent/app/clients/self_healer.py:94-94 | Reading back a rendered document gives the same value if and only if no string holds a control character without an escape of its own |
| `JsonTruncation.CutValue` | ai-agent/app/clients/self_healer.py:93-98 | A proper prefix of a rendered value never parses, wherever it is cut |
| `JsonPieces.LaterPiecesRejected` | ai-agent/app/clients/self_healer.py:89-98 | When a printed document is torn by a line break, none of the pieces behind it is ever taken for an output |
| `SelfHealerClient.DocumentValidates` | ai-agent/app/models.py:15-44 | The printed document validates to the fields that were printed |
| `SelfHealerClient.DefaultsApply` | ai-agent/app/models.py:15-37 | Only the type of an incident must be there; a missing severity is MEDIUM, a missing flag true, other missing fields empty |
| `SelfHealerClient.JobUnderOwnNames` | ai-agent/app/models.py:21-25 | Job id and job type are accepted under their own names |
| `SelfHealerClient.PlanUnderOwnNames` | ai-agent/app/models.py:33-37 | So are the flag and the verification checks of a plan |
| `SelfHealerClient.ParseAll` | ai-agent/app/clients/self_healer.py:81-87 | Collects what the lines that parse stand for, in order |
| `SelfHealerClient.ParseStdout` | ai-agent/app/clients/self_healer.py:74-79 | The first of what `ParseAll` would collect, if any |
| `SelfHealerRoundTrip.LineParsesIff` | ai-agent/app/clients/self_healer.py:89-98 | A printed line yields exactly the printed fields if no string has a control character other than the three escaped ones; otherwise it is dropped |
| `SelfHealerRoundTrip.LineIsOneLineIff` | self-healer/src/json_writer.cpp:9-60 | The printed text has no line break for the reader if and only if no string holds one besides the two escaped ones |
| `SelfHealerRoundTrip.PortableIff` | self-healer/src/json_writer.cpp:9-22 | An item is portable if and only if no string of it holds a control character but line feed, carriage return and tab, or U+0085, U+2028 or U+2029 |
| `SelfHealerRoundTrip.FirstLineIff` | ai-agent/app/clients/self_healer.py:74-98 | The first line the reader sees of a printed item is accepted, unchanged, if and only if the item is portable; a line broken anywhere is rejected |
| `SelfHealerRoundTrip.LinesOfItem` | ai-agent/app/clients/self_healer.py:81-98 | The lines of one printed item are read as exactly that item if it is portable, and as nothing otherwise |
| `SelfHealerRoundTrip.StreamSplits` | self-healer/src/main.cpp:38-46 | One-line documents written one after another split into exactly these documents |
| `SelfHealerRoundTrip.StreamRoundTrip` | ai-agent/app/clients/self_healer.py:81-98 | Of everything printed for any sequence of items, exactly the portable ones are read back, unchanged and in order |
| `SelfHealerRoundTrip.SeparatorIsLost` | self-healer/src/json_writer.cpp:9-22 | Evidence with U+2028 or with a backspace makes an incident that never arrives |

## Left out

- HTTP controllers, request validation, the exception handler, DTOs, Spring and Kafka configuration.
- The executors (mail, HTTP call, log line): an execution returns normally or throws, as a parameter says.
- Failures of MySQL, Redis and Kafka themselves, lost sends, and crashes inside a method.
- Interleavings inside one service method. Each step reads the clock once and its entities fresh, so lost updates between threads are not captured, and the loops' repeated status checks on rows just queried, which cannot fail then, are not written out.
- The text form of ids in messages and delay-queue members and its parse errors: both hold ids.
- Columns that play no part in the lifecycle (payload, email, message, idempotency key). The identity column's value is a parameter of `CreateJob`; malformed HH:mm strings are rejected before it.
- Ties in ORDER BY: a page is any one that the order allows, and protocol steps take it as a set.
- Limiter keys whose TTL has run out may or may not have been evicted, as a parameter says; a cancellation flag counts as expired at exactly its TTL.
- An entry that `computeIfAbsent` creates with its default value is the same as no entry. `getCircuitStates` and `getDetailedHealth` are not modelled.
- Incident publishing and logging.
- RateLimiter.WindowBound: bounds distinct instants, not requests, because that is what the sorted set holds; `BurstWithinLimitIff` says when both agree.
- Ownership.SingleOwnership: excludes requeue, redelivery and losses of Redis, which break it by design; `NothingIsLost` and `OneHolderRun` say what is left of it with them.
- BackoffFloor.BackoffKept: excludes requeues and duplicates of this job and re-adding it during its wait, for each of which there is a run that breaks it: `RequeueDefeatsBackoff`, `DuplicateDefeatsBackoff`, `ReconcileDefeatsBackoff`.
- Starvation.RetryIsServed: speaks of a job whose row stays as it is, since a second message of a waiting job moves its retry time; `RetryIsPickedUp` says when it does stay.
- Cancellation.CancelledUntilExpiry: excludes losses of Redis, which take the flag along, and a second message of the job, which may arrive after the first has used the flag up.
- RedisRecovery.LossIsDrained: nothing else happens between the rounds and the clock is held; `OverdueIsServed` is the bound without that.
- Observer.CacheMatchesHistory: assumes that `time.time()` does not step back; `RightFromIff` and `AnswerIsRightIff` say what holds without that.
- Json.UnicodeEscape: escapes of surrogates are rejected; the printer emits none, and no later piece of a torn line has an escape where a parser would read it.
- SelfHealerClient.Flag: lax conversions of other JSON kinds to a boolean are rejected.
- Healing.Analyze: the prose fields (root cause, impact, rationale, steps) and the health snapshot are left out; upper-casing is any function on strings.
- Calls to the language model, the subprocess and HTTP are parameters; what a request came back with, after the client's repeated tries, is one of them.
- `get_history`, FastAPI routes, the log bridge, the log detectors, and of the healing strategies all but their actions.
- The JavaScript test suites and the HTML report generator.
