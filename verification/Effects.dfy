/** What the steps do to rows, delay queue, topic and breakers, in the numbers that the system promises. */
module Effects {
  import opened Jobs
  import opened WallClock
  import opened RateLimiter
  import opened Protocol
  import opened PerJob
  import opened AdmissionControl

  // ----- creation, cancellation, requeue, reset

  /** A job is due at once, or at the instant of the coming 24 hours whose clock in UTC+5:30 reads HH:mm. */
  predicate DueAt(now: int, time: Option<TimeOfDay>, due: int) {
    if time.None? then due == now
    else
      && now <= due < now + 86400000
      && (due + 19800000) % 86400000 == (time.value.hour * 60 + time.value.minute) * 60000
  }

  lemma ScheduleTimeIsDue(now: int, time: Option<TimeOfDay>)
    requires time.Some? ==> time.value.Valid()
    ensures DueAt(now, time, ScheduleTime(now, time))
  {
    if time.Some? {
      NextOccurrenceUnique(now, time.value, NextOccurrence(now, time.value));
    }
  }

  /** A new job is sent at once if it is due within a minute, and PENDING without a message otherwise. */
  lemma CreateEffect(s: Sys, id: JobId, typ: JobType, time: Option<TimeOfDay>)
    requires Enabled(s, Create(id, typ, time))
    ensures var after := Next(s, Create(id, typ, time));
            && id in after.rows
            && var due := after.rows[id].scheduleTime;
               var now := due - s.clock <= 60000;
               && DueAt(s.clock, time, due)
               && after == s.(rows := s.rows[id := Job(typ, if now then QUEUED else PENDING, 0, due, None)],
                              pending := s.pending + (if now then multiset{id} else multiset{}),
                              sent := s.sent + (if now then {id} else {}))
  {
    ScheduleTimeIsDue(s.clock, time);
    assert s.pending + multiset{} == s.pending && s.sent + {} == s.sent;
  }

  lemma EveryStatus(status: Status)
    ensures status in {PENDING, SCHEDULED, QUEUED, PROCESSING, COMPLETED, FAILED, RETRY, CANCELLED}
  {
    match status
    case PENDING =>
    case SCHEDULED =>
    case QUEUED =>
    case PROCESSING =>
    case COMPLETED =>
    case FAILED =>
    case RETRY =>
    case CANCELLED =>
  }

  /** Every job but a COMPLETED or CANCELLED one is QUEUED again, with one more message. */
  lemma RequeueEffect(s: Sys, id: JobId)
    ensures Next(s, Requeue(id)) ==
            if id in s.rows && s.rows[id].status in {PENDING, SCHEDULED, QUEUED, PROCESSING, FAILED, RETRY}
            then s.(rows := s.rows[id := s.rows[id].(status := QUEUED)], pending := s.pending + multiset{id},
                    sent := s.sent + {id})
            else s
  {
    if id in s.rows {
      EveryStatus(s.rows[id].status);
    }
  }

  /** The breaker of the type is as new, that of any other type unchanged. */
  lemma ResetEffect(s: Sys, typ: JobType, other: JobType)
    ensures var after := Next(s, ResetCircuit(typ));
            && after == s.(breakers := after.breakers)
            && after.breakers.Failures(other) == (if other == typ then 0 else s.breakers.Failures(other))
            && after.breakers.Open(other) == (other != typ && s.breakers.Open(other))
            && after.breakers.LastFailure(other) == (if other == typ then 0 else s.breakers.LastFailure(other))
  {
  }

  // ----- batches

  /** What a batch does to one job: it takes only jobs that match, makes them SCHEDULED with the given score, and
      leaves a matching job out only when it has taken `limit` others. */
  ghost predicate Batch(s: Sys, after: Sys, page: set<JobId>, limit: nat, id: JobId, matches: bool, score: int) {
    && |page| <= limit && after == s.(rows := after.rows, zset := after.zset)
    && if id in page
       then matches && id in s.rows && At(after.rows, id) == Some(s.rows[id].(status := SCHEDULED))
            && At(after.zset, id) == Some(score)
       else At(after.rows, id) == At(s.rows, id) && At(after.zset, id) == At(s.zset, id)
            && (matches ==> |page| == limit)
  }

  ghost predicate NoneScheduledLater(s: Sys, page: set<JobId>, time: int) {
    forall i :: i in page ==> i in s.rows && s.rows[i].scheduleTime <= time
  }

  ghost predicate NoneRetriedLater(s: Sys, page: set<JobId>, time: int) {
    forall i :: i in page ==> i in s.rows && s.rows[i].nextRetryTime.Some? && s.rows[i].nextRetryTime.value <= time
  }

  function ScheduleOf(s: Sys, id: JobId): int { if id in s.rows then s.rows[id].scheduleTime else 0 }

  function RetryOf(s: Sys, id: JobId): int {
    if id in s.rows && s.rows[id].nextRetryTime.Some? then s.rows[id].nextRetryTime.value else 0
  }

  predicate Is(s: Sys, id: JobId, statuses: set<Status>) { id in s.rows && s.rows[id].status in statuses }

  predicate WaitsForRetry(s: Sys, id: JobId) { Is(s, id, {RETRY}) && s.rows[id].nextRetryTime.Some? }

  /** A tick takes the first 200 PENDING jobs due within 20 s, in the order of their schedule times. */
  lemma TickEffect(s: Sys, page: set<JobId>, id: JobId)
    requires Enabled(s, ScheduleWindow(page))
    ensures var time := ScheduleOf(s, id);
            var matches := Is(s, id, {PENDING}) && 0 <= time <= s.clock + 20000;
            && Batch(s, Next(s, ScheduleWindow(page)), page, 200, id, matches, time)
            && (matches && id !in page ==> NoneScheduledLater(s, page, time))
  {
    var matching := PendingWindow(s.rows, 0, s.clock + WATCH_WINDOW);
    if id in matching - page {
      TakenInOrder(s, matching, BySchedule, WATCH_PAGE, page, id);
    }
  }

  /** A tick takes the first 200 RETRY jobs due within 20 s, in the order of their retry times. */
  lemma RetryTickEffect(s: Sys, page: set<JobId>, id: JobId)
    requires Enabled(s, ScheduleRetries(page))
    ensures var time := RetryOf(s, id);
            var matches := WaitsForRetry(s, id) && 0 <= time <= s.clock + 20000;
            && Batch(s, Next(s, ScheduleRetries(page)), page, 200, id, matches, time)
            && (matches && id !in page ==> NoneRetriedLater(s, page, time))
  {
    var matching := RetryWindow(s.rows, 0, s.clock + WATCH_WINDOW);
    if id in matching - page {
      TakenInOrder(s, matching, ByRetryTime, WATCH_PAGE, page, id);
    }
  }

  /** Gap recovery takes up to 500 PENDING and SCHEDULED jobs that fell due in the last minute, in no order. */
  lemma RecoveryEffect(s: Sys, page: set<JobId>, id: JobId)
    requires Enabled(s, RecoverScheduled(page))
    ensures var time := ScheduleOf(s, id);
            var matches := Is(s, id, {PENDING, SCHEDULED}) && s.clock - 60000 <= time <= s.clock;
            Batch(s, Next(s, RecoverScheduled(page)), page, 500, id, matches, time)
  {
  }

  /** Gap recovery takes up to 500 RETRY jobs that fell due in the last minute, in no order. */
  lemma RetryRecoveryEffect(s: Sys, page: set<JobId>, id: JobId)
    requires Enabled(s, RecoverRetries(page))
    ensures var time := RetryOf(s, id);
            var matches := WaitsForRetry(s, id) && s.clock - 60000 <= time <= s.clock;
            Batch(s, Next(s, RecoverRetries(page)), page, 500, id, matches, time)
  {
  }

  /** Reconciliation gives the first 500 overdue SCHEDULED jobs a score again, in the order of their schedule times. */
  lemma ReconcileEffect(s: Sys, page: set<JobId>, id: JobId)
    requires Enabled(s, ReconcileOverdue(page))
    ensures var time := ScheduleOf(s, id);
            var matches := Is(s, id, {SCHEDULED}) && time <= s.clock;
            && Batch(s, Next(s, ReconcileOverdue(page)), page, 500, id, matches, time)
            && Next(s, ReconcileOverdue(page)).rows == s.rows
            && (matches && id !in page ==> NoneScheduledLater(s, page, time))
  {
    var matching := OverdueScheduled(s.rows, s.clock);
    if id in matching - page {
      TakenInOrder(s, matching, BySchedule, RECOVERY_PAGE, page, id);
    }
  }

  /** Reconciliation takes the first 500 RETRY jobs whose retry time has come, in the order of these times. */
  lemma RetryReconcileEffect(s: Sys, page: set<JobId>, id: JobId)
    requires Enabled(s, ReconcileRetries(page))
    ensures var time := RetryOf(s, id);
            var matches := WaitsForRetry(s, id) && time <= s.clock;
            && Batch(s, Next(s, ReconcileRetries(page)), page, 500, id, matches, time)
            && (matches && id !in page ==> NoneRetriedLater(s, page, time))
  {
    var matching := RetryDue(s.rows, s.clock);
    if id in matching - page {
      TakenInOrder(s, matching, ByRetryTime, RECOVERY_PAGE, page, id);
    }
  }

  lemma TakenInOrder(s: Sys, matching: set<JobId>, order: Order, limit: nat, page: set<JobId>, id: JobId)
    requires IsPage(s.rows, matching, order, limit, page) && id in matching - page
    ensures |page| == limit
    ensures forall i :: i in page ==> SortKey(order, s.rows[i]) <= SortKey(order, s.rows[id])
  {
  }

  /** Every id with a score from 0 to now leaves the delay queue; if its job is SCHEDULED it becomes QUEUED, with one
      more message. */
  lemma DispatchEffect(s: Sys, id: JobId)
    ensures var after := Next(s, Dispatch);
            var due := id in s.zset && 0 <= s.zset[id] <= s.clock;
            var goes := due && Is(s, id, {SCHEDULED});
            && after == s.(rows := after.rows, zset := after.zset, pending := after.pending, sent := after.sent)
            && At(after.zset, id) == (if due then None else At(s.zset, id))
            && At(after.rows, id) == (if goes then Some(s.rows[id].(status := QUEUED)) else At(s.rows, id))
            && after.pending[id] == s.pending[id] + (if goes then 1 else 0)
            && (id in after.sent <==> goes || id in s.sent)
  {
    StepIsEvent(s, Dispatch, id);
    var after := Next(s, Dispatch);
    assert Local(after, id).msgs == after.pending[id] && Local(after, id).sent == (id in after.sent);
    assert Local(after, id).row == At(after.rows, id) && Local(after, id).score == At(after.zset, id);
  }

  // ----- delivery

  /** What a delivery makes of a job, from the flag, the admissions of the last second and the latest attempts. */
  function Outcome(job: Job, flagged: bool, instants: nat, attempts: seq<Attempt>, ok: bool, now: int): Job {
    if flagged then job.(status := CANCELLED)
    else if 5 <= instants then job.(status := RETRY, nextRetryTime := Some(now + 2000))
    else if 5 <= Trailing(attempts) && now < attempts[|attempts| - 1].at + 30000
    then job.(status := RETRY, nextRetryTime := Some(now + 5000))
    else if job.status != QUEUED then job
    else if ok then job.(status := COMPLETED)
    else if 5 <= job.retryCount then job.(status := FAILED)
    else job.(status := RETRY, retryCount := job.retryCount + 1,
              nextRetryTime := Some(now + [2000, 4000, 8000, 16000, 20000][job.retryCount]))
  }

  lemma BackoffOf(retryCount: nat)
    requires retryCount < 5
    ensures Backoff(retryCount + 1) == [2000, 4000, 8000, 16000, 20000][retryCount]
  {
    BackoffTable();
  }

  /** The gate that a delivery is stopped by, told from the same facts. */
  lemma GateToOutcome(job: Job, gate: Gate, flagged: bool, instants: nat, attempts: seq<Attempt>, ok: bool, now: int)
    requires gate != NoJob && (gate == Cancelled <==> flagged)
    requires gate == RateLimited <==> !flagged && 5 <= instants
    requires gate in {CircuitOpen, NotQueued, Executed} ==>
               && (gate == CircuitOpen <==> 5 <= Trailing(attempts) && now < attempts[|attempts| - 1].at + 30000)
               && (gate == NotQueued ==> job.status != QUEUED) && (gate == Executed ==> job.status == QUEUED)
    ensures AfterDelivery(job, gate, ok, now) == Outcome(job, flagged, instants, attempts, ok, now)
  {
    if gate == Executed && job.retryCount < 5 {
      BackoffOf(job.retryCount);
    }
  }

  lemma RowAfterDelivery(s: Sys, step: Step)
    requires step.Consume? && step.id in s.rows
    ensures At(Next(s, step).rows, step.id) ==
            Some(AfterDelivery(s.rows[step.id], GateOf(s, step.id, step.evicted), step.ok, s.clock))
  {
  }

  /** On every run a delivery goes by the full history: the limiter's and the breaker's bookkeeping makes no
      difference to what becomes of the job. */
  lemma DeliveryByHistory(past: Run, step: Step)
    requires Booted(Then(past, step)) && step.Consume? && step.id in State(past).rows
    ensures var s, id := State(past), step.id;
            var job := s.rows[id];
            At(Next(s, step).rows, id) ==
            Some(Outcome(job, id in s.flags && s.clock < s.flags[id], |Recent(Admissions(past, job.typ), s.clock)|,
                         Attempts(past, job.typ), step.ok, s.clock))
  {
    var s := State(past);
    var job, gate := s.rows[step.id], GateOf(s, step.id, step.evicted);
    assert DeliversType(s, step, job.typ);
    RateGateMatchesHistory(past, step, job.typ);
    if Admits(s, step, job.typ) {
      CircuitGateMatchesHistory(past, step, job.typ);
    }
    GateIsPossible(s, step.id, step.evicted);
    GateToOutcome(job, gate, Protocol.Flagged(s, step.id), |Recent(Admissions(past, job.typ), s.clock)|,
                  Attempts(past, job.typ), step.ok, s.clock);
    RowAfterDelivery(s, step);
  }

  /** A delivery uses up its message, and the flag if it cancels; no other row, score, flag or message changes. */
  lemma DeliveryFrame(s: Sys, step: Step, other: JobId)
    requires Enabled(s, step) && step.Consume?
    ensures var after := Next(s, step);
            var cancels := step.id in s.rows && step.id in s.flags && s.clock < s.flags[step.id];
            && after == s.(rows := after.rows, flags := after.flags, windows := after.windows,
                           pending := s.pending - multiset{step.id}, breakers := after.breakers)
            && after.flags == (if cancels then s.flags - {step.id} else s.flags)
            && (other != step.id || other !in s.rows ==> At(after.rows, other) == At(s.rows, other))
  {
  }
}
