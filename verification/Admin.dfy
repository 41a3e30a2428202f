/** The admin operations: watcher recovery, Redis reconciliation, requeue, circuit reset. */
module Admin {
  import opened Jobs
  import opened Protocol
  import opened Stores
  import opened PerJob
  import opened Effects
  import opened Watcher
  import opened Consumer

  datatype Detail = Reinserted(id: JobId) | RequeuedRetry(id: JobId)

  datatype AdminActionResult = Ok(affected: nat, details: seq<Detail>) | Fail

  /** The detail lines of a reconciliation: first the re-added jobs, then the retries. */
  ghost predicate Reports(details: seq<Detail>, reinserted: set<JobId>, retried: set<JobId>) {
    && (forall id :: Reinserted(id) in details <==> id in reinserted)
    && (forall id :: RequeuedRetry(id) in details <==> id in retried)
  }

  /** The runs of a reconciliation: the overdue jobs first, then the retries. */
  ghost predicate IsReconcile(from: Run, r: Run) {
    && r.Then? && r.step.ReconcileRetries? && r.past.Then? && r.past.step.ReconcileOverdue?
    && r.past.past == from
  }

  /** A reconciliation gives every overdue SCHEDULED job its schedule time as score, and makes every RETRY job whose
      retry time has come SCHEDULED at that time, unless there are 500 others that come before it; no other job is
      changed. */
  lemma ReconcileReaches(s: Sys, r: Run, id: JobId)
    requires IsReconcile(Start(s), r) && Valid(r)
    ensures var after := State(r);
            && (Is(s, id, {SCHEDULED}) && ScheduleOf(s, id) <= s.clock ==>
                  || (At(after.rows, id) == At(s.rows, id) && At(after.zset, id) == Some(ScheduleOf(s, id)))
                  || (|r.past.step.page| == 500 && NoneScheduledLater(s, r.past.step.page, ScheduleOf(s, id))))
            && (WaitsForRetry(s, id) && RetryOf(s, id) <= s.clock ==>
                  || (At(after.rows, id) == Some(s.rows[id].(status := SCHEDULED))
                      && At(after.zset, id) == Some(RetryOf(s, id)))
                  || (|r.step.page| == 500 && NoneRetriedLater(s, r.step.page, RetryOf(s, id))))
            && (!(Is(s, id, {SCHEDULED}) && ScheduleOf(s, id) <= s.clock)
                && !(WaitsForRetry(s, id) && RetryOf(s, id) <= s.clock) ==>
                  At(after.rows, id) == At(s.rows, id) && At(after.zset, id) == At(s.zset, id))
            && after == s.(rows := after.rows, zset := after.zset)
  {
    assert State(r.past) == Next(s, r.past.step) && State(r) == Next(State(r.past), r.step);
    assert Valid(r.past) && State(Start(s)) == s;
    ReconcileEffect(s, r.past.step.page, id);
    RetryReconcileEffect(State(r.past), r.step.page, id);
  }

  /** The delay queue after the jobs in `done` were put back. */
  ghost predicate ReAdded(rows: Rows, zset: Scores, done: set<JobId>, newZset: Scores) {
    newZset == AddBySchedule(rows, zset, done)
  }

  lemma ReAddedOneMore(rows: Rows, zset: Scores, done: set<JobId>, newZset: Scores, id: JobId)
    requires ReAdded(rows, zset, done, newZset) && id in rows && id !in done
    ensures ReAdded(rows, zset, done + {id}, newZset[id := rows[id].scheduleTime])
  {
  }

  function Note(id: JobId, retry: bool): Detail {
    if retry then RequeuedRetry(id) else Reinserted(id)
  }

  function Lines(page: seq<JobId>, retries: bool): seq<Detail> {
    if page == [] then [] else Lines(page[..|page| - 1], retries) + [Note(page[|page| - 1], retries)]
  }

  lemma OneMoreLine(page: seq<JobId>, n: nat, retries: bool)
    requires n < |page|
    ensures Lines(page[..n + 1], retries) == Lines(page[..n], retries) + [Note(page[n], retries)]
  {
    assert page[..n + 1][..n] == page[..n];
  }

  lemma {:induction false} LinesNote(page: seq<JobId>, retries: bool)
    ensures |Lines(page, retries)| == |page|
    ensures forall d :: d in Lines(page, retries) <==>
              d == Note(d.id, retries) && d.id in Ids(page)
  {
    if page == [] {
    } else {
      var n := |page| - 1;
      LinesNote(page[..n], retries);
      assert Ids(page) == Ids(page[..n]) + {page[n]};
    }
  }

  lemma LinesReport(first: seq<JobId>, second: seq<JobId>)
    ensures Reports(Lines(first, false) + Lines(second, true), Ids(first), Ids(second))
    ensures |Lines(first, false) + Lines(second, true)| == |first| + |second|
  {
    LinesNote(first, false);
    LinesNote(second, true);
  }

  class AdminService {
    const watcher: WatcherService
    const repo: JobRepository
    const queue: RedisDelayQueueService
    const producer: JobTopic
    const consumer: KafkaConsumerService

    constructor (watcher: WatcherService, producer: JobTopic, consumer: KafkaConsumerService)
      ensures this.watcher == watcher && this.repo == watcher.repo && this.queue == watcher.queue
      ensures this.producer == producer && this.consumer == consumer
    {
      this.watcher, this.repo, this.queue := watcher, watcher.repo, watcher.queue;
      this.producer, this.consumer := producer, consumer;
    }

    ghost function View(rest: Sys, now: int): Sys
      reads repo, queue, producer
    {
      rest.(clock := now, rows := repo.rows, zset := queue.zset, pending := producer.pending, sent := producer.sent)
    }

    method RecoverWatcher(now: int, ghost rest: Sys) returns (result: AdminActionResult, ghost r: Run)
      requires watcher.repo == repo && watcher.queue == queue
      modifies repo, queue
      ensures IsRecovery(Start(old(watcher.View(rest, now))), r)
      ensures Valid(r) && State(r) == watcher.View(rest, now)
      ensures result == Ok(|r.past.step.page| + |r.step.page|, [])
    {
      var recovered;
      recovered, r := watcher.TriggerRecovery(now, rest);
      result := Ok(recovered, []);
    }

    method ReconcileRedis(now: int, ghost rest: Sys) returns (result: AdminActionResult, ghost r: Run)
      modifies repo, queue
      ensures IsReconcile(Start(old(View(rest, now))), r) && Valid(r) && State(r) == View(rest, now)
      ensures result.Ok? && result.affected == |r.past.step.page| + |r.step.page| == |result.details|
      ensures Reports(result.details, r.past.step.page, r.step.page)
    {
      r := Start(View(rest, now));
      var reinserted, overdue := ReinsertOverdue(now, rest);
      Extend(r, ReconcileOverdue(Ids(overdue)));
      r := Then(r, ReconcileOverdue(Ids(overdue)));
      var retried, due := RequeueRetries(now, rest);
      Extend(r, ReconcileRetries(Ids(due)));
      r := Then(r, ReconcileRetries(Ids(due)));
      LinesReport(overdue, due);
      DistinctSize(overdue);
      DistinctSize(due);
      result := Ok(|reinserted| + |retried|, reinserted + retried);
    }

    method ReinsertOverdue(now: int, ghost rest: Sys) returns (details: seq<Detail>, ghost page: seq<JobId>)
      modifies queue
      ensures Enabled(old(View(rest, now)), ReconcileOverdue(Ids(page)))
      ensures View(rest, now) == Next(old(View(rest, now)), ReconcileOverdue(Ids(page)))
      ensures Distinct(page) && details == Lines(page, false)
    {
      ghost var rows, zset := repo.rows, queue.zset;
      var jobs := repo.FindOverdueScheduled(now, RECOVERY_PAGE);
      page := jobs;
      details := [];
      NoneYet(rows, zset);
      for n := 0 to |jobs|
        invariant ReAdded(rows, zset, Ids(jobs[..n]), queue.zset)
        invariant details == Lines(jobs[..n], false)
      {
        var id := jobs[n];
        TakeOneMore(jobs, n);
        ReAddedOneMore(rows, zset, Ids(jobs[..n]), queue.zset, id);
        OneMoreLine(jobs, n, false);
        queue.ScheduleJob(id, repo.rows[id].scheduleTime);
        details := details + [Reinserted(id)];
      }
      assert jobs[..|jobs|] == jobs;
    }

    method RequeueRetries(now: int, ghost rest: Sys) returns (details: seq<Detail>, ghost page: seq<JobId>)
      modifies repo, queue
      ensures Enabled(old(View(rest, now)), ReconcileRetries(Ids(page)))
      ensures View(rest, now) == Next(old(View(rest, now)), ReconcileRetries(Ids(page)))
      ensures Distinct(page) && details == Lines(page, true)
    {
      var jobs := repo.FindRetryDue(now, RECOVERY_PAGE);
      page := jobs;
      details := RequeueAll(jobs);
    }

    method RequeueAll(jobs: seq<JobId>) returns (details: seq<Detail>)
      requires Distinct(jobs) && Ids(jobs) <= repo.rows.Keys
      requires forall id :: id in Ids(jobs) ==> repo.rows[id].nextRetryTime.Some?
      modifies repo, queue
      ensures Retried(old(repo.rows), old(queue.zset), Ids(jobs), repo.rows, queue.zset)
      ensures details == Lines(jobs, true)
    {
      ghost var rows, zset := repo.rows, queue.zset;
      details := [];
      NoneYet(rows, zset);
      for n := 0 to |jobs|
        invariant Retried(rows, zset, Ids(jobs[..n]), repo.rows, queue.zset)
        invariant details == Lines(jobs[..n], true)
      {
        var id := jobs[n];
        RetriedNext(rows, zset, jobs, n, repo.rows, queue.zset);
        OneMoreLine(jobs, n, true);
        var job := repo.rows[id];
        repo.Save(id, job.(status := SCHEDULED));
        queue.ScheduleJob(id, job.nextRetryTime.value);
        details := details + [RequeuedRetry(id)];
      }
      assert jobs[..|jobs|] == jobs;
    }

    method RequeueJob(id: JobId, now: int, ghost rest: Sys) returns (result: AdminActionResult)
      modifies repo, producer
      ensures View(rest, now) == Next(old(View(rest, now)), Requeue(id))
      ensures result == if id in old(repo.rows) && old(repo.rows)[id].status !in {COMPLETED, CANCELLED}
                        then Ok(1, []) else Fail
    {
      if id !in repo.rows {
        return Fail;
      }
      var job := repo.rows[id];
      if job.status == COMPLETED || job.status == CANCELLED {
        return Fail;
      }
      repo.Save(id, job.(status := QUEUED));
      producer.SendJob(id);
      return Ok(1, []);
    }

    method ResetCircuit(typ: JobType, now: int, ghost rest: Sys) returns (result: AdminActionResult)
      modifies consumer
      ensures consumer.View(rest, now) == Next(old(consumer.View(rest, now)), Step.ResetCircuit(typ))
      ensures result == Ok(1, [])
    {
      consumer.ResetCircuit(typ, now, rest);
      result := Ok(1, []);
    }
  }
}
