/** The watcher: picks due PENDING and RETRY jobs into the delay queue and recovers after a gap. */
module Watcher {
  import opened Jobs
  import opened Protocol
  import opened Stores

  /** The stores after the PENDING or SCHEDULED jobs in `done` were added to the delay queue. */
  ghost predicate Scheduled(rows: Rows, zset: Scores, done: set<JobId>, newRows: Rows, newZset: Scores) {
    newRows == MarkScheduled(rows, done) && newZset == AddBySchedule(rows, zset, done)
  }

  /** The stores after the RETRY jobs in `done` were added to the delay queue. */
  ghost predicate Retried(rows: Rows, zset: Scores, done: set<JobId>, newRows: Rows, newZset: Scores) {
    newRows == MarkScheduled(rows, done) && newZset == AddByRetryTime(rows, zset, done)
  }

  lemma NoneYet(rows: Rows, zset: Scores)
    ensures Scheduled(rows, zset, {}, rows, zset) && Retried(rows, zset, {}, rows, zset)
  {
  }

  lemma ScheduledOneMore(rows: Rows, zset: Scores, done: set<JobId>, newRows: Rows, newZset: Scores, id: JobId)
    requires Scheduled(rows, zset, done, newRows, newZset) && id in rows && id !in done
    ensures id in newRows && newRows[id] == rows[id]
    ensures Scheduled(rows, zset, done + {id}, newRows[id := rows[id].(status := SCHEDULED)],
                      newZset[id := rows[id].scheduleTime])
  {
  }

  lemma RetriedOneMore(rows: Rows, zset: Scores, done: set<JobId>, newRows: Rows, newZset: Scores, id: JobId)
    requires Retried(rows, zset, done, newRows, newZset) && id in rows && id !in done
    ensures id in newRows && newRows[id] == rows[id]
    ensures Retried(rows, zset, done + {id}, newRows[id := rows[id].(status := SCHEDULED)],
                    newZset[id := SortKey(ByRetryTime, rows[id])])
  {
  }

  lemma SaveIsIdempotent(rows: Rows, id: JobId)
    requires id in rows && rows[id].status in {PENDING, SCHEDULED}
    ensures rows[id].status != PENDING ==> rows[id := rows[id].(status := SCHEDULED)] == rows
  {
  }

  lemma TakeOneMore(page: seq<JobId>, n: nat)
    requires n < |page| && Distinct(page)
    ensures Ids(page[..n + 1]) == Ids(page[..n]) + {page[n]} && page[n] !in Ids(page[..n]) && page[n] in Ids(page)
    ensures Ids(page[..n]) <= Ids(page)
  {
    assert page[..n + 1] == page[..n] + [page[n]];
  }

  /** The next job of a page, in a loop over PENDING or SCHEDULED jobs. */
  lemma ScheduledNext(rows: Rows, zset: Scores, page: seq<JobId>, n: nat, newRows: Rows, newZset: Scores)
    requires n < |page| && Distinct(page) && Ids(page) <= rows.Keys
    requires Scheduled(rows, zset, Ids(page[..n]), newRows, newZset)
    ensures var id := page[n];
            && id in Ids(page) && id in newRows && newRows[id] == rows[id]
            && Scheduled(rows, zset, Ids(page[..n + 1]), newRows[id := rows[id].(status := SCHEDULED)],
                         newZset[id := rows[id].scheduleTime])
  {
    TakeOneMore(page, n);
    ScheduledOneMore(rows, zset, Ids(page[..n]), newRows, newZset, page[n]);
  }

  /** The next job of a page, in a loop over RETRY jobs. */
  lemma RetriedNext(rows: Rows, zset: Scores, page: seq<JobId>, n: nat, newRows: Rows, newZset: Scores)
    requires n < |page| && Distinct(page) && Ids(page) <= rows.Keys
    requires Retried(rows, zset, Ids(page[..n]), newRows, newZset)
    ensures var id := page[n];
            && id in Ids(page) && id in newRows && newRows[id] == rows[id]
            && Retried(rows, zset, Ids(page[..n + 1]), newRows[id := rows[id].(status := SCHEDULED)],
                       newZset[id := SortKey(ByRetryTime, rows[id])])
  {
    TakeOneMore(page, n);
    RetriedOneMore(rows, zset, Ids(page[..n]), newRows, newZset, page[n]);
  }

  /** The runs of `watch`: heartbeat, recovery after a gap, one tick over PENDING jobs, one over RETRY jobs. */
  ghost predicate IsWatch(s: Sys, r: Run) {
    && r.Then? && r.step.ScheduleRetries? && r.past.Then? && r.past.step.ScheduleWindow?
    && var early := r.past.past;
       if s.lastRun.Some? && s.clock - s.lastRun.value > 25000
       then IsRecovery(Then(Start(s), Heartbeat), early)
       else early == Then(Start(s), Heartbeat)
  }

  ghost predicate IsRecovery(from: Run, r: Run) {
    && r.Then? && r.step.RecoverRetries? && r.past.Then? && r.past.step.RecoverScheduled?
    && r.past.past == from
  }

  lemma RecoveryStarts(from: Run, r: Run)
    requires IsRecovery(from, r)
    ensures First(r) == First(from)
  {
    assert First(r) == First(r.past) == First(r.past.past);
  }

  lemma WatchStarts(s: Sys, r: Run)
    requires IsWatch(s, r)
    ensures First(r) == s
  {
    var early := r.past.past;
    assert First(Then(Start(s), Heartbeat)) == First(Start(s)) == s;
    if early != Then(Start(s), Heartbeat) {
      RecoveryStarts(Then(Start(s), Heartbeat), early);
    }
    assert First(r) == First(r.past) == First(early);
  }

  class WatcherService {
    const repo: JobRepository
    const queue: RedisDelayQueueService
    var lastRun: Option<int>

    constructor (repo: JobRepository, queue: RedisDelayQueueService)
      ensures this.repo == repo && this.queue == queue && lastRun == None
    {
      this.repo, this.queue, lastRun := repo, queue, None;
    }

    /** The system as this service sees it; `rest` is whatever the other parts look like. */
    ghost function View(rest: Sys, now: int): Sys
      reads this, repo, queue
    {
      rest.(clock := now, rows := repo.rows, zset := queue.zset, lastRun := lastRun)
    }

    method Watch(now: int, ghost rest: Sys) returns (ghost r: Run)
      modifies this, repo, queue
      ensures IsWatch(old(View(rest, now)), r)
      ensures Valid(r) && State(r) == View(rest, now)
    {
      var last := lastRun;
      r := Then(Start(View(rest, now)), Heartbeat);
      lastRun := Some(now);
      assert State(r) == View(rest, now);
      if last.Some? && now - last.value > WATCH_GAP {
        ghost var heartbeat := r;
        var _, recovered, retried := RecoverMissedJobs(now, rest);
        Extend(heartbeat, RecoverScheduled(recovered));
        r := Then(heartbeat, RecoverScheduled(recovered));
        Extend(r, RecoverRetries(retried));
        r := Then(r, RecoverRetries(retried));
      }
      ghost var window := SchedulePending(now, rest);
      Extend(r, ScheduleWindow(window));
      r := Then(r, ScheduleWindow(window));
      ghost var due := ScheduleDueRetries(now, rest);
      Extend(r, ScheduleRetries(due));
      r := Then(r, ScheduleRetries(due));
    }

    method SchedulePending(now: int, ghost rest: Sys) returns (ghost ids: set<JobId>)
      modifies repo, queue
      ensures Enabled(old(View(rest, now)), ScheduleWindow(ids))
      ensures View(rest, now) == Next(old(View(rest, now)), ScheduleWindow(ids))
    {
      ghost var rows, zset := repo.rows, queue.zset;
      var page := repo.FindWindow(0, now + WATCH_WINDOW, WATCH_PAGE);
      ids := Ids(page);
      NoneYet(rows, zset);
      for n := 0 to |page|
        invariant Scheduled(rows, zset, Ids(page[..n]), repo.rows, queue.zset)
      {
        var id := page[n];
        ScheduledNext(rows, zset, page, n, repo.rows, queue.zset);
        var job := repo.rows[id];
        repo.Save(id, job.(status := SCHEDULED));
        queue.ScheduleJob(id, job.scheduleTime);
      }
      assert page[..|page|] == page;
    }

    method ScheduleDueRetries(now: int, ghost rest: Sys) returns (ghost ids: set<JobId>)
      modifies repo, queue
      ensures Enabled(old(View(rest, now)), ScheduleRetries(ids))
      ensures View(rest, now) == Next(old(View(rest, now)), ScheduleRetries(ids))
    {
      ghost var rows, zset := repo.rows, queue.zset;
      var page := repo.FindRetryWindow(0, now + WATCH_WINDOW, WATCH_PAGE);
      ids := Ids(page);
      NoneYet(rows, zset);
      for n := 0 to |page|
        invariant Retried(rows, zset, Ids(page[..n]), repo.rows, queue.zset)
      {
        var id := page[n];
        RetriedNext(rows, zset, page, n, repo.rows, queue.zset);
        var job := repo.rows[id];
        repo.Save(id, job.(status := SCHEDULED));
        queue.ScheduleJob(id, job.nextRetryTime.value);
      }
      assert page[..|page|] == page;
    }

    /** Returns how many jobs the recovery touched. */
    method TriggerRecovery(now: int, ghost rest: Sys) returns (count: nat, ghost r: Run)
      modifies repo, queue
      ensures IsRecovery(Start(old(View(rest, now))), r)
      ensures Valid(r) && State(r) == View(rest, now)
      ensures count == |r.past.step.page| + |r.step.page|
    {
      r := Start(View(rest, now));
      ghost var recovered, retried;
      count, recovered, retried := RecoverMissedJobs(now, rest);
      Extend(r, RecoverScheduled(recovered));
      r := Then(r, RecoverScheduled(recovered));
      Extend(r, RecoverRetries(retried));
      r := Then(r, RecoverRetries(retried));
    }

    method RecoverMissedJobs(now: int, ghost rest: Sys)
      returns (count: nat, ghost recovered: set<JobId>, ghost retried: set<JobId>)
      modifies repo, queue
      ensures Enabled(old(View(rest, now)), RecoverScheduled(recovered))
      ensures var mid := Next(old(View(rest, now)), RecoverScheduled(recovered));
              Enabled(mid, RecoverRetries(retried)) && View(rest, now) == Next(mid, RecoverRetries(retried))
      ensures count == |recovered| + |retried|
    {
      var first, second;
      first, recovered := RecoverPendingOrScheduled(now, rest);
      second, retried := RecoverDueRetries(now, rest);
      count := first + second;
    }

    method RecoverPendingOrScheduled(now: int, ghost rest: Sys) returns (count: nat, ghost ids: set<JobId>)
      modifies repo, queue
      ensures Enabled(old(View(rest, now)), RecoverScheduled(ids))
      ensures View(rest, now) == Next(old(View(rest, now)), RecoverScheduled(ids)) && count == |ids|
    {
      ghost var rows, zset := repo.rows, queue.zset;
      var page := repo.FindPendingOrScheduledInRange(now - RECOVERY_WINDOW, now, RECOVERY_PAGE);
      ids := Ids(page);
      count := 0;
      NoneYet(rows, zset);
      for n := 0 to |page|
        invariant Scheduled(rows, zset, Ids(page[..n]), repo.rows, queue.zset)
        invariant count == n
      {
        var id := page[n];
        ScheduledNext(rows, zset, page, n, repo.rows, queue.zset);
        var job := repo.rows[id];
        queue.ScheduleJob(id, job.scheduleTime);
        SaveIsIdempotent(repo.rows, id);
        if job.status == PENDING {
          repo.Save(id, job.(status := SCHEDULED));
        }
        count := count + 1;
      }
      assert page[..|page|] == page;
      DistinctSize(page);
    }

    method RecoverDueRetries(now: int, ghost rest: Sys) returns (count: nat, ghost ids: set<JobId>)
      modifies repo, queue
      ensures Enabled(old(View(rest, now)), RecoverRetries(ids))
      ensures View(rest, now) == Next(old(View(rest, now)), RecoverRetries(ids)) && count == |ids|
    {
      ghost var rows, zset := repo.rows, queue.zset;
      var page := repo.FindRetryInRange(now - RECOVERY_WINDOW, now, RECOVERY_PAGE);
      ids := Ids(page);
      count := 0;
      NoneYet(rows, zset);
      for n := 0 to |page|
        invariant Retried(rows, zset, Ids(page[..n]), repo.rows, queue.zset)
        invariant count == n
      {
        var id := page[n];
        RetriedNext(rows, zset, page, n, repo.rows, queue.zset);
        var job := repo.rows[id];
        queue.ScheduleJob(id, job.nextRetryTime.value);
        repo.Save(id, job.(status := SCHEDULED));
        count := count + 1;
      }
      assert page[..|page|] == page;
      DistinctSize(page);
    }
  }
}
