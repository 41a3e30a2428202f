/** Creating jobs, and counting them by status. */
module JobCreation {
  import opened Jobs
  import opened WallClock
  import opened Protocol
  import opened Stores
  import opened Effects

  const STATUSES := [PENDING, SCHEDULED, QUEUED, PROCESSING, COMPLETED, FAILED, RETRY, CANCELLED]

  function WithStatus(rows: Rows, status: Status): set<JobId> {
    set i | i in rows && rows[i].status == status
  }

  function WithStatusIn(rows: Rows, statuses: seq<Status>): set<JobId> {
    set i | i in rows && rows[i].status in statuses
  }

  function Sum(counts: seq<nat>): nat {
    if counts == [] then 0 else Sum(counts[..|counts| - 1]) + counts[|counts| - 1]
  }

  lemma CountOneMore(rows: Rows, n: nat)
    requires n < |STATUSES|
    ensures |WithStatusIn(rows, STATUSES[..n + 1])| ==
            |WithStatusIn(rows, STATUSES[..n])| + |WithStatus(rows, STATUSES[n])|
  {
    var some, one := WithStatusIn(rows, STATUSES[..n]), WithStatus(rows, STATUSES[n]);
    assert STATUSES[..n + 1] == STATUSES[..n] + [STATUSES[n]];
    assert forall k :: 0 <= k < n ==> STATUSES[k] != STATUSES[n];
    assert some !! one;
    assert WithStatusIn(rows, STATUSES[..n + 1]) == some + one;
  }

  lemma CreateUnfolds(s: Sys, id: JobId, typ: JobType, time: Option<TimeOfDay>, scheduleTime: int)
    requires scheduleTime == ScheduleTime(s.clock, time)
    ensures var job := Job(typ, PENDING, 0, scheduleTime, None);
            Next(s, Create(id, typ, time)) ==
            if scheduleTime - s.clock <= IMMEDIATE_THRESHOLD
            then Send(s.(rows := s.rows[id := job.(status := QUEUED)]), id)
            else s.(rows := s.rows[id := job])
  {
  }

  class JobService {
    const repo: JobRepository
    const producer: JobTopic

    constructor (repo: JobRepository, producer: JobTopic)
      ensures this.repo == repo && this.producer == producer
    {
      this.repo, this.producer := repo, producer;
    }

    ghost function View(rest: Sys, now: int): Sys
      reads repo, producer
    {
      rest.(clock := now, rows := repo.rows, pending := producer.pending, sent := producer.sent)
    }

    /** `id` is the value the identity column of the table assigns. */
    method CreateJob(id: JobId, typ: JobType, time: Option<TimeOfDay>, now: int, ghost rest: Sys) returns (job: Job)
      requires id !in repo.rows && (time.Some? ==> time.value.Valid())
      modifies repo, producer
      ensures Enabled(old(View(rest, now)), Create(id, typ, time))
      ensures View(rest, now) == Next(old(View(rest, now)), Create(id, typ, time))
      ensures job == repo.rows[id] && DueAt(now, time, job.scheduleTime)
      ensures job == Job(typ, if job.scheduleTime - now <= 60000 then QUEUED else PENDING, 0, job.scheduleTime, None)
    {
      ghost var s := View(rest, now);
      var scheduleTime := ResolveTime(time, now);
      CreateUnfolds(s, id, typ, time, scheduleTime);
      job := Job(typ, PENDING, 0, scheduleTime, None);
      repo.Save(id, job);
      if scheduleTime - now <= IMMEDIATE_THRESHOLD {
        job := job.(status := QUEUED);
        repo.Save(id, job);
        producer.SendJob(id);
      }
    }

    method ResolveTime(time: Option<TimeOfDay>, now: int) returns (scheduleTime: int)
      ensures scheduleTime == ScheduleTime(now, time)
      ensures (time.Some? ==> time.value.Valid()) ==> DueAt(now, time, scheduleTime)
    {
      if time.Some? ==> time.value.Valid() {
        ScheduleTimeIsDue(now, time);
      }
      if time.Some? {
        var dateTime := OnSameDay(now, time.value);
        if dateTime < now {
          dateTime := dateTime + DAY;
        }
        scheduleTime := dateTime;
      } else {
        scheduleTime := now;
      }
    }

    /** One count per status, in the order of `STATUSES`; together they account for every job exactly once. */
    method GetStats() returns (counts: seq<nat>, total: nat)
      ensures |counts| == |STATUSES|
      ensures forall k :: 0 <= k < |counts| ==> counts[k] == |WithStatus(repo.rows, STATUSES[k])|
      ensures total == |repo.rows| && Sum(counts) == total
    {
      counts := [];
      assert WithStatusIn(repo.rows, STATUSES[..0]) == {};
      for n := 0 to |STATUSES|
        invariant |counts| == n
        invariant forall k :: 0 <= k < n ==> counts[k] == |WithStatus(repo.rows, STATUSES[k])|
        invariant Sum(counts) == |WithStatusIn(repo.rows, STATUSES[..n])|
      {
        CountOneMore(repo.rows, n);
        var longer := counts + [|WithStatus(repo.rows, STATUSES[n])|];
        assert longer[..n] == counts;
        counts := longer;
      }
      total := |repo.rows|;
      EveryStatusListed(repo.rows);
    }
  }

  lemma EveryStatusListed(rows: Rows)
    ensures |WithStatusIn(rows, STATUSES[..|STATUSES|])| == |rows|
  {
    forall i | i in rows
      ensures rows[i].status in STATUSES
    {
      match rows[i].status
      case PENDING => assert STATUSES[0] == PENDING;
      case SCHEDULED => assert STATUSES[1] == SCHEDULED;
      case QUEUED => assert STATUSES[2] == QUEUED;
      case PROCESSING => assert STATUSES[3] == PROCESSING;
      case COMPLETED => assert STATUSES[4] == COMPLETED;
      case FAILED => assert STATUSES[5] == FAILED;
      case RETRY => assert STATUSES[6] == RETRY;
      case CANCELLED => assert STATUSES[7] == CANCELLED;
    }
    assert STATUSES[..|STATUSES|] == STATUSES;
    assert WithStatusIn(rows, STATUSES) == rows.Keys;
    assert |rows| == |rows.Keys|;
  }
}
