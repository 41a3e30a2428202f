/** The consumer of the job topic: cancellation, rate limit, circuit breaker, execution and retries. */
module Consumer {
  import opened Jobs
  import opened Protocol
  import opened Stores

  lemma FlaggedDelivery(s: Sys, id: JobId, evicted: bool, ok: bool)
    requires id in s.rows && Flagged(s, id)
    ensures Deliver(s, id, evicted, ok) ==
            s.(pending := s.pending - multiset{id}, rows := s.rows[id := s.rows[id].(status := CANCELLED)],
               flags := s.flags - {id})
  {
  }

  lemma LimitedDelivery(s: Sys, id: JobId, evicted: bool, ok: bool)
    requires id in s.rows && !Flagged(s, id)
    ensures !Limit(s, s.rows[id].typ, evicted).admitted ==>
              Deliver(s, id, evicted, ok) ==
              s.(pending := s.pending - multiset{id},
                 rows := s.rows[id := s.rows[id].(status := RETRY, nextRetryTime := Some(s.clock + RATE_DELAY))],
                 windows := StoreWindow(s.windows, s.rows[id].typ, Limit(s, s.rows[id].typ, evicted).window))
  {
  }

  function GateBehindLimiter(b: Breakers, job: Job, now: int): Gate {
    if Rejecting(b, job.typ, now) then CircuitOpen else if job.status != QUEUED then NotQueued else Executed
  }

  lemma AdmittedDelivery(s: Sys, id: JobId, evicted: bool, ok: bool)
    requires id in s.rows && !Flagged(s, id) && Limit(s, s.rows[id].typ, evicted).admitted
    ensures var job := s.rows[id];
            var gate := GateBehindLimiter(s.breakers, job, s.clock);
            Deliver(s, id, evicted, ok) ==
            s.(pending := s.pending - multiset{id}, rows := s.rows[id := AfterDelivery(job, gate, ok, s.clock)],
               windows := StoreWindow(s.windows, job.typ, Limit(s, job.typ, evicted).window),
               breakers := AfterGate(s.breakers, job.typ, gate, ok, s.clock))
  {
  }

  class KafkaConsumerService {
    const repo: JobRepository
    const redisService: RedisService
    const rateLimiter: RateLimiterService
    const topic: JobTopic
    var failureCount: map<JobType, int>
    var circuitOpen: map<JobType, bool>
    var lastFailureTime: map<JobType, int>

    constructor (repo: JobRepository, redisService: RedisService, rateLimiter: RateLimiterService, topic: JobTopic)
      ensures this.repo == repo && this.redisService == redisService && this.rateLimiter == rateLimiter
      ensures this.topic == topic && State() == Breakers(map[], map[], map[])
    {
      this.repo, this.redisService, this.rateLimiter, this.topic := repo, redisService, rateLimiter, topic;
      failureCount, circuitOpen, lastFailureTime := map[], map[], map[];
    }

    ghost function State(): Breakers
      reads this
    {
      Breakers(failureCount, circuitOpen, lastFailureTime)
    }

    ghost function View(rest: Sys, now: int): Sys
      reads this, repo, redisService, rateLimiter, topic
    {
      rest.(clock := now, rows := repo.rows, flags := redisService.flags, windows := rateLimiter.windows,
            pending := topic.pending, sent := topic.sent, breakers := State())
    }

    function IsCircuitOpen(typ: JobType): (open: bool)
      reads this
      ensures open == State().Open(typ)
    {
      typ in circuitOpen && circuitOpen[typ]
    }

    function GetLastFailureTime(typ: JobType): (time: int)
      reads this
      ensures time == State().LastFailure(typ)
    {
      if typ in lastFailureTime then lastFailureTime[typ] else 0
    }

    function GetFailureCount(typ: JobType): (count: int)
      reads this
      ensures count == State().Failures(typ)
    {
      if typ in failureCount then failureCount[typ] else 0
    }

    /** Handles one message. `evicted` says whether Redis had dropped the expired limiter key of the job's type,
        `ok` what the executor does if it is run. */
    method Consume(id: JobId, evicted: bool, ok: bool, now: int, ghost rest: Sys)
      requires Enabled(View(rest, now), Step.Consume(id, evicted, ok))
      modifies this, repo, redisService, rateLimiter, topic
      ensures View(rest, now) == Next(old(View(rest, now)), Step.Consume(id, evicted, ok))
    {
      ghost var s := View(rest, now);
      if id !in repo.rows {
        topic.Acknowledge(id);
        return;
      }
      var job := repo.rows[id];
      var cancelled := redisService.IsCancelled(id, now);
      if cancelled {
        FlaggedDelivery(s, id, evicted, ok);
        repo.Save(id, job.(status := CANCELLED));
        redisService.ClearCancellation(id);
        topic.Acknowledge(id);
        return;
      }
      ConsumeUncancelled(id, job, evicted, ok, now, rest);
    }

    method ConsumeUncancelled(id: JobId, job: Job, evicted: bool, ok: bool, now: int, ghost rest: Sys)
      requires Enabled(View(rest, now), Step.Consume(id, evicted, ok))
      requires id in repo.rows && repo.rows[id] == job && !Flagged(View(rest, now), id)
      modifies this, repo, rateLimiter, topic
      ensures View(rest, now) == Deliver(old(View(rest, now)), id, evicted, ok)
    {
      ghost var s := View(rest, now);
      LimitedDelivery(s, id, evicted, ok);
      var admitted := rateLimiter.Allow(job.typ, RATE_LIMIT, now, evicted);
      if !admitted {
        repo.Save(id, job.(status := RETRY, nextRetryTime := Some(now + RATE_DELAY)));
        topic.Acknowledge(id);
        return;
      }
      AdmittedDelivery(s, id, evicted, ok);
      Process(id, job, ok, now);
      topic.Acknowledge(id);
    }

    /** What happens to a message that passed the rate limiter. */
    method Process(id: JobId, job: Job, ok: bool, now: int)
      requires id in repo.rows && repo.rows[id] == job
      modifies this, repo
      ensures var gate := GateBehindLimiter(old(State()), job, now);
              && repo.rows == old(repo.rows)[id := AfterDelivery(job, gate, ok, now)]
              && State() == AfterGate(old(State()), job.typ, gate, ok, now)
    {
      if IsCircuitOpen(job.typ) {
        if now - GetLastFailureTime(job.typ) < CIRCUIT_TIMEOUT {
          repo.Save(id, job.(status := RETRY, nextRetryTime := Some(now + CIRCUIT_DELAY)));
          return;
        }
        circuitOpen := circuitOpen[job.typ := false];
      }
      if job.status != QUEUED {
        assert repo.rows[id := job] == repo.rows;
        return;
      }
      repo.Save(id, job.(status := PROCESSING));
      if ok {
        repo.Save(id, job.(status := COMPLETED));
        failureCount := failureCount[job.typ := 0];
      } else {
        RecordFailure(job.typ, now);
        Retry(id, job, now);
      }
    }

    method RecordFailure(typ: JobType, now: int)
      modifies this
      ensures !old(IsCircuitOpen(typ)) ==> State() == AfterGate(old(State()), typ, Executed, false, now)
    {
      var currentFailures := GetFailureCount(typ) + 1;
      failureCount := failureCount[typ := currentFailures];
      lastFailureTime := lastFailureTime[typ := now];
      if currentFailures >= FAILURE_THRESHOLD {
        circuitOpen := circuitOpen[typ := true];
      }
    }

    method Retry(id: JobId, job: Job, now: int)
      modifies repo
      ensures repo.rows == old(repo.rows)[id := AfterDelivery(job, Executed, false, now)]
    {
      if job.retryCount >= MAX_RETRY {
        repo.Save(id, job.(status := FAILED));
      } else {
        var retryCount := job.retryCount + 1;
        var delay := Pow2(retryCount) * 1000;
        delay := Min(delay, MAX_BACKOFF);
        repo.Save(id, job.(status := RETRY, retryCount := retryCount, nextRetryTime := Some(now + delay)));
      }
    }

    method ResetCircuit(typ: JobType, now: int, ghost rest: Sys)
      modifies this
      ensures View(rest, now) == Next(old(View(rest, now)), Step.ResetCircuit(typ))
    {
      failureCount := failureCount[typ := 0];
      circuitOpen := circuitOpen[typ := false];
      lastFailureTime := lastFailureTime[typ := 0];
    }
  }
}
