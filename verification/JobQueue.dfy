/** All services over their shared stores. Every state of the objects is the end of a run of the protocol. */
module JobQueue {
  import opened Jobs
  import opened WallClock
  import opened Protocol
  import opened Ownership
  import opened Stores
  import opened Watcher
  import opened Dispatcher
  import opened JobCreation
  import opened Consumer
  import opened Admin

  class JobQueueSystem {
    const repo: JobRepository
    const queue: RedisDelayQueueService
    const redisService: RedisService
    const rateLimiter: RateLimiterService
    const topic: JobTopic
    const jobs: JobService
    const watcher: WatcherService
    const dispatcher: RedisDispatcherService
    const consumer: KafkaConsumerService
    const admin: AdminService
    var clock: int
    ghost var run: Run  // everything that happened since the start

    ghost const stores: set<object> := {repo, queue, redisService, rateLimiter, topic, watcher, consumer}

    ghost function View(): Sys
      reads this, stores
    {
      Sys(clock, repo.rows, queue.zset, redisService.flags, rateLimiter.windows, watcher.lastRun,
          topic.pending, topic.sent, consumer.State())
    }

    ghost predicate Wired() {
      && jobs.repo == repo && jobs.producer == topic
      && watcher.repo == repo && watcher.queue == queue
      && dispatcher.repo == repo && dispatcher.queue == queue && dispatcher.producer == topic
      && consumer.repo == repo && consumer.redisService == redisService
      && consumer.rateLimiter == rateLimiter && consumer.topic == topic
      && admin.watcher == watcher && admin.repo == repo && admin.queue == queue
      && admin.producer == topic && admin.consumer == consumer
    }

    /** The objects are where the run has led. */
    ghost predicate Valid()
      reads this, stores
    {
      Wired() && Booted(run) && State(run) == View()
    }

    constructor (now: int)
      requires 0 <= now
      ensures Valid() && run == Start(Boot(now)) && fresh(stores)
    {
      var rows := new JobRepository();
      var zset := new RedisDelayQueueService();
      var flags := new RedisService();
      var limiter := new RateLimiterService();
      var messages := new JobTopic();
      var service := new JobService(rows, messages);
      var watch := new WatcherService(rows, zset);
      var dispatch := new RedisDispatcherService(zset, rows, messages);
      var consume := new KafkaConsumerService(rows, flags, limiter, messages);
      var administer := new AdminService(watch, messages, consume);
      repo, queue, redisService, rateLimiter, topic := rows, zset, flags, limiter, messages;
      jobs, watcher, dispatcher, consumer, admin := service, watch, dispatch, consume, administer;
      clock := now;
      run := Start(Boot(now));
    }

    method Advance(to: int)
      requires Valid() && clock <= to
      modifies this
      ensures Valid() && run == Then(old(run), Tick(to))
    {
      Extend(run, Tick(to));
      clock := to;
      run := Then(run, Tick(to));
    }

    method CreateJob(id: JobId, typ: JobType, time: Option<TimeOfDay>) returns (job: Job)
      requires Valid() && id !in repo.rows && (time.Some? ==> time.value.Valid())
      modifies this, stores
      ensures Valid() && run == Then(old(run), Create(id, typ, time)) && job == repo.rows[id]
    {
      job := jobs.CreateJob(id, typ, time, clock, View());
      Extend(run, Create(id, typ, time));
      run := Then(run, Create(id, typ, time));
    }

    method CancelJob(id: JobId)
      requires Valid()
      modifies this, stores
      ensures Valid() && run == Then(old(run), Cancel(id))
    {
      redisService.CancelJob(id, clock, View());
      Extend(run, Cancel(id));
      run := Then(run, Cancel(id));
    }

    method Watch() returns (ghost r: Run)
      requires Valid()
      modifies this, stores
      ensures Valid() && IsWatch(old(View()), r) && run == Append(old(run), r)
    {
      ghost var before := View();
      r := watcher.Watch(clock, View());
      WatchStarts(before, r);
      AppendRuns(run, r);
      run := Append(run, r);
    }

    method Dispatch()
      requires Valid()
      modifies this, stores
      ensures Valid() && run == Then(old(run), Step.Dispatch)
    {
      dispatcher.Dispatch(clock, View());
      Extend(run, Step.Dispatch);
      run := Then(run, Step.Dispatch);
    }

    method Consume(id: JobId, evicted: bool, ok: bool)
      requires Valid() && Enabled(View(), Step.Consume(id, evicted, ok))
      modifies this, stores
      ensures Valid() && run == Then(old(run), Step.Consume(id, evicted, ok))
    {
      consumer.Consume(id, evicted, ok, clock, View());
      Extend(run, Step.Consume(id, evicted, ok));
      run := Then(run, Step.Consume(id, evicted, ok));
    }

    method RecoverWatcher() returns (result: AdminActionResult, ghost r: Run)
      requires Valid()
      modifies this, stores
      ensures Valid() && IsRecovery(Start(old(View())), r) && run == Append(old(run), r)
    {
      ghost var before := View();
      result, r := admin.RecoverWatcher(clock, View());
      RecoveryStarts(Start(before), r);
      AppendRuns(run, r);
      run := Append(run, r);
    }

    method ReconcileRedis() returns (result: AdminActionResult, ghost r: Run)
      requires Valid()
      modifies this, stores
      ensures Valid() && run == Append(old(run), r) && IsReconcile(Start(old(View())), r)
    {
      result, r := admin.ReconcileRedis(clock, View());
      assert First(r) == First(r.past) == First(r.past.past);
      AppendRuns(run, r);
      run := Append(run, r);
    }

    method RequeueJob(id: JobId) returns (result: AdminActionResult)
      requires Valid()
      modifies this, stores
      ensures Valid() && run == Then(old(run), Requeue(id))
    {
      result := admin.RequeueJob(id, clock, View());
      Extend(run, Requeue(id));
      run := Then(run, Requeue(id));
    }

    method ResetCircuit(typ: JobType) returns (result: AdminActionResult)
      requires Valid()
      modifies this, stores
      ensures Valid() && run == Then(old(run), Step.ResetCircuit(typ))
    {
      result := admin.ResetCircuit(typ, clock, View());
      Extend(run, Step.ResetCircuit(typ));
      run := Then(run, Step.ResetCircuit(typ));
    }

    /** The environment: Kafka delivers a message again. */
    method Redeliver(id: JobId)
      requires Valid() && id in topic.sent
      modifies this, stores
      ensures Valid() && run == Then(old(run), Step.Redeliver(id))
    {
      Extend(run, Step.Redeliver(id));
      topic.pending := topic.pending + multiset{id};
      run := Then(run, Step.Redeliver(id));
    }

    /** The environment: Redis comes back empty. */
    method LoseRedis()
      requires Valid()
      modifies this, stores
      ensures Valid() && run == Then(old(run), RedisLoss)
    {
      Extend(run, RedisLoss);
      queue.zset, redisService.flags, rateLimiter.windows := map[], map[], map[];
      watcher.lastRun := None;
      run := Then(run, RedisLoss);
    }

    /** The theorems about runs speak about these objects: here, single ownership of the stores themselves. */
    lemma StoresHaveSingleOwners()
      requires Valid() && Avoids(run, DUPLICATORS + {LosesRedis})
      ensures forall id :: id in queue.zset <==> id in repo.rows && repo.rows[id].status == SCHEDULED
      ensures forall id :: topic.pending[id] == if id in repo.rows && repo.rows[id].status == QUEUED then 1 else 0
    {
      SingleOwnership(run);
    }
  }
}
