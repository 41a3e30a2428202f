/** The dispatcher: moves ready jobs from the delay queue to the topic. */
module Dispatcher {
  import opened FiniteSets
  import opened Jobs
  import opened Protocol
  import opened Stores

  /** What dispatching the ids in `done` has made of the stores. */
  ghost predicate Progress(s: Sys, done: set<JobId>, rows: Rows, zset: Scores, pending: multiset<JobId>,
                           sent: set<JobId>) {
    && rows == MarkQueued(s.rows, done)
    && zset == Remove(s.zset, done)
    && pending == s.pending + multiset(Dispatched(s.rows, done))
    && sent == s.sent + Dispatched(s.rows, done)
  }

  lemma NoProgress(s: Sys)
    ensures Progress(s, {}, s.rows, s.zset, s.pending, s.sent)
  {
    assert Dispatched(s.rows, {}) == {};
  }

  lemma SkipOneMore(s: Sys, done: set<JobId>, id: JobId)
    requires id !in done && !Dispatchable(s.rows, id)
    ensures MarkQueued(s.rows, done + {id}) == MarkQueued(s.rows, done)
    ensures Remove(s.zset, done + {id}) == Remove(s.zset, done) - {id}
    ensures Dispatched(s.rows, done + {id}) == Dispatched(s.rows, done)
  {
  }

  lemma SendOneMore(s: Sys, done: set<JobId>, id: JobId)
    requires id !in done && Dispatchable(s.rows, id)
    ensures MarkQueued(s.rows, done + {id}) == MarkQueued(s.rows, done)[id := s.rows[id].(status := QUEUED)]
    ensures Remove(s.zset, done + {id}) == Remove(s.zset, done) - {id}
    ensures Dispatched(s.rows, done + {id}) == Dispatched(s.rows, done) + {id}
    ensures multiset(Dispatched(s.rows, done + {id})) == multiset(Dispatched(s.rows, done)) + multiset{id}
  {
    assert Dispatched(s.rows, done + {id}) == Dispatched(s.rows, done) + {id};
  }

  lemma Untouched(s: Sys, done: set<JobId>, id: JobId)
    requires id !in done
    ensures id in MarkQueued(s.rows, done) <==> id in s.rows
    ensures id in s.rows ==> MarkQueued(s.rows, done)[id] == s.rows[id]
  {
  }

  class RedisDispatcherService {
    const queue: RedisDelayQueueService
    const repo: JobRepository
    const producer: JobTopic

    constructor (queue: RedisDelayQueueService, repo: JobRepository, producer: JobTopic)
      ensures this.queue == queue && this.repo == repo && this.producer == producer
    {
      this.queue, this.repo, this.producer := queue, repo, producer;
    }

    ghost function View(rest: Sys, now: int): Sys
      reads queue, repo, producer
    {
      rest.(clock := now, rows := repo.rows, zset := queue.zset, pending := producer.pending, sent := producer.sent)
    }

    method Dispatch(now: int, ghost rest: Sys)
      modifies queue, repo, producer
      ensures View(rest, now) == Next(old(View(rest, now)), Step.Dispatch)
    {
      ghost var s := View(rest, now);
      var ready := queue.GetReadyJobs(now);
      NoProgress(s);
      if ready != {} {
        DispatchAll(ready, s);
      }
    }

    method DispatchAll(ready: set<JobId>, ghost s: Sys)
      requires Progress(s, {}, repo.rows, queue.zset, producer.pending, producer.sent)
      modifies queue, repo, producer
      ensures Progress(s, ready, repo.rows, queue.zset, producer.pending, producer.sent)
    {
      var todo := ready;
      ghost var done := {};
      while todo != {}
        invariant done + todo == ready && done !! todo
        invariant Progress(s, done, repo.rows, queue.zset, producer.pending, producer.sent)
        decreases todo
      {
        Inhabited(todo);
        var id :| id in todo;
        DispatchOne(id, s, done);
        todo, done := todo - {id}, done + {id};
      }
      assert done == ready;
    }

    method DispatchOne(id: JobId, ghost s: Sys, ghost done: set<JobId>)
      requires id !in done
      requires Progress(s, done, repo.rows, queue.zset, producer.pending, producer.sent)
      modifies queue, repo, producer
      ensures Progress(s, done + {id}, repo.rows, queue.zset, producer.pending, producer.sent)
    {
      Untouched(s, done, id);
      if id !in repo.rows {
        SkipOneMore(s, done, id);
        queue.RemoveJob(id);
        return;
      }
      var job := repo.rows[id];
      if job.status != SCHEDULED {
        SkipOneMore(s, done, id);
        queue.RemoveJob(id);
        return;
      }
      SendOneMore(s, done, id);
      repo.Save(id, job.(status := QUEUED));
      producer.SendJob(id);
      queue.RemoveJob(id);
    }
  }
}
