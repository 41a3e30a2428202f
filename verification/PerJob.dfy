/**
 What one job sees of the system. Every step of the protocol acts on each single job by at most one
 of a dozen events, so a claim about a job over a whole run needs reasoning about these events only.
 */
module PerJob {
  import opened Jobs
  import opened WallClock
  import opened Protocol

  /** Everything the stores hold about one job id. */
  datatype Loc = Loc(row: Option<Job>, score: Option<int>, msgs: nat, sent: bool, flag: Option<int>)

  function At<V>(m: map<JobId, V>, id: JobId): Option<V> {
    if id in m then Some(m[id]) else None
  }

  function Local(s: Sys, id: JobId): Loc {
    Loc(At(s.rows, id), At(s.zset, id), s.pending[id], id in s.sent, At(s.flags, id))
  }

  datatype Event =
    | Idle
    | Born(job: Job)
    | Flag
    | Pick                         // watch: PENDING, due within its window
    | Rescue                       // recovery or reconcile: PENDING or SCHEDULED, already due
    | PickRetry                    // watch, recovery or reconcile: RETRY
    | Leave                        // dispatched to Kafka
    | Drop                         // stale delay-queue entry removed
    | Delivered(gate: Gate, ok: bool)
    | Requeued
    | Redelivered
    | Lost                         // Redis came back empty

  function EventOf(s: Sys, step: Step, id: JobId): Event {
    match step
    case Create(i, typ, time) => if i == id then Born(NewJob(typ, s.clock, time)) else Idle
    case Cancel(i) => if i == id then Flag else Idle
    case ScheduleWindow(page) => if id in page then Pick else Idle
    case ScheduleRetries(page) => if id in page then PickRetry else Idle
    case RecoverScheduled(page) => if id in page then Rescue else Idle
    case RecoverRetries(page) => if id in page then PickRetry else Idle
    case ReconcileOverdue(page) => if id in page then Rescue else Idle
    case ReconcileRetries(page) => if id in page then PickRetry else Idle
    case Dispatch =>
      if id !in Ready(s.zset, s.clock) then Idle
      else if Dispatchable(s.rows, id) then Leave else Drop
    case Consume(i, evicted, ok) => if i == id then Delivered(GateOf(s, id, evicted), ok) else Idle
    case Requeue(i) => if i == id && Requeueable(s, id) then Requeued else Idle
    case Redeliver(i) => if i == id then Redelivered else Idle
    case RedisLoss => Lost
    case _ => Idle
  }

  predicate Has(l: Loc, status: Status) { l.row.Some? && l.row.value.status == status }

  predicate Flagged(l: Loc, clock: int) { l.flag.Some? && clock < l.flag.value }

  /** When event `e` can happen to a job that looks like `l`, with the clock at `clock`. */
  predicate Possible(clock: int, l: Loc, e: Event) {
    match e
    case Born(job) =>
      && l.row.None?
      && job.retryCount == 0 && job.nextRetryTime.None? && job.scheduleTime >= clock
      && job.status == (if job.scheduleTime - clock <= 60000 then QUEUED else PENDING)
    case Pick => Has(l, PENDING) && 0 <= l.row.value.scheduleTime <= clock + 20000
    case Rescue => (Has(l, PENDING) || Has(l, SCHEDULED)) && l.row.value.scheduleTime <= clock
    case PickRetry =>
      Has(l, RETRY) && l.row.value.nextRetryTime.Some? && l.row.value.nextRetryTime.value <= clock + 20000
    case Leave => Has(l, SCHEDULED) && l.score.Some? && 0 <= l.score.value <= clock
    case Drop => !Has(l, SCHEDULED) && l.score.Some?
    case Delivered(gate, _) =>
      && 0 < l.msgs
      && (gate == NoJob <==> l.row.None?)
      && (l.row.Some? ==> (gate == Cancelled <==> Flagged(l, clock)))
      && (gate == Executed ==> Has(l, QUEUED))
      && (gate == NotQueued ==> !Has(l, QUEUED))
    case Requeued => l.row.Some? && !Has(l, COMPLETED) && !Has(l, CANCELLED)
    case Redelivered => l.sent
    case _ => true
  }

  function SetStatus(l: Loc, status: Status): Loc
    requires l.row.Some?
  {
    l.(row := Some(l.row.value.(status := status)))
  }

  function Apply(clock: int, l: Loc, e: Event): Loc
    requires Possible(clock, l, e)
  {
    match e
    case Idle => l
    case Born(job) =>
      if job.status == QUEUED then l.(row := Some(job), msgs := l.msgs + 1, sent := true) else l.(row := Some(job))
    case Flag => l.(flag := Some(clock + 600000))
    case Pick => SetStatus(l, SCHEDULED).(score := Some(l.row.value.scheduleTime))
    case Rescue => SetStatus(l, SCHEDULED).(score := Some(l.row.value.scheduleTime))
    case PickRetry => SetStatus(l, SCHEDULED).(score := l.row.value.nextRetryTime)
    case Leave => SetStatus(l, QUEUED).(score := None, msgs := l.msgs + 1, sent := true)
    case Drop => l.(score := None)
    case Delivered(gate, ok) =>
      var acked := l.(msgs := l.msgs - 1);
      if gate == NoJob then acked
      else
        var saved := acked.(row := Some(AfterDelivery(l.row.value, gate, ok, clock)));
        if gate == Cancelled then saved.(flag := None) else saved
    case Requeued => SetStatus(l, QUEUED).(msgs := l.msgs + 1, sent := true)
    case Redelivered => l.(msgs := l.msgs + 1)
    case Lost => l.(score := None, flag := None)
  }

  /** Each step of the system is, for each job, one possible event and nothing else. */
  lemma StepIsEvent(s: Sys, step: Step, id: JobId)
    requires Enabled(s, step)
    ensures Possible(s.clock, Local(s, id), EventOf(s, step, id))
    ensures Local(Next(s, step), id) == Apply(s.clock, Local(s, id), EventOf(s, step, id))
  {
    match step
    case Create(i, typ, time) => CreateIsEvent(s, i, typ, time, id);
    case ScheduleWindow(page) => BatchIsEvent(s, page, id);
    case ScheduleRetries(page) => BatchIsEvent(s, page, id);
    case RecoverScheduled(page) => BatchIsEvent(s, page, id);
    case RecoverRetries(page) => BatchIsEvent(s, page, id);
    case ReconcileOverdue(page) => ReconcileIsEvent(s, page, id);
    case ReconcileRetries(page) => BatchIsEvent(s, page, id);
    case Dispatch => DispatchIsEvent(s, id);
    case Consume(i, evicted, ok) => ConsumeIsEvent(s, i, evicted, ok, id);
    case Requeue(i) => ResendIsEvent(s, i, id);
    case Redeliver(i) => ResendIsEvent(s, i, id);
    case _ =>
  }

  lemma ResendIsEvent(s: Sys, i: JobId, id: JobId)
    ensures Possible(s.clock, Local(s, id), EventOf(s, Requeue(i), id))
    ensures Local(Next(s, Requeue(i)), id) == Apply(s.clock, Local(s, id), EventOf(s, Requeue(i), id))
    ensures i in s.sent ==>
              && Possible(s.clock, Local(s, id), EventOf(s, Redeliver(i), id))
              && Local(Next(s, Redeliver(i)), id) == Apply(s.clock, Local(s, id), EventOf(s, Redeliver(i), id))
  {
  }

  lemma CreateIsEvent(s: Sys, i: JobId, typ: JobType, time: Option<TimeOfDay>, id: JobId)
    requires Enabled(s, Create(i, typ, time))
    ensures Possible(s.clock, Local(s, id), EventOf(s, Create(i, typ, time), id))
    ensures Local(Next(s, Create(i, typ, time)), id) ==
            Apply(s.clock, Local(s, id), EventOf(s, Create(i, typ, time), id))
  {
    CreatedLater(s.clock, time);
  }

  lemma BatchIsEvent(s: Sys, page: set<JobId>, id: JobId)
    requires page <= s.rows.Keys
    ensures Local(ScheduleBatch(s, page), id) ==
            if id in page then SetStatus(Local(s, id), SCHEDULED).(score := Some(s.rows[id].scheduleTime))
            else Local(s, id)
    ensures Local(RetryBatch(s, page), id) ==
            if id in page then SetStatus(Local(s, id), SCHEDULED).(score := Some(SortKey(ByRetryTime, s.rows[id])))
            else Local(s, id)
  {
  }

  lemma ReconcileIsEvent(s: Sys, page: set<JobId>, id: JobId)
    requires page <= OverdueScheduled(s.rows, s.clock)
    ensures Local(Next(s, ReconcileOverdue(page)), id) ==
            if id in page then SetStatus(Local(s, id), SCHEDULED).(score := Some(s.rows[id].scheduleTime))
            else Local(s, id)
  {
  }

  lemma DispatchIsEvent(s: Sys, id: JobId)
    ensures Possible(s.clock, Local(s, id), EventOf(s, Dispatch, id))
    ensures Local(Next(s, Dispatch), id) == Apply(s.clock, Local(s, id), EventOf(s, Dispatch, id))
  {
    var ready := Ready(s.zset, s.clock);
    var out := Dispatched(s.rows, ready);
    assert multiset(out)[id] == if id in out then 1 else 0;
  }

  lemma OtherConsumeIsIdle(s: Sys, i: JobId, evicted: bool, ok: bool, id: JobId)
    requires i in s.pending && i != id
    ensures Local(Deliver(s, i, evicted, ok), id) == Local(s, id)
  {
    assert (s.pending - multiset{i})[id] == s.pending[id];
  }

  lemma OwnConsumeIsDelivery(s: Sys, id: JobId, evicted: bool, ok: bool)
    requires id in s.pending
    ensures Possible(s.clock, Local(s, id), Delivered(GateOf(s, id, evicted), ok))
    ensures Local(Deliver(s, id, evicted, ok), id) ==
            Apply(s.clock, Local(s, id), Delivered(GateOf(s, id, evicted), ok))
  {
    GateIsPossible(s, id, evicted);
    assert (s.pending - multiset{id})[id] == s.pending[id] - 1;
  }

  lemma ConsumeIsEvent(s: Sys, i: JobId, evicted: bool, ok: bool, id: JobId)
    requires i in s.pending
    ensures Possible(s.clock, Local(s, id), EventOf(s, Consume(i, evicted, ok), id))
    ensures Local(Deliver(s, i, evicted, ok), id) ==
            Apply(s.clock, Local(s, id), EventOf(s, Consume(i, evicted, ok), id))
  {
    if i == id {
      OwnConsumeIsDelivery(s, id, evicted, ok);
    } else {
      OtherConsumeIsIdle(s, i, evicted, ok, id);
    }
  }

  lemma GateIsPossible(s: Sys, id: JobId, evicted: bool)
    ensures var gate := GateOf(s, id, evicted);
            && (gate == NoJob <==> id !in s.rows)
            && (id in s.rows ==> (gate == Cancelled <==> Flagged(Local(s, id), s.clock)))
            && (gate == Executed ==> s.rows[id].status == QUEUED)
            && (gate == NotQueued ==> s.rows[id].status != QUEUED)
  {
  }

  lemma CreatedLater(now: int, time: Option<TimeOfDay>)
    requires time.Some? ==> time.value.Valid()
    ensures now <= ScheduleTime(now, time)
  {
    if time.Some? {
      NextOccurrenceUnique(now, time.value, NextOccurrence(now, time.value));
    }
  }

  /** The job has this row at every point of the run. */
  predicate KeepsRow(r: Run, id: JobId, row: Job) {
    && At(State(r).rows, id) == Some(row)
    && (r.Then? ==> KeepsRow(r.past, id, row))
  }
}
