/** The watcher's pages are ordered by due time, so no job can be overtaken for ever. */
module Starvation {
  import opened FiniteSets
  import opened Jobs
  import opened Protocol
  import opened PerJob
  import opened Ownership
  import Watcher

  /** The other jobs in `status` that sort at or before `key`. */
  function Ahead(rows: Rows, status: Status, order: Order, id: JobId, key: int): set<JobId> {
    set i | i in rows && i != id && rows[i].status == status && SortKey(order, rows[i]) <= key
  }

  predicate Behind(l: Loc, status: Status, order: Order, key: int) {
    Has(l, status) ==> key < SortKey(order, l.row.value)
  }

  /** A page that leaves a matching job out is full, and all of it was ahead of that job. */
  lemma PageTakesFromAhead(rows: Rows, after: Rows, matching: set<JobId>, status: Status, order: Order,
                           page: set<JobId>, id: JobId, key: int)
    requires IsPage(rows, matching, order, 200, page)
    requires forall i :: i in matching ==> rows[i].status == status
    requires id in matching - page && SortKey(order, rows[id]) == key
    requires after == MarkScheduled(rows, page) && status != SCHEDULED
    ensures |Ahead(after, status, order, id, key)| + 200 <= |Ahead(rows, status, order, id, key)|
  {
    var before := Ahead(rows, status, order, id, key);
    forall p | p in page
      ensures p in before
    {
      assert p in matching;
      assert id in matching - page ==> SortKey(order, rows[p]) <= SortKey(order, rows[id]);
    }
    assert Ahead(after, status, order, id, key) <= before - page;
    SubsetSize(Ahead(after, status, order, id, key), before - page);
  }

  // ----- PENDING jobs

  function WatchTicks(r: Run): nat {
    match r
    case Start(_) => 0
    case Then(past, step) => WatchTicks(past) + (if step.ScheduleWindow? then 1 else 0)
  }

  lemma NewPendingSortsAfter(clock: int, l: Loc, e: Event, key: int)
    requires Possible(clock, l, e) && key <= clock + 60000
    requires Behind(l, PENDING, BySchedule, key)
    ensures Behind(Apply(clock, l, e), PENDING, BySchedule, key)
  {
  }

  lemma AheadShrinks(s: Sys, step: Step, id: JobId, key: int)
    requires Enabled(s, step) && key <= s.clock + 60000
    ensures Ahead(Next(s, step).rows, PENDING, BySchedule, id, key) <= Ahead(s.rows, PENDING, BySchedule, id, key)
  {
    var after := Next(s, step);
    forall i | i != id && i !in Ahead(s.rows, PENDING, BySchedule, id, key)
      ensures i !in Ahead(after.rows, PENDING, BySchedule, id, key)
    {
      StepIsEvent(s, step, i);
      assert Behind(Local(s, i), PENDING, BySchedule, key);
      NewPendingSortsAfter(s.clock, Local(s, i), EventOf(s, step, i), key);
      assert Behind(Local(after, i), PENDING, BySchedule, key);
    }
  }

  lemma PendingAdvances(s: Sys, step: Step, id: JobId)
    requires Enabled(s, step) && id in s.rows && s.rows[id].status == PENDING
    requires 0 <= s.rows[id].scheduleTime <= s.clock + 20000
    requires id in Next(s, step).rows && Next(s, step).rows[id].status == PENDING
    ensures var key := s.rows[id].scheduleTime;
            |Ahead(Next(s, step).rows, PENDING, BySchedule, id, key)| + (if step.ScheduleWindow? then 200 else 0)
            <= |Ahead(s.rows, PENDING, BySchedule, id, key)|
  {
    var key := s.rows[id].scheduleTime;
    if step.ScheduleWindow? {
      PageTakesFromAhead(s.rows, Next(s, step).rows, PendingWindow(s.rows, 0, s.clock + 20000),
                         PENDING, BySchedule, step.page, id, key);
    } else {
      AheadShrinks(s, step, id, key);
      SubsetSize(Ahead(Next(s, step).rows, PENDING, BySchedule, id, key), Ahead(s.rows, PENDING, BySchedule, id, key));
    }
  }

  /** PENDING is never entered again, and keeps its due time. */
  lemma PendingBefore(clock: int, l: Loc, e: Event)
    requires Possible(clock, l, e) && l.row.Some? && Has(Apply(clock, l, e), PENDING)
    ensures Apply(clock, l, e).row == l.row
  {
  }

  lemma {:induction false} StillPending(r: Run, id: JobId, row: Job)
    requires Valid(r) && At(First(r).rows, id) == Some(row)
    requires row.status == PENDING && 0 <= row.scheduleTime <= First(r).clock + 20000
    ensures id in State(r).rows
    ensures State(r).rows[id].status == PENDING ==>
              && State(r).rows[id] == row
              && |Ahead(State(r).rows, PENDING, BySchedule, id, row.scheduleTime)| + 200 * WatchTicks(r)
                 <= |Ahead(First(r).rows, PENDING, BySchedule, id, row.scheduleTime)|
  {
    match r
    case Start(_) =>
    case Then(past, step) =>
      var s := State(past);
      StillPending(past, id, row);
      ClockAdvances(past);
      StepIsEvent(s, step, id);
      assert Local(State(r), id).row.Some?;
      if Has(Local(State(r), id), PENDING) {
        PendingBefore(s.clock, Local(s, id), EventOf(s, step, id));
        PendingAdvances(s, step, id);
      }
  }

  /** A due PENDING job with k others at or before its schedule time is no longer PENDING after k/200 + 1 ticks of
      the watcher, whatever other steps interleave: requeues, duplicates, losses and new jobs included. */
  lemma PendingIsServed(r: Run, id: JobId)
    requires Valid(r) && id in First(r).rows
    requires var row := First(r).rows[id];
             && row.status == PENDING && 0 <= row.scheduleTime <= First(r).clock + 20000
             && |Ahead(First(r).rows, PENDING, BySchedule, id, row.scheduleTime)| / 200 + 1 <= WatchTicks(r)
    ensures id in State(r).rows && State(r).rows[id].status != PENDING
  {
    StillPending(r, id, First(r).rows[id]);
  }

  /** A job that has not been sent yet is still PENDING, or waits in the delay queue for its schedule time. */
  predicate OnItsWay(l: Loc) {
    l.row.Some? ==>
      || l.sent || Has(l, PENDING)
      || (Has(l, SCHEDULED) && l.score == Some(l.row.value.scheduleTime))
  }

  lemma OnItsWayStep(clock: int, l: Loc, e: Event)
    requires Possible(clock, l, e) && Sound(clock, l) && OnItsWay(l) && !e.Lost?
    ensures OnItsWay(Apply(clock, l, e))
  {
  }

  lemma {:induction false} EveryJobIsOnItsWay(r: Run, id: JobId)
    requires Booted(r) && Avoids(r, {LosesRedis})
    ensures OnItsWay(Local(State(r), id))
  {
    match r
    case Start(_) =>
    case Then(past, step) =>
      var s := State(past);
      EveryJobIsOnItsWay(past, id);
      EveryRunIsSound(past, id);
      StepIsEvent(s, step, id);
      OnlyLossLoses(s, step, id);
      OnItsWayStep(s.clock, Local(s, id), EventOf(s, step, id));
  }

  /** Unless Redis is lost, a job that is no longer PENDING and whose time has come is on the topic, or has been,
      after the next dispatch. */
  lemma DueIsSent(r: Run, id: JobId)
    requires Booted(r) && Avoids(r, {LosesRedis}) && id in State(r).rows
    requires State(r).rows[id].status != PENDING && State(r).rows[id].scheduleTime <= State(r).clock
    ensures id in Next(State(r), Dispatch).sent
  {
    EveryJobIsOnItsWay(r, id);
    EveryRunIsSound(r, id);
    StepIsEvent(State(r), Dispatch, id);
    assert Local(Next(State(r), Dispatch), id).sent;
  }

  lemma {:induction false} AppendAvoids(base: Run, r: Run, banned: set<Kind>)
    requires Avoids(base, banned) && Avoids(r, banned)
    ensures Avoids(Append(base, r), banned)
  {
    match r
    case Start(_) =>
    case Then(past, _) => AppendAvoids(base, past, banned);
  }

  /** From PENDING to the topic: a due PENDING job with k others at or before its schedule time has been sent after
      k/200 + 1 ticks of the watcher and, once its time has come, one dispatch. */
  lemma PendingReachesTopic(base: Run, r: Run, id: JobId)
    requires Booted(base) && Avoids(base, {LosesRedis}) && id in State(base).rows
    requires Valid(r) && Avoids(r, {LosesRedis}) && First(r) == State(base)
    requires var row := State(base).rows[id];
             && row.status == PENDING && row.scheduleTime <= State(base).clock + 20000
             && |Ahead(State(base).rows, PENDING, BySchedule, id, row.scheduleTime)| / 200 < WatchTicks(r)
    ensures id in State(r).rows
    ensures State(r).rows[id].scheduleTime <= State(r).clock ==> id in Next(State(r), Dispatch).sent
  {
    EveryRunIsSound(base, id);
    PendingIsServed(r, id);
    AppendRuns(base, r);
    AppendAvoids(base, r, {LosesRedis});
    if State(r).rows[id].scheduleTime <= State(r).clock {
      DueIsSent(Append(base, r), id);
    }
  }

  /** Appending one more step adds that step's ticks. */
  lemma AppendOne(base: Run, past: Run, step: Step)
    ensures Append(base, Then(past, step)) == Then(Append(base, past), step)
    ensures var r := Append(base, Then(past, step));
            && WatchTicks(r) == WatchTicks(Append(base, past)) + (if step.ScheduleWindow? then 1 else 0)
            && RetryTicks(r) == RetryTicks(Append(base, past)) + (if step.ScheduleRetries? then 1 else 0)
  {
  }

  /** Every call of `watch` is one tick over the PENDING jobs and one over the RETRY jobs. */
  lemma EachWatchTicksOnce(base: Run, s: Sys, r: Run)
    requires Watcher.IsWatch(s, r)
    ensures WatchTicks(Append(base, r)) == WatchTicks(base) + 1
    ensures RetryTicks(Append(base, r)) == RetryTicks(base) + 1
  {
    var early := r.past.past;
    AppendOne(base, r.past, r.step);
    AppendOne(base, early, r.past.step);
    AppendOne(base, Start(s), Heartbeat);
    if early != Then(Start(s), Heartbeat) {
      AppendOne(base, early.past, early.step);
      AppendOne(base, Then(Start(s), Heartbeat), early.past.step);
    }
  }

  // ----- overdue RETRY jobs

  function RetryTicks(r: Run): nat {
    match r
    case Start(_) => 0
    case Then(past, step) => RetryTicks(past) + (if step.ScheduleRetries? then 1 else 0)
  }

  lemma NewRetrySortsAfter(clock: int, l: Loc, e: Event, key: int)
    requires Possible(clock, l, e) && key <= clock
    requires Behind(l, RETRY, ByRetryTime, key)
    ensures Behind(Apply(clock, l, e), RETRY, ByRetryTime, key)
  {
    if e.Delivered? && l.row.Some? {
      BackoffRange(l.row.value.retryCount + 1);
    }
  }

  lemma RetryAheadShrinks(s: Sys, step: Step, id: JobId, key: int)
    requires Enabled(s, step) && key <= s.clock
    ensures Ahead(Next(s, step).rows, RETRY, ByRetryTime, id, key) <= Ahead(s.rows, RETRY, ByRetryTime, id, key)
  {
    var after := Next(s, step);
    forall i | i != id && i !in Ahead(s.rows, RETRY, ByRetryTime, id, key)
      ensures i !in Ahead(after.rows, RETRY, ByRetryTime, id, key)
    {
      StepIsEvent(s, step, i);
      assert Behind(Local(s, i), RETRY, ByRetryTime, key);
      NewRetrySortsAfter(s.clock, Local(s, i), EventOf(s, step, i), key);
      assert Behind(Local(after, i), RETRY, ByRetryTime, key);
    }
  }

  lemma RetryAdvances(s: Sys, step: Step, id: JobId)
    requires Enabled(s, step) && id in s.rows && s.rows[id].status == RETRY
    requires s.rows[id].nextRetryTime.Some? && 0 <= s.rows[id].nextRetryTime.value <= s.clock
    requires id in Next(s, step).rows && Next(s, step).rows[id] == s.rows[id]
    ensures var key := s.rows[id].nextRetryTime.value;
            |Ahead(Next(s, step).rows, RETRY, ByRetryTime, id, key)| + (if step.ScheduleRetries? then 200 else 0)
            <= |Ahead(s.rows, RETRY, ByRetryTime, id, key)|
  {
    var key := s.rows[id].nextRetryTime.value;
    if step.ScheduleRetries? {
      PageTakesFromAhead(s.rows, Next(s, step).rows, RetryWindow(s.rows, 0, s.clock + 20000),
                         RETRY, ByRetryTime, step.page, id, key);
    } else {
      RetryAheadShrinks(s, step, id, key);
      SubsetSize(Ahead(Next(s, step).rows, RETRY, ByRetryTime, id, key), Ahead(s.rows, RETRY, ByRetryTime, id, key));
    }
  }

  /** While an overdue RETRY job is left as it is, the jobs ahead of it only get fewer, 200 at each tick of the
      watcher, however other steps interleave: with k others at or before its retry time it sees at most k/200 ticks. */
  lemma {:induction false} RetryIsServed(r: Run, id: JobId, row: Job)
    requires Valid(r) && KeepsRow(r, id, row) && row.status == RETRY
    requires row.nextRetryTime.Some? && 0 <= row.nextRetryTime.value <= First(r).clock
    ensures |Ahead(State(r).rows, RETRY, ByRetryTime, id, row.nextRetryTime.value)| + 200 * RetryTicks(r)
            <= |Ahead(First(r).rows, RETRY, ByRetryTime, id, row.nextRetryTime.value)|
    ensures RetryTicks(r) <= |Ahead(First(r).rows, RETRY, ByRetryTime, id, row.nextRetryTime.value)| / 200
  {
    match r
    case Start(_) =>
    case Then(past, step) =>
      RetryIsServed(past, id, row);
      ClockAdvances(past);
      RetryAdvances(State(past), step, id);
  }

  /** The job is in RETRY at every point of the run. */
  predicate RetryThroughout(r: Run, id: JobId) {
    && Has(Local(State(r), id), RETRY)
    && (r.Then? ==> RetryThroughout(r.past, id))
  }

  /** Without a message of its own a job in RETRY keeps its row until it is picked up. */
  lemma RetryKeepsRow(clock: int, l: Loc, e: Event)
    requires Possible(clock, l, e) && AtMostOneHolder(l) && Has(l, RETRY) && Has(Apply(clock, l, e), RETRY)
    ensures Apply(clock, l, e).row == l.row
  {
  }

  lemma {:induction false} WaitsUnchanged(r: Run, id: JobId, row: Job)
    requires Valid(r) && Single(r, id) && RetryThroughout(r, id)
    requires At(First(r).rows, id) == Some(row) && AtMostOneHolder(Local(First(r), id))
    ensures KeepsRow(r, id, row)
  {
    match r
    case Start(_) =>
    case Then(past, step) =>
      var s := State(past);
      WaitsUnchanged(past, id, row);
      OneHolderRun(past, id);
      StepIsEvent(s, step, id);
      RetryKeepsRow(s.clock, Local(s, id), EventOf(s, step, id));
      assert Local(State(r), id).row == Some(row);
  }

  /** An overdue RETRY job that gets no second message has left RETRY at some point of any run with k/200 + 1 ticks. */
  lemma RetryIsPickedUp(r: Run, id: JobId)
    requires Valid(r) && Single(r, id) && AtMostOneHolder(Local(First(r), id)) && id in First(r).rows
    requires var row := First(r).rows[id];
             && row.status == RETRY && row.nextRetryTime.Some? && 0 <= row.nextRetryTime.value <= First(r).clock
             && |Ahead(First(r).rows, RETRY, ByRetryTime, id, row.nextRetryTime.value)| / 200 < RetryTicks(r)
    ensures !RetryThroughout(r, id)
  {
    var row := First(r).rows[id];
    if RetryThroughout(r, id) {
      WaitsUnchanged(r, id, row);
      RetryIsServed(r, id, row);
      assert false;
    }
  }
}
