/** No job runs before its time: deferred jobs never, immediate ones by at most a minute. */
module NeverEarly {
  import opened Jobs
  import opened Protocol
  import opened PerJob
  import opened Ownership

  predicate NeverRequeued(r: Run, id: JobId) {
    match r
    case Start(_) => true
    case Then(past, step) => step != Requeue(id) && NeverRequeued(past, id)
  }

  /** The job was created with more than a minute to go. */
  predicate CreatedDeferred(r: Run, id: JobId) {
    match r
    case Start(_) => false
    case Then(past, step) =>
      if step.Create? && step.id == id then !Immediate(State(past).clock, step.time) else CreatedDeferred(past, id)
  }

  /** The job still waits for its time: no message was ever sent and its score is its schedule time. */
  predicate Waiting(l: Loc) {
    && (Has(l, PENDING) || Has(l, SCHEDULED))
    && l.msgs == 0 && !l.sent
    && (l.score.Some? ==> l.row.value.scheduleTime <= l.score.value)
  }

  lemma WaitingStep(clock: int, l: Loc, e: Event)
    requires Possible(clock, l, e) && Waiting(l) && !e.Requeued?
    ensures var after := Apply(clock, l, e);
            after.row.Some? && after.row.value.scheduleTime == l.row.value.scheduleTime
            && (Waiting(after) || l.row.value.scheduleTime <= clock)
  {
  }

  lemma KeepsScheduleTime(clock: int, l: Loc, e: Event)
    requires Possible(clock, l, e) && l.row.Some?
    ensures Apply(clock, l, e).row.Some?
    ensures Apply(clock, l, e).row.value.scheduleTime == l.row.value.scheduleTime
  {
  }

  /** A deferred job waits until its time has come; the time of any other is at most a minute away. */
  predicate Timed(clock: int, l: Loc, deferred: bool) {
    l.row.Some? ==>
      if deferred then Waiting(l) || l.row.value.scheduleTime <= clock
      else l.row.value.scheduleTime <= clock + 60000
  }

  lemma TimedStep(s: Sys, step: Step, id: JobId, deferred: bool)
    requires Enabled(s, step) && step != Requeue(id)
    requires Sound(s.clock, Local(s, id)) && Timed(s.clock, Local(s, id), deferred)
    ensures Timed(Next(s, step).clock, Local(Next(s, step), id),
                  if step.Create? && step.id == id then !Immediate(s.clock, step.time) else deferred)
  {
    var l := Local(s, id);
    StepIsEvent(s, step, id);
    if l.row.Some? {
      KeepsScheduleTime(s.clock, l, EventOf(s, step, id));
      if Waiting(l) {
        WaitingStep(s.clock, l, EventOf(s, step, id));
      }
    }
    assert s.clock <= Next(s, step).clock;
  }

  lemma {:induction false} EveryRunIsTimely(r: Run, id: JobId)
    requires Booted(r) && NeverRequeued(r, id)
    ensures Timed(State(r).clock, Local(State(r), id), CreatedDeferred(r, id))
  {
    match r
    case Start(_) =>
    case Then(past, step) =>
      EveryRunIsTimely(past, id);
      EveryRunIsSound(past, id);
      TimedStep(State(past), step, id, CreatedDeferred(past, id));
  }

  /** Whenever the executor of a job runs: if the job was created as deferred, its schedule time has come; and in
      every case it is at most 60 s away. Retries, recovery, reconcile, duplicates and Redis losses are all allowed. */
  lemma NeverRunsEarly(past: Run, step: Step, id: JobId)
    requires Booted(Then(past, step)) && NeverRequeued(past, id)
    requires Executes(State(past), step, id)
    ensures var due := State(past).rows[id].scheduleTime;
            && (CreatedDeferred(past, id) ==> due <= State(past).clock)
            && due <= State(past).clock + 60000
  {
    EveryRunIsTimely(past, id);
    EveryRunIsSound(past, id);
  }
}
