/** Who holds a job: the database alone, the delay queue, or the topic; and that nothing gets lost or done twice. */
module Ownership {
  import opened Jobs
  import opened Protocol
  import opened PerJob

  // ----- what holds on every run, whatever steps it takes

  /** A job no one created has left no trace; a job's counters and times are in range. */
  predicate Sound(clock: int, l: Loc) {
    && 0 <= clock
    && (l.row.None? ==> l.score.None? && l.msgs == 0 && !l.sent)
    && (0 < l.msgs ==> l.sent)
    && (l.score.Some? ==> 0 <= l.score.value <= clock + 20000)
    && (l.row.Some? ==>
          var job := l.row.value;
          && job.retryCount <= 5
          && job.status != PROCESSING
          && 0 <= job.scheduleTime
          && (job.status == RETRY ==>
                job.nextRetryTime.Some? && 0 <= job.nextRetryTime.value <= clock + 20000))
  }

  ghost predicate AllSound(s: Sys) { forall id :: Sound(s.clock, Local(s, id)) }

  lemma SoundStep(clock: int, l: Loc, e: Event)
    requires Sound(clock, l) && Possible(clock, l, e)
    ensures Sound(clock, Apply(clock, l, e))
  {
    if e.Delivered? && l.row.Some? && l.row.value.retryCount < 5 {
      BackoffRange(l.row.value.retryCount + 1);
    }
  }

  /** On every run: delay-queue scores lie between the epoch and 20 s from now, retries are bounded by 5,
      and between two steps no job is left PROCESSING. */
  lemma {:induction false} EveryRunIsSound(r: Run, id: JobId)
    requires Booted(r)
    ensures Sound(State(r).clock, Local(State(r), id))
  {
    match r
    case Start(_) =>
    case Then(past, step) =>
      EveryRunIsSound(past, id);
      StepIsEvent(State(past), step, id);
      SoundStep(State(past).clock, Local(State(past), id), EventOf(State(past), step, id));
  }

  /** A QUEUED job has a message on its way, a SCHEDULED job sits in the delay queue. */
  predicate Held(l: Loc) {
    && (Has(l, QUEUED) ==> 0 < l.msgs)
    && (Has(l, SCHEDULED) ==> l.score.Some?)
  }

  /** Nothing is lost even with duplicates: requeues and redelivered messages cannot strand a job. */
  lemma {:induction false} NothingIsLost(r: Run, id: JobId)
    requires Valid(r) && Avoids(r, {LosesRedis})
    requires Held(Local(First(r), id))
    ensures Held(Local(State(r), id))
  {
    match r
    case Start(_) =>
    case Then(past, step) =>
      NothingIsLost(past, id);
      StepIsEvent(State(past), step, id);
      OnlyLossLoses(State(past), step, id);
      HeldStep(State(past).clock, Local(State(past), id), EventOf(State(past), step, id));
  }

  lemma OnlyLossLoses(s: Sys, step: Step, id: JobId)
    ensures EventOf(s, step, id).Lost? <==> KindOf(step) == LosesRedis
    ensures EventOf(s, step, id).Requeued? ==> KindOf(step) == Requeues
    ensures EventOf(s, step, id).Redelivered? ==> KindOf(step) == Redelivers
  {
  }

  lemma HeldStep(clock: int, l: Loc, e: Event)
    requires Held(l) && Possible(clock, l, e) && !e.Lost?
    ensures Held(Apply(clock, l, e))
  {
  }

  // ----- runs that deliver each message of a job once and do not requeue it

  const DUPLICATORS := {Requeues, Redelivers}

  /** The step gives the job no second message: it neither requeues it nor redelivers a message of it. */
  predicate Once(s: Sys, step: Step, id: JobId) {
    var e := EventOf(s, step, id);
    !e.Requeued? && !e.Redelivered?
  }

  predicate Single(r: Run, id: JobId) {
    match r
    case Start(_) => true
    case Then(past, step) => Once(State(past), step, id) && Single(past, id)
  }

  lemma {:induction false} AvoidsIsSingle(r: Run, id: JobId)
    requires Avoids(r, DUPLICATORS)
    ensures Single(r, id)
  {
    match r
    case Start(_) =>
    case Then(past, step) =>
      AvoidsIsSingle(past, id);
      OnlyLossLoses(State(past), step, id);
  }

  /** The job has at most one holder. A loss of Redis may leave a SCHEDULED job without any. */
  predicate AtMostOneHolder(l: Loc) {
    && (l.score.Some? ==> Has(l, SCHEDULED))
    && l.msgs == (if Has(l, QUEUED) then 1 else 0)
  }

  lemma AtMostOneHolderStep(clock: int, l: Loc, e: Event)
    requires AtMostOneHolder(l) && Possible(clock, l, e)
    requires !e.Requeued? && !e.Redelivered?
    ensures AtMostOneHolder(Apply(clock, l, e))
  {
  }

  lemma {:induction false} OneHolderRun(r: Run, id: JobId)
    requires Valid(r) && Single(r, id)
    requires AtMostOneHolder(Local(First(r), id))
    ensures AtMostOneHolder(Local(State(r), id))
  {
    match r
    case Start(_) =>
    case Then(past, step) =>
      OneHolderRun(past, id);
      StepIsEvent(State(past), step, id);
      AtMostOneHolderStep(State(past).clock, Local(State(past), id), EventOf(State(past), step, id));
  }

  /** Single ownership, over the whole system: the delay queue holds exactly the SCHEDULED jobs, the topic
      exactly one message for each QUEUED job, and PENDING, RETRY and finished jobs are in neither. */
  ghost predicate SingleOwner(s: Sys) {
    && (forall id :: id in s.zset <==> id in s.rows && s.rows[id].status == SCHEDULED)
    && (forall id :: s.pending[id] == if id in s.rows && s.rows[id].status == QUEUED then 1 else 0)
  }

  lemma SingleOwnership(r: Run)
    requires Booted(r) && Avoids(r, DUPLICATORS + {LosesRedis})
    ensures SingleOwner(State(r))
  {
    AvoidsFewer(r, DUPLICATORS, DUPLICATORS + {LosesRedis});
    AvoidsFewer(r, {LosesRedis}, DUPLICATORS + {LosesRedis});
    var s := State(r);
    forall id
      ensures id in s.zset <==> id in s.rows && s.rows[id].status == SCHEDULED
      ensures s.pending[id] == if id in s.rows && s.rows[id].status == QUEUED then 1 else 0
    {
      AvoidsIsSingle(r, id);
      OneHolderRun(r, id);
      NothingIsLost(r, id);
      assert AtMostOneHolder(Local(s, id)) && Held(Local(s, id));
    }
  }

  lemma {:induction false} AvoidsFewer(r: Run, few: set<Kind>, many: set<Kind>)
    requires few <= many && Avoids(r, many)
    ensures Avoids(r, few)
  {
    match r
    case Start(_) =>
    case Then(past, _) => AvoidsFewer(past, few, many);
  }

  /** Once finished a job stays finished, row and all, on every run that gives it no second message. */
  lemma {:induction false} TerminalIsAbsorbing(r: Run, id: JobId)
    requires Valid(r) && Single(r, id)
    requires AtMostOneHolder(Local(First(r), id))
    requires id in First(r).rows && Terminal(First(r).rows[id].status)
    ensures id in State(r).rows && State(r).rows[id] == First(r).rows[id]
  {
    match r
    case Start(_) =>
    case Then(past, step) =>
      TerminalIsAbsorbing(past, id);
      OneHolderRun(past, id);
      StepIsEvent(State(past), step, id);
      assert Local(State(past), id).row == Some(First(r).rows[id]);
      assert Local(State(r), id).row == Some(First(r).rows[id]);
  }

  /** How often the executor of `id` was run, and how often it returned normally. */
  function Executions(r: Run, id: JobId): nat {
    match r
    case Start(_) => 0
    case Then(past, step) => Executions(past, id) + (if Executes(State(past), step, id) then 1 else 0)
  }

  function Successes(r: Run, id: JobId): nat {
    match r
    case Start(_) => 0
    case Then(past, step) => Successes(past, id) + (if Executes(State(past), step, id) && step.ok then 1 else 0)
  }

  predicate Executes(s: Sys, step: Step, id: JobId) {
    step.Consume? && step.id == id && GateOf(s, id, step.evicted) == Executed
  }

  lemma SuccessStep(clock: int, l: Loc, e: Event)
    requires Possible(clock, l, e) && AtMostOneHolder(l)
    ensures e.Delivered? && e.gate == Executed && e.ok ==> !Has(l, COMPLETED)
    ensures (!e.Requeued? && !e.Redelivered? && Has(l, COMPLETED)) || (e.Delivered? && e.gate == Executed && e.ok)
            <==> !e.Requeued? && !e.Redelivered? && Has(Apply(clock, l, e), COMPLETED)
  {
  }

  lemma SuccessOnStep(s: Sys, step: Step, id: JobId)
    requires Enabled(s, step) && Once(s, step, id) && AtMostOneHolder(Local(s, id))
    ensures (if Has(Local(s, id), COMPLETED) then 1 else 0) + (if Executes(s, step, id) && step.ok then 1 else 0)
            == if Has(Local(Next(s, step), id), COMPLETED) then 1 else 0
  {
    StepIsEvent(s, step, id);
    SuccessStep(s.clock, Local(s, id), EventOf(s, step, id));
  }

  /** At most one success, and exactly the COMPLETED jobs had it. */
  lemma {:induction false} AtMostOneSuccess(r: Run, id: JobId)
    requires Booted(r) && Single(r, id)
    ensures Successes(r, id) == if Has(Local(State(r), id), COMPLETED) then 1 else 0
  {
    match r
    case Start(_) =>
    case Then(past, step) =>
      AtMostOneSuccess(past, id);
      OneHolderRun(past, id);
      SuccessOnStep(State(past), step, id);
  }

  /** With a second message in flight the gates, which are tried before the status, can revive a finished job.
      A duplicate leaves it finished exactly when no gate stops the message. */
  lemma DuplicateKeepsTerminalIff(s: Sys, id: JobId, evicted: bool, ok: bool)
    requires id in s.rows && Terminal(s.rows[id].status)
    ensures Next(s, Consume(id, evicted, ok)).rows[id] == s.rows[id] <==>
            if Protocol.Flagged(s, id) then s.rows[id].status == CANCELLED
            else Limit(s, s.rows[id].typ, evicted).admitted && !Rejecting(s.breakers, s.rows[id].typ, s.clock)
  {
    var job := s.rows[id];
    assert AfterDelivery(job, Cancelled, ok, s.clock).status == CANCELLED;
    assert AfterDelivery(job, RateLimited, ok, s.clock).status == RETRY;
    assert AfterDelivery(job, CircuitOpen, ok, s.clock).status == RETRY;
  }
}
