/** How often a job can run and how often its status can change, by potentials over whole runs. */
module ExecutionBound {
  import opened Jobs
  import opened Protocol
  import opened PerJob
  import opened Ownership

  // ----- executions, on every run

  /** Admin requeues that took effect, and redelivered messages, of one job. */
  function ExtraMessages(r: Run, id: JobId): nat {
    match r
    case Start(_) => 0
    case Then(past, step) =>
      var e := EventOf(State(past), step, id);
      ExtraMessages(past, id) + (if e.Requeued? || e.Redelivered? then 1 else 0)
  }

  /** Executions still to come: retries left, plus messages in flight, plus one for a job on its way to the topic. */
  function Potential(l: Loc): int {
    if l.row.None? then 6 + l.msgs
    else
      5 - l.row.value.retryCount + l.msgs
      + (if l.row.value.status in {PENDING, SCHEDULED, RETRY} then 1 else 0)
  }

  lemma PotentialStep(clock: int, l: Loc, e: Event)
    requires Possible(clock, l, e)
    ensures Potential(Apply(clock, l, e))
            <= Potential(l) + (if e.Requeued? || e.Redelivered? then 1 else 0)
               - (if e.Delivered? && e.gate == Executed then 1 else 0)
  {
  }

  lemma {:induction false} Amortised(r: Run, id: JobId)
    requires Booted(r)
    ensures Executions(r, id) + Potential(Local(State(r), id)) <= 6 + ExtraMessages(r, id)
  {
    match r
    case Start(_) =>
    case Then(past, step) =>
      Amortised(past, id);
      StepIsEvent(State(past), step, id);
      PotentialStep(State(past).clock, Local(State(past), id), EventOf(State(past), step, id));
  }

  /** On every run a job's executor is invoked at most six times, plus once for each effective requeue
      and each redelivered message of that job. */
  lemma ExecutionsBounded(r: Run, id: JobId)
    requires Booted(r)
    ensures Executions(r, id) <= 6 + ExtraMessages(r, id)
  {
    Amortised(r, id);
    EveryRunIsSound(r, id);
  }

  // ----- status changes, with each message of the job delivered once

  function StatusChanges(r: Run, id: JobId): nat {
    match r
    case Start(_) => 0
    case Then(past, step) =>
      StatusChanges(past, id) + (if Changed(Local(State(past), id), Local(State(r), id)) then 1 else 0)
  }

  /** A change of an existing row's status. */
  predicate Changed(before: Loc, after: Loc) {
    before.row.Some? && after.row.Some? && before.row.value.status != after.row.value.status
  }

  /** Deliveries that the rate limiter or the open circuit put off. */
  function Deferrals(r: Run, id: JobId): nat {
    match r
    case Start(_) => 0
    case Then(past, step) => Deferrals(past, id) + (if Defers(EventOf(State(past), step, id)) then 1 else 0)
  }

  predicate Defers(e: Event) {
    e.Delivered? && e.gate in {RateLimited, CircuitOpen}
  }

  function Stage(status: Status): nat {
    match status
    case PENDING => 3
    case RETRY => 3
    case SCHEDULED => 2
    case QUEUED => 1
    case _ => 0
  }

  function Measure(l: Loc): int {
    if l.row.None? then 18 else 3 * (5 - l.row.value.retryCount) + Stage(l.row.value.status)
  }

  lemma MeasureStep(clock: int, l: Loc, e: Event)
    requires Possible(clock, l, e) && AtMostOneHolder(l) && !e.Requeued? && !e.Redelivered?
    requires Sound(clock, l)
    ensures var after := Apply(clock, l, e);
            Measure(after) + (if Changed(l, after) then 1 else 0) <= Measure(l) + (if Defers(e) then 3 else 0)
  {
  }

  /** Every change of status uses up the measure; only a deferral gives three units back. */
  lemma {:induction false} Descent(r: Run, id: JobId)
    requires Booted(r) && Single(r, id)
    ensures StatusChanges(r, id) + Measure(Local(State(r), id)) <= 18 + 3 * Deferrals(r, id)
  {
    match r
    case Start(_) =>
    case Then(past, step) =>
      Descent(past, id);
      OneHolderRun(past, id);
      EveryRunIsSound(past, id);
      StepIsEvent(State(past), step, id);
      MeasureStep(State(past).clock, Local(State(past), id), EventOf(State(past), step, id));
  }

  /** A job comes to rest: with D deferrals its status changes at most 18 + 3D times. */
  lemma StatusChangesBounded(r: Run, id: JobId)
    requires Booted(r) && Single(r, id)
    ensures StatusChanges(r, id) <= 18 + 3 * Deferrals(r, id)
  {
    Descent(r, id);
    EveryRunIsSound(r, id);
  }
}
