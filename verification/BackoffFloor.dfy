/** The documented backoff between the executions of one job, and what recovery does to it. */
module BackoffFloor {
  import opened Jobs
  import opened RateLimiter
  import opened Protocol
  import opened PerJob
  import opened Ownership

  /** Recovery and reconcile re-add a waiting job with its schedule time; requeues and duplicates bypass the queue. */
  const SHORTCUTS := {Recovers, Reconciles} + DUPLICATORS

  /** The event does not cut the job's wait short: it brings no second message, and if it re-adds the job with its
      schedule time, the wait is over. */
  predicate Spares(clock: int, l: Loc, e: Event) {
    && !e.Requeued? && !e.Redelivered?
    && (e.Rescue? && l.row.Some? && l.row.value.nextRetryTime.Some? ==> l.row.value.nextRetryTime.value <= clock)
  }

  /** On this run every recovery and reconcile found the job's wait over, and it got no second message. */
  predicate Patient(r: Run, id: JobId) {
    match r
    case Start(_) => true
    case Then(past, step) =>
      Spares(State(past).clock, Local(State(past), id), EventOf(State(past), step, id)) && Patient(past, id)
  }

  lemma {:induction false} PatientIsSingle(r: Run, id: JobId)
    requires Patient(r, id)
    ensures Single(r, id)
  {
    match r
    case Start(_) =>
    case Then(past, _) => PatientIsSingle(past, id);
  }

  lemma NoRescue(s: Sys, step: Step, id: JobId)
    requires KindOf(step) !in SHORTCUTS
    ensures !EventOf(s, step, id).Rescue?
  {
  }

  /** A run without recovery, reconcile, requeue and duplicates leaves every job its wait. */
  lemma {:induction false} AvoidsIsPatient(r: Run, id: JobId)
    requires Avoids(r, SHORTCUTS)
    ensures Patient(r, id)
  {
    match r
    case Start(_) =>
    case Then(past, step) =>
      AvoidsIsPatient(past, id);
      NoRescue(State(past), step, id);
      OnlyLossLoses(State(past), step, id);
  }

  /** The instants at which the executor of `id` was run. */
  function ExecutionTimes(r: Run, id: JobId): seq<int> {
    match r
    case Start(_) => []
    case Then(past, step) =>
      if Executes(State(past), step, id) then ExecutionTimes(past, id) + [State(past).clock]
      else ExecutionTimes(past, id)
  }

  lemma {:induction false} TimesOfExecutions(r: Run, id: JobId)
    ensures |ExecutionTimes(r, id)| == Executions(r, id)
  {
    match r
    case Start(_) =>
    case Then(past, _) => TimesOfExecutions(past, id);
  }

  /** Attempt k+1 comes no sooner than the k-th backoff after attempt k. */
  ghost predicate Spaced(times: seq<int>) {
    forall k :: 1 <= k < |times| ==> times[k - 1] + Backoff(k) <= times[k]
  }

  /** The earliest next attempt after the attempts so far. */
  function NotBefore(times: seq<int>): int {
    if times == [] then 0 else times[|times| - 1] + Backoff(|times|)
  }

  /** The row, the score and the message of a job respect the attempts made so far. */
  predicate Respects(clock: int, l: Loc, times: seq<int>) {
    if l.row.None? then times == []
    else
      var job := l.row.value;
      match job.status
      case PENDING => times == [] && job.retryCount == 0
      case RETRY => |times| == job.retryCount && job.nextRetryTime.Some? && NotBefore(times) <= job.nextRetryTime.value
      case SCHEDULED =>
        && |times| == job.retryCount
        && (times != [] ==> job.nextRetryTime.Some? && NotBefore(times) <= job.nextRetryTime.value)
        && (l.score.Some? ==> NotBefore(times) <= l.score.value || NotBefore(times) <= clock)
      case QUEUED => |times| == job.retryCount && NotBefore(times) <= clock
      case FAILED => |times| == 6
      case _ => true
  }

  lemma RunSpaced(times: seq<int>, now: int)
    requires Spaced(times) && NotBefore(times) <= now
    ensures Spaced(times + [now]) && NotBefore(times + [now]) == now + Backoff(|times| + 1)
  {
  }

  lemma RespectsStep(clock: int, l: Loc, e: Event, times: seq<int>)
    requires Possible(clock, l, e) && AtMostOneHolder(l) && Sound(clock, l) && Spares(clock, l, e)
    requires Respects(clock, l, times) && Spaced(times)
    ensures var longer := if e.Delivered? && e.gate == Executed then times + [clock] else times;
            Respects(clock, Apply(clock, l, e), longer) && Spaced(longer)
  {
    if e.Delivered? && e.gate == Executed {
      RunSpaced(times, clock);
    }
  }

  lemma StepRespects(s: Sys, step: Step, id: JobId, times: seq<int>)
    requires Enabled(s, step) && AtMostOneHolder(Local(s, id)) && Sound(s.clock, Local(s, id))
    requires Spares(s.clock, Local(s, id), EventOf(s, step, id))
    requires Respects(s.clock, Local(s, id), times) && Spaced(times)
    ensures var longer := if Executes(s, step, id) then times + [s.clock] else times;
            Spaced(longer) && Respects(Next(s, step).clock, Local(Next(s, step), id), longer)
  {
    StepIsEvent(s, step, id);
    RespectsStep(s.clock, Local(s, id), EventOf(s, step, id), times);
    assert s.clock <= Next(s, step).clock;
  }

  lemma {:induction false} RunRespects(r: Run, id: JobId)
    requires Booted(r) && Patient(r, id)
    ensures Spaced(ExecutionTimes(r, id))
    ensures Respects(State(r).clock, Local(State(r), id), ExecutionTimes(r, id))
  {
    match r
    case Start(_) =>
    case Then(past, step) =>
      RunRespects(past, id);
      PatientIsSingle(past, id);
      OneHolderRun(past, id);
      EveryRunIsSound(past, id);
      StepRespects(State(past), step, id, ExecutionTimes(past, id));
  }

  lemma SpacedOut(times: seq<int>)
    requires Spaced(times) && |times| == 6
    ensures times[0] + 50000 <= times[5]
  {
    BackoffTable();
    assert times[0] + Backoff(1) <= times[1];
    assert times[1] + Backoff(2) <= times[2];
    assert times[2] + Backoff(3) <= times[3];
    assert times[3] + Backoff(4) <= times[4];
    assert times[4] + Backoff(5) <= times[5];
  }

  /** Whatever deferrals and early watcher pickups come in between, and whatever happens to other jobs, consecutive
      attempts keep their backoff as long as no recovery or reconcile re-adds this job during its wait;
      a job that FAILED had six attempts, the last at least 50 s after the first. */
  lemma BackoffKept(r: Run, id: JobId)
    requires Booted(r) && Patient(r, id)
    ensures var times := ExecutionTimes(r, id);
            && Spaced(times)
            && (id in State(r).rows && State(r).rows[id].status == FAILED ==>
                  |times| == 6 && times[0] + 50000 <= times[5])
  {
    RunRespects(r, id);
    if Has(Local(State(r), id), FAILED) {
      SpacedOut(ExecutionTimes(r, id));
    }
  }

  // ----- deliveries that were put off

  /** Until `ready` the job cannot reach the topic. */
  predicate PutOff(clock: int, l: Loc, ready: int) {
    ready <= clock ||
    (l.row.Some? &&
     match l.row.value.status
     case RETRY => l.row.value.nextRetryTime.Some? && ready <= l.row.value.nextRetryTime.value
     case SCHEDULED =>
       && l.row.value.nextRetryTime.Some? && ready <= l.row.value.nextRetryTime.value
       && (l.score.Some? ==> ready <= l.score.value)
     case QUEUED => false
     case PENDING => false
     case _ => true)
  }

  lemma PutOffStep(clock: int, l: Loc, e: Event, ready: int)
    requires Possible(clock, l, e) && AtMostOneHolder(l) && PutOff(clock, l, ready) && Spares(clock, l, e)
    ensures PutOff(clock, Apply(clock, l, e), ready)
    ensures e.Delivered? && e.gate == Executed ==> ready <= clock
  {
  }

  lemma {:induction false} StaysPutOff(r: Run, id: JobId, ready: int)
    requires Valid(r) && Patient(r, id)
    requires AtMostOneHolder(Local(First(r), id)) && PutOff(First(r).clock, Local(First(r), id), ready)
    ensures AtMostOneHolder(Local(State(r), id)) && PutOff(State(r).clock, Local(State(r), id), ready)
  {
    match r
    case Start(_) =>
    case Then(past, step) =>
      var s := State(past);
      StaysPutOff(past, id, ready);
      StepIsEvent(s, step, id);
      PutOffStep(s.clock, Local(s, id), EventOf(s, step, id), ready);
      AtMostOneHolderStep(s.clock, Local(s, id), EventOf(s, step, id));
      assert s.clock <= State(r).clock;
  }

  /** How long a delivery at its gate puts the job off. */
  function DelayOf(gate: Gate, attempts: nat): int {
    match gate
    case RateLimited => 2000
    case CircuitOpen => 5000
    case Executed => Backoff(attempts + 1)
    case _ => 0
  }

  lemma PutOffAtFirst(clock: int, l: Loc, e: Event, ready: int)
    requires Possible(clock, l, e) && AtMostOneHolder(l) && e.Delivered? && l.row.Some?
    requires Has(Apply(clock, l, e), RETRY)
    requires ready == clock + DelayOf(e.gate, l.row.value.retryCount)
    ensures PutOff(clock, Apply(clock, l, e), ready)
  {
  }

  /** After a delivery that ended in RETRY the job is not run again for 2 s if the rate limiter put it off, for 5 s
      if the open circuit did, and for the backoff of its attempt if it failed. */
  lemma DeferralIsKept(s: Sys, first: Step, past: Run, step: Step, id: JobId)
    requires Enabled(s, first) && first.Consume? && first.id == id && id in s.rows && AtMostOneHolder(Local(s, id))
    requires Next(s, first).rows[id].status == RETRY
    requires Valid(Then(past, step)) && Patient(past, id) && First(past) == Next(s, first)
    requires Executes(State(past), step, id)
    ensures s.clock + DelayOf(GateOf(s, id, first.evicted), s.rows[id].retryCount) <= State(past).clock
  {
    var ready := s.clock + DelayOf(GateOf(s, id, first.evicted), s.rows[id].retryCount);
    var l := Local(s, id);
    StepIsEvent(s, first, id);
    AtMostOneHolderStep(s.clock, l, EventOf(s, first, id));
    PutOffAtFirst(s.clock, l, EventOf(s, first, id), ready);
    assert First(past).clock == s.clock;
    StaysPutOff(past, id, ready);
    StepIsEvent(State(past), step, id);
  }

  // ----- exactly which rescues keep the backoff

  /** The job is not on its way to the executor before `ready`. */
  predicate OffTopic(s: Sys, id: JobId, ready: int) {
    s.clock < ready ==> !Has(Local(s, id), QUEUED)
  }

  /** No gate of the consumer stands between the job and its executor. */
  predicate Passes(s: Sys, typ: JobType, id: JobId, evicted: bool) {
    !Protocol.Flagged(s, id) && Limit(s, typ, evicted).admitted && !Rejecting(s.breakers, typ, s.clock)
  }

  /** The next dispatch sends a rescued job at once. */
  lemma RescueThenDispatch(s: Sys, step: Step, id: JobId)
    requires Enabled(s, step) && EventOf(s, step, id).Rescue? && 0 <= s.rows[id].scheduleTime
    ensures var sent := Next(Next(s, step), Dispatch);
            && Local(sent, id) ==
               SetStatus(Local(s, id), QUEUED).(score := None, msgs := s.pending[id] + 1, sent := true)
            && sent.clock == s.clock && sent.windows == s.windows && sent.breakers == s.breakers
            && sent.flags == s.flags && id in s.rows
  {
    StepIsEvent(s, step, id);
    var next := Next(s, step);
    assert id in Ready(next.zset, next.clock) by {
      assert Local(next, id).score == Some(s.rows[id].scheduleTime);
    }
    StepIsEvent(next, Dispatch, id);
  }

  /** Every continuation keeps a rescued job off the topic until its retry time if and only if the rescue came no
      sooner than that; otherwise the next dispatch sends it too early. */
  lemma RescueKeepsWaitIff(s: Sys, step: Step, id: JobId)
    requires Enabled(s, step) && EventOf(s, step, id).Rescue? && 0 <= s.rows[id].scheduleTime
    requires s.rows[id].nextRetryTime.Some?
    ensures var ready := s.rows[id].nextRetryTime.value;
            (forall r: Run :: Valid(r) && First(r) == Next(s, step) && Patient(r, id) ==> OffTopic(State(r), id, ready))
            <==> ready <= s.clock
  {
    var ready := s.rows[id].nextRetryTime.value;
    var next := Next(s, step);
    forall r: Run | Valid(r) && First(r) == next
      ensures s.clock <= State(r).clock
    {
      ClockAdvances(r);
    }
    if s.clock < ready {
      var start := Start(next);
      assert Valid(start) && State(start) == next && Patient(start, id);
      Extend(start, Dispatch);
      var r := Then(start, Dispatch);
      RescueThenDispatch(s, step, id);
      assert Patient(r, id) && !OffTopic(State(r), id, ready);
    }
  }

  /** A job fails, and is rescued while no gate is in its way. Dispatched and run at once, its attempts keep their
      backoff if and only if its retry time had come when recovery or reconcile re-added it. */
  lemma RescueKeepsBackoffIff(past: Run, step: Step, id: JobId, evicted: bool, ok: bool)
    requires Valid(past) && Enabled(State(past), step) && EventOf(State(past), step, id).Rescue?
    requires var job := State(past).rows[id];
             && 0 <= job.scheduleTime && Passes(State(past), job.typ, id, evicted)
             && (evicted ==> Evictable(WindowOf(State(past), job.typ), State(past).clock))
             && ExecutionTimes(past, id) != [] && Spaced(ExecutionTimes(past, id))
             && job.nextRetryTime == Some(NotBefore(ExecutionTimes(past, id)))
    ensures var r := Then(Then(Then(past, step), Dispatch), Consume(id, evicted, ok));
            && Valid(r)
            && (Spaced(ExecutionTimes(r, id)) <==> State(past).rows[id].nextRetryTime.value <= State(past).clock)
  {
    var s, times := State(past), ExecutionTimes(past, id);
    RescueThenDispatch(s, step, id);
    var rescued := Then(past, step);
    Extend(past, step);
    assert ExecutionTimes(rescued, id) == times;
    var sent := Then(rescued, Dispatch);
    Extend(rescued, Dispatch);
    assert ExecutionTimes(sent, id) == times;
    assert Local(State(sent), id).row == Some(s.rows[id].(status := QUEUED));
    assert GateOf(State(sent), id, evicted) == Executed;
    var r := Then(sent, Consume(id, evicted, ok));
    Extend(sent, Consume(id, evicted, ok));
    assert ExecutionTimes(r, id) == times + [s.clock];
    SpacedExtends(times, s.clock);
  }

  lemma SpacedExtends(times: seq<int>, now: int)
    requires times != [] && Spaced(times)
    ensures Spaced(times + [now]) <==> NotBefore(times) <= now
  {
    var longer := times + [now];
    if Spaced(longer) {
      assert longer[|times| - 1] + Backoff(|times|) <= longer[|times|];
    }
  }

  // ----- a run on which reconcile defeats the backoff

  /** The system holds one API job, which has been attempted at `t` only. */
  ghost predicate IsAt(s: Sys, t: int, row: Job, zset: Scores, pending: multiset<JobId>) {
    && s.clock == t && s.flags == map[] && s.pending == pending
    && s.rows == map[1 := row] && s.zset == zset
    && s.windows == map["API" := Window({t}, t + 1000)]
    && !s.breakers.Open("API")
  }

  /** Two attempts in the same millisecond, on a run whose only shortcut is one reconcile: a job fails at `t`,
      the watcher picks it up early, reconcile gives it a score that is already due. */
  lemma ReconcileDefeatsBackoff(t: int) returns (r: Run)
    requires 0 <= t
    ensures Booted(r) && Avoids(r, SHORTCUTS - {Reconciles})
    ensures ExecutionTimes(r, 1) == [t, t] && !Spaced(ExecutionTimes(r, 1))
  {
    r := CreatedJob(t);
    r := FirstAttempt(r, t);
    r := PickedEarly(r, t);
    r := ReconciledAtOnce(r, t);
    r := SecondAttempt(r, t);
    BackoffTable();
    var times := ExecutionTimes(r, 1);
    assert times[1 - 1] + Backoff(1) > times[1];
  }

  lemma CreatedJob(t: int) returns (r: Run)
    requires 0 <= t
    ensures Booted(r) && Avoids(r, SHORTCUTS) && ExecutionTimes(r, 1) == []
    ensures State(r) == Boot(t).(rows := map[1 := Job("API", QUEUED, 0, t, None)], pending := multiset{1}, sent := {1})
  {
    var start := Start(Boot(t));
    assert State(start) == First(start) == Boot(t) && ExecutionTimes(start, 1) == [];
    r := Then(start, Create(1, "API", None));
    assert First(r) == Boot(t) && Valid(start) && Avoids(start, SHORTCUTS);
  }

  lemma FirstAttempt(past: Run, t: int) returns (r: Run)
    requires 0 <= t && Booted(past) && Avoids(past, SHORTCUTS) && ExecutionTimes(past, 1) == []
    requires State(past) ==
             Boot(t).(rows := map[1 := Job("API", QUEUED, 0, t, None)], pending := multiset{1}, sent := {1})
    ensures Booted(r) && Avoids(r, SHORTCUTS) && ExecutionTimes(r, 1) == [t]
    ensures IsAt(State(r), t, Job("API", RETRY, 1, t, Some(t + 2000)), map[], multiset{})
  {
    BackoffTable();
    assert Trim({}, t) == {};
    assert GateOf(State(past), 1, false) == Executed;
    r := Then(past, Consume(1, false, false));
  }

  lemma PickedEarly(past: Run, t: int) returns (r: Run)
    requires 0 <= t && Booted(past) && Avoids(past, SHORTCUTS) && ExecutionTimes(past, 1) == [t]
    requires IsAt(State(past), t, Job("API", RETRY, 1, t, Some(t + 2000)), map[], multiset{})
    ensures Booted(r) && Avoids(r, SHORTCUTS) && ExecutionTimes(r, 1) == [t]
    ensures IsAt(State(r), t, Job("API", SCHEDULED, 1, t, Some(t + 2000)), map[1 := t + 2000], multiset{})
  {
    assert RetryWindow(State(past).rows, 0, t + 20000) == {1};
    r := Then(past, ScheduleRetries({1}));
  }

  lemma ReconciledState(s: Sys, t: int)
    requires IsAt(s, t, Job("API", SCHEDULED, 1, t, Some(t + 2000)), map[1 := t + 2000], multiset{})
    ensures Enabled(s, ReconcileOverdue({1}))
    ensures IsAt(Next(s, ReconcileOverdue({1})), t, Job("API", SCHEDULED, 1, t, Some(t + 2000)), map[1 := t],
                 multiset{})
  {
    assert OverdueScheduled(s.rows, t) == {1};
  }

  lemma ReconciledAtOnce(past: Run, t: int) returns (r: Run)
    requires 0 <= t && Booted(past) && Avoids(past, SHORTCUTS) && ExecutionTimes(past, 1) == [t]
    requires IsAt(State(past), t, Job("API", SCHEDULED, 1, t, Some(t + 2000)), map[1 := t + 2000], multiset{})
    ensures Booted(r) && Avoids(r, SHORTCUTS - {Reconciles}) && ExecutionTimes(r, 1) == [t]
    ensures IsAt(State(r), t, Job("API", SCHEDULED, 1, t, Some(t + 2000)), map[1 := t], multiset{})
  {
    AvoidsFewer(past, SHORTCUTS - {Reconciles}, SHORTCUTS);
    ReconciledState(State(past), t);
    r := Then(past, ReconcileOverdue({1}));
    Extend(past, r.step);
  }

  lemma SecondAttempt(past: Run, t: int) returns (r: Run)
    requires 0 <= t && Booted(past) && Avoids(past, SHORTCUTS - {Reconciles})
    requires IsAt(State(past), t, Job("API", SCHEDULED, 1, t, Some(t + 2000)), map[1 := t], multiset{})
    requires ExecutionTimes(past, 1) == [t]
    ensures Booted(r) && Avoids(r, SHORTCUTS - {Reconciles}) && ExecutionTimes(r, 1) == [t, t]
  {
    var sent := Then(past, Dispatch);
    SentAgain(State(past), t);
    assert Valid(sent) && First(sent) == First(past) && Avoids(sent, SHORTCUTS - {Reconciles});
    assert State(sent) == Next(State(past), Dispatch);
    assert ExecutionTimes(sent, 1) == [t];
    r := Then(sent, Consume(1, false, false));
    assert Executes(State(sent), Consume(1, false, false), 1);
  }

  lemma SentAgain(s: Sys, t: int)
    requires 0 <= t
    requires IsAt(s, t, Job("API", SCHEDULED, 1, t, Some(t + 2000)), map[1 := t], multiset{})
    ensures var sent := Next(s, Dispatch);
            sent.clock == t && 1 in sent.pending && GateOf(sent, 1, false) == Executed
  {
    assert Ready(s.zset, t) == {1} && Dispatched(s.rows, {1}) == {1};
    var sent := Next(s, Dispatch);
    assert sent.rows[1] == Job("API", QUEUED, 1, t, Some(t + 2000));
    assert Trim({t}, t) == {t};
  }

  // ----- a run on which a requeue defeats the backoff

  lemma RequeuedAt(s: Sys, t: int)
    requires IsAt(s, t, Job("API", RETRY, 1, t, Some(t + 2000)), map[], multiset{})
    ensures var sent := Next(s, Requeue(1));
            sent.clock == t && 1 in sent.pending && GateOf(sent, 1, false) == Executed
  {
    var sent := Next(s, Requeue(1));
    assert sent.rows[1] == Job("API", QUEUED, 1, t, Some(t + 2000));
    assert Trim({t}, t) == {t};
  }

  /** A job fails at `t`, an admin requeues it, and it is attempted again in the same millisecond. */
  lemma RequeueDefeatsBackoff(t: int) returns (r: Run)
    requires 0 <= t
    ensures Booted(r) && Avoids(r, SHORTCUTS - {Requeues})
    ensures ExecutionTimes(r, 1) == [t, t] && !Spaced(ExecutionTimes(r, 1))
  {
    var past := CreatedJob(t);
    past := FirstAttempt(past, t);
    AvoidsFewer(past, SHORTCUTS - {Requeues}, SHORTCUTS);
    RequeuedAt(State(past), t);
    var sent := Then(past, Requeue(1));
    Extend(past, sent.step);
    assert ExecutionTimes(sent, 1) == [t];
    r := Then(sent, Consume(1, false, false));
    Extend(sent, r.step);
    assert ExecutionTimes(r, 1) == [t, t];
    BackoffTable();
    assert [t, t][1 - 1] + Backoff(1) > [t, t][1];
  }
}
