/** What brings SCHEDULED jobs back after Redis lost the delay queue, and what does not. */
module RedisRecovery {
  import opened FiniteSets
  import opened Jobs
  import opened WallClock
  import opened Protocol
  import opened PerJob
  import opened Ownership

  function Stranded(s: Sys): set<JobId> { OverdueScheduled(s.rows, s.clock) }

  // ----- reconcile and dispatch drain the backlog, 500 jobs a round

  function Round(past: Run, overdue: set<JobId>, retries: set<JobId>): Run {
    Then(Then(Then(past, ReconcileOverdue(overdue)), ReconcileRetries(retries)), Dispatch)
  }

  /** `r` consists of `n` rounds, with nothing in between. */
  predicate Rounds(r: Run, n: nat) {
    if n == 0 then r.Start?
    else
      && r.Then? && r.past.Then? && r.past.past.Then?
      && r.past.past.step.ReconcileOverdue? && r.past.step.ReconcileRetries?
      && r == Round(r.past.past.past, r.past.past.step.page, r.past.step.page)
      && Rounds(r.past.past.past, n - 1)
  }

  ghost predicate RoundEnabled(s: Sys, overdue: set<JobId>, retries: set<JobId>) {
    && Enabled(s, ReconcileOverdue(overdue))
    && Enabled(Next(s, ReconcileOverdue(overdue)), ReconcileRetries(retries))
  }

  function AfterRound(s: Sys, overdue: set<JobId>, retries: set<JobId>): Sys {
    Next(Next(Next(s, ReconcileOverdue(overdue)), ReconcileRetries(retries)), Dispatch)
  }

  lemma ReAddedOnJob(s: Sys, overdue: set<JobId>, retries: set<JobId>, id: JobId)
    requires Local(s, id).score.None? && Sound(s.clock, Local(s, id))
    requires RoundEnabled(s, overdue, retries)
    ensures var b := Next(Next(s, ReconcileOverdue(overdue)), ReconcileRetries(retries));
            && b.clock == s.clock
            && if id in overdue || id in retries
               then exists due :: 0 <= due <= s.clock &&
                      Local(b, id) == SetStatus(Local(s, id), SCHEDULED).(score := Some(due))
               else Local(b, id) == Local(s, id)
    ensures id in overdue ==> id in Stranded(s)
    ensures id in retries ==> id in s.rows && s.rows[id].status == RETRY
  {
    var a := Next(s, ReconcileOverdue(overdue));
    StepIsEvent(s, ReconcileOverdue(overdue), id);
    StepIsEvent(a, ReconcileRetries(retries), id);
  }

  /** One round sends exactly the jobs of its two pages, once each, and leaves the delay queue empty. */
  lemma RoundOnJob(s: Sys, overdue: set<JobId>, retries: set<JobId>, id: JobId)
    requires Local(s, id).score.None? && Sound(s.clock, Local(s, id))
    requires RoundEnabled(s, overdue, retries)
    ensures var after := AfterRound(s, overdue, retries);
            Local(after, id) ==
            if id in overdue || id in retries
            then SetStatus(Local(s, id), QUEUED).(msgs := s.pending[id] + 1, sent := true) else Local(s, id)
    ensures id in overdue ==> id in Stranded(s)
    ensures id in retries ==> id in s.rows && s.rows[id].status == RETRY
    ensures AfterRound(s, overdue, retries).clock == s.clock
  {
    var b := Next(Next(s, ReconcileOverdue(overdue)), ReconcileRetries(retries));
    ReAddedOnJob(s, overdue, retries, id);
    StepIsEvent(b, Dispatch, id);
    var l := Local(b, id);
    assert id in Ready(b.zset, b.clock) <==> l.score.Some? && 0 <= l.score.value <= s.clock;
  }

  lemma RoundDrains(s: Sys, overdue: set<JobId>, retries: set<JobId>, after: Sys)
    requires s.zset == map[] && AllSound(s)
    requires RoundEnabled(s, overdue, retries) && after == AfterRound(s, overdue, retries)
    ensures after.zset == map[] && after.clock == s.clock && AllSound(after)
    ensures Stranded(after) == Stranded(s) - overdue
  {
    forall id
      ensures DrainedOn(s, after, overdue, id)
    {
      assert Sound(s.clock, Local(s, id));
      RoundOnBacklog(s, overdue, retries, id);
    }
    DrainedOnAll(s, after, overdue);
  }

  predicate DrainedOn(s: Sys, after: Sys, overdue: set<JobId>, id: JobId) {
    && Local(after, id).score.None? && Sound(s.clock, Local(after, id))
    && (id in Stranded(after) <==> id in Stranded(s) && id !in overdue)
    && after.clock == s.clock
  }

  lemma DrainedOnAll(s: Sys, after: Sys, overdue: set<JobId>)
    requires forall id :: DrainedOn(s, after, overdue, id)
    ensures after.zset == map[] && after.clock == s.clock && AllSound(after)
    ensures Stranded(after) == Stranded(s) - overdue
  {
    assert DrainedOn(s, after, overdue, 0);
    forall id
      ensures Sound(after.clock, Local(after, id))
    {
      assert DrainedOn(s, after, overdue, id);
    }
    forall id
      ensures id in Stranded(after) <==> id in Stranded(s) - overdue
    {
      assert DrainedOn(s, after, overdue, id);
    }
    forall id
      ensures id !in after.zset.Keys
    {
      assert DrainedOn(s, after, overdue, id);
    }
    assert after.zset.Keys == {};
  }

  lemma PageCount(s: Sys, overdue: set<JobId>)
    requires Enabled(s, ReconcileOverdue(overdue))
    ensures |Stranded(s) - overdue| ==
            if |Stranded(s)| <= 500 then 0 else |Stranded(s)| - 500
  {
    assert overdue <= Stranded(s);
    assert |Stranded(s) - overdue| == |Stranded(s)| - |overdue|;
    SubsetSize(overdue, Stranded(s));
  }

  lemma RoundOnBacklog(s: Sys, overdue: set<JobId>, retries: set<JobId>, id: JobId)
    requires Local(s, id).score.None? && Sound(s.clock, Local(s, id))
    requires RoundEnabled(s, overdue, retries)
    ensures DrainedOn(s, AfterRound(s, overdue, retries), overdue, id)
  {
    RoundOnJob(s, overdue, retries, id);
    StrandedLocally(s, id);
    StrandedLocally(AfterRound(s, overdue, retries), id);
  }

  lemma StrandedLocally(s: Sys, id: JobId)
    ensures id in Stranded(s) <==>
            Has(Local(s, id), SCHEDULED) && Local(s, id).row.value.scheduleTime <= s.clock
  {
  }

  predicate Resent(first: Sys, last: Sys, id: JobId) {
    id in last.rows && last.rows[id].status == QUEUED && last.pending[id] == first.pending[id] + 1
  }

  lemma UnfoldRound(past: Run, overdue: set<JobId>, retries: set<JobId>)
    requires Valid(Round(past, overdue, retries))
    ensures Valid(past) && RoundEnabled(State(past), overdue, retries)
    ensures First(Round(past, overdue, retries)) == First(past)
    ensures State(Round(past, overdue, retries)) == AfterRound(State(past), overdue, retries)
  {
    var a := Then(past, ReconcileOverdue(overdue));
    var b := Then(a, ReconcileRetries(retries));
    assert Valid(b) && Valid(a);
    assert First(b) == First(a) == First(past);
    assert State(b) == Next(State(a), ReconcileRetries(retries));
  }

  /** A stranded job either was left alone so far, or has its one new message. */
  predicate Outcome(first: Sys, last: Sys, id: JobId) {
    if id in Stranded(last) then Local(last, id) == Local(first, id) else Resent(first, last, id)
  }

  lemma OutcomeAfterRound(first: Sys, s: Sys, overdue: set<JobId>, retries: set<JobId>, id: JobId)
    requires Outcome(first, s, id) && s.zset == map[] && Sound(s.clock, Local(s, id))
    requires RoundEnabled(s, overdue, retries)
    ensures Outcome(first, AfterRound(s, overdue, retries), id)
  {
    var after := AfterRound(s, overdue, retries);
    RoundOnJob(s, overdue, retries, id);
    StrandedLocally(s, id);
    StrandedLocally(after, id);
    ResentLocally(first, s, id);
    ResentLocally(first, after, id);
  }

  lemma ResentLocally(first: Sys, last: Sys, id: JobId)
    ensures Resent(first, last, id) <==>
            Has(Local(last, id), QUEUED) && Local(last, id).msgs == Local(first, id).msgs + 1
  {
  }

  /** What rounds have made of the backlog. */
  ghost predicate Drained(first: Sys, last: Sys, n: nat) {
    && last.zset == map[] && last.clock == first.clock && AllSound(last)
    && |Stranded(last)| == (if |Stranded(first)| <= n * 500 then 0
                            else |Stranded(first)| - n * 500)
    && forall id :: id in Stranded(first) ==> Outcome(first, last, id)
  }

  lemma OneMoreRound(first: Sys, s: Sys, n: nat, overdue: set<JobId>, retries: set<JobId>)
    requires 0 < n && Drained(first, s, n - 1) && RoundEnabled(s, overdue, retries)
    ensures Drained(first, AfterRound(s, overdue, retries), n)
  {
    RoundDrains(s, overdue, retries, AfterRound(s, overdue, retries));
    PageCount(s, overdue);
    forall id | id in Stranded(first)
      ensures Outcome(first, AfterRound(s, overdue, retries), id)
    {
      assert Outcome(first, s, id) && Sound(s.clock, Local(s, id));
      OutcomeAfterRound(first, s, overdue, retries, id);
    }
  }

  /** From an empty delay queue with the clock held, each round takes 500 jobs off the stranded ones. */
  lemma {:induction false} RoundsDrain(r: Run, n: nat)
    requires Valid(r) && Rounds(r, n)
    requires First(r).zset == map[] && AllSound(First(r))
    ensures Drained(First(r), State(r), n)
  {
    if n == 0 {
    } else {
      var past, overdue, retries := r.past.past.past, r.past.past.step.page, r.past.step.page;
      UnfoldRound(past, overdue, retries);
      RoundsDrain(past, n - 1);
      OneMoreRound(First(r), State(past), n, overdue, retries);
    }
  }

  /** Redis loss is drained: n rounds of reconcile and dispatch, 500n at least the number of overdue SCHEDULED
      jobs, put every one of them on the topic, with one new message each. It is the only one for every job that
      was neither requeued nor sent twice before. */
  lemma LossIsDrained(before: Run, r: Run, n: nat)
    requires Booted(before)
    requires Valid(r) && Rounds(r, n) && First(r) == Next(State(before), RedisLoss)
    requires |Stranded(State(before))| <= n * 500
    ensures forall id :: id in Stranded(State(before)) ==>
              && Resent(State(before), State(r), id)
              && (Single(before, id) ==> State(r).pending[id] == 1)
  {
    var s := State(before);
    forall id
      ensures Sound(First(r).clock, Local(First(r), id))
      ensures id in Stranded(s) && Single(before, id) ==> First(r).pending[id] == 0
    {
      EveryRunIsSound(before, id);
      StepIsEvent(s, RedisLoss, id);
      if Single(before, id) {
        OneHolderRun(before, id);
      }
    }
    RoundsDrain(r, n);
    assert Drained(First(r), State(r), n);
    assert Stranded(First(r)) == Stranded(s);
    assert Stranded(State(r)) == {};
    forall id | id in Stranded(s)
      ensures Resent(First(r), State(r), id)
    {
      assert Outcome(First(r), State(r), id);
    }
  }

  // ----- the watcher's own recovery only reaches back one minute

  /** The jobs that the recovery asks for. */
  function LastMinute(s: Sys): set<JobId> {
    PendingOrScheduledInRange(s.rows, s.clock - 60000, s.clock)
  }

  /** A page that recovery may come by, without `id` if that is possible. */
  lemma PageWithout(s: Sys, id: JobId) returns (page: set<JobId>)
    ensures Enabled(s, RecoverScheduled(page))
    ensures id in page ==> id in LastMinute(s) && |LastMinute(s)| <= 500
  {
    var matching := LastMinute(s);
    if |matching| <= 500 {
      page := matching;
    } else {
      assert |matching - {id}| >= |matching| - 1;
      page := SubsetOfSize(matching - {id}, 500);
    }
  }

  /** A lost job is sure to come back, whichever page recovery gets, if and only if its schedule time lies in the last
      minute and no more than 500 jobs are asked for. */
  lemma RecoveryReachesIff(s: Sys, id: JobId)
    requires id in s.rows && s.rows[id].status == SCHEDULED && id !in s.zset
    ensures (forall page :: Enabled(s, RecoverScheduled(page)) ==> id in Next(s, RecoverScheduled(page)).zset) <==>
            && s.clock - 60000 <= s.rows[id].scheduleTime <= s.clock
            && |LastMinute(s)| <= 500
  {
    if id in LastMinute(s) && |LastMinute(s)| <= 500 {
      forall page | Enabled(s, RecoverScheduled(page))
        ensures page == LastMinute(s)
      {
        SameSize(page, LastMinute(s));
      }
    } else {
      var page := PageWithout(s, id);
      assert id !in Next(s, RecoverScheduled(page)).zset;
    }
  }

  /** A SCHEDULED job that Redis forgot, more than a minute overdue. */
  predicate Forgotten(clock: int, l: Loc) {
    Has(l, SCHEDULED) && l.score.None? && l.msgs == 0 && l.row.value.scheduleTime < clock - 60000
  }

  /** No reconciliation has this job on its page. */
  predicate Unreconciled(r: Run, id: JobId) {
    match r
    case Start(_) => true
    case Then(past, step) => (step.ReconcileOverdue? ==> id !in step.page) && Unreconciled(past, id)
  }

  lemma RecoveryMisses(s: Sys, step: Step, id: JobId)
    requires Enabled(s, step) && (step.ReconcileOverdue? ==> id !in step.page) && Forgotten(s.clock, Local(s, id))
    ensures !EventOf(s, step, id).Rescue?
  {
  }

  /** A forgotten job stays forgotten on every run that neither reconciles nor requeues it nor redelivers a message
      of it, however often the watcher ticks or recovers. */
  lemma {:induction false} ForgottenForEver(r: Run, id: JobId)
    requires Valid(r) && Single(r, id) && Unreconciled(r, id)
    requires Forgotten(First(r).clock, Local(First(r), id))
    ensures Forgotten(State(r).clock, Local(State(r), id))
    ensures State(r).rows[id] == First(r).rows[id]
  {
    match r
    case Start(_) =>
    case Then(past, step) =>
      var s := State(past);
      ForgottenForEver(past, id);
      StepIsEvent(s, step, id);
      RecoveryMisses(s, step, id);
      assert Local(State(r), id).row == Local(s, id).row;
  }

  const NOON := 23400000

  lemma HandedOver(s: Sys)
    requires s == Next(Next(Boot(0), Create(1, "API", Some(TimeOfDay(12, 0)))), Tick(NOON))
    ensures Enabled(s, ScheduleWindow({1}))
    ensures var late := Next(Next(Next(s, ScheduleWindow({1})), RedisLoss), Tick(NOON + 60000 + 1));
            Forgotten(late.clock, Local(late, 1))
  {
    assert NextOccurrence(0, TimeOfDay(12, 0)) == NOON;
    assert s.rows == map[1 := Job("API", PENDING, 0, NOON, None)];
    assert PendingWindow(s.rows, 0, NOON + 20000) == {1};
    assert Next(s, ScheduleWindow({1})).rows == map[1 := Job("API", SCHEDULED, 0, NOON, None)];
  }

  lemma DueAtNoon() returns (r: Run)
    ensures Booted(r) && Avoids(r, DUPLICATORS + {Reconciles})
    ensures State(r) == Next(Next(Boot(0), Create(1, "API", Some(TimeOfDay(12, 0)))), Tick(NOON))
  {
    var start := Start(Boot(0));
    assert State(start) == First(start) == Boot(0) && Valid(start) && Avoids(start, DUPLICATORS + {Reconciles});
    var created := Then(start, Create(1, "API", Some(TimeOfDay(12, 0))));
    Extend(start, created.step);
    r := Then(created, Tick(NOON));
    Extend(created, r.step);
  }

  /** Such a job: the watcher hands a deferred job to Redis, Redis comes back empty, a recovery comes a minute late. */
  lemma ForgottenJob() returns (r: Run)
    ensures Booted(r) && Avoids(r, DUPLICATORS + {Reconciles}) && Forgotten(State(r).clock, Local(State(r), 1))
  {
    var due := DueAtNoon();
    HandedOver(State(due));
    var picked := Then(due, ScheduleWindow({1}));
    Extend(due, picked.step);
    var lost := Then(picked, RedisLoss);
    Extend(picked, lost.step);
    r := Then(lost, Tick(NOON + 60000 + 1));
    Extend(lost, r.step);
  }
}
