/** The bounds on executions and status changes are reached, for every number of deferrals and of requeues. */
module Tightness {
  import opened Jobs
  import opened WallClock
  import opened RateLimiter
  import opened Protocol
  import opened PerJob
  import opened Ownership
  import opened ExecutionBound
  import opened BackoffFloor

  const ALL_KINDS := {Recovers, Reconciles, Requeues, Redelivers, LosesRedis}

  // ----- what a run of job 1 adds up to

  datatype Tally = Tally(attempts: nat, changes: nat, deferrals: nat, extras: nat)

  /** A run without special steps but those of the given kinds, and what it adds up to. */
  ghost predicate Counts(r: Run, kinds: set<Kind>, tally: Tally) {
    && Booted(r) && Avoids(r, ALL_KINDS - kinds)
    && Executions(r, 1) == tally.attempts && StatusChanges(r, 1) == tally.changes
    && Deferrals(r, 1) == tally.deferrals && ExtraMessages(r, 1) == tally.extras
  }

  /** What one more step adds. */
  function Add(tally: Tally, s: Sys, step: Step): Tally {
    var e := EventOf(s, step, 1);
    Tally(tally.attempts + (if Executes(s, step, 1) then 1 else 0),
          tally.changes + (if Changed(Local(s, 1), Local(Next(s, step), 1)) then 1 else 0),
          tally.deferrals + (if Defers(e) then 1 else 0),
          tally.extras + (if e.Requeued? || e.Redelivered? then 1 else 0))
  }

  lemma CountStep(past: Run, kinds: set<Kind>, tally: Tally, step: Step) returns (r: Run)
    requires Counts(past, kinds, tally) && Enabled(State(past), step) && KindOf(step) in kinds + {Other}
    ensures r == Then(past, step) && State(r) == Next(State(past), step)
    ensures Counts(r, kinds, Add(tally, State(past), step))
  {
    r := Then(past, step);
    Extend(past, step);
  }

  // ----- one job on its own

  /** Job 1 is alone in the system, has failed `fails` times in a row, and nothing has been admitted or has failed
      since `quiet`. */
  ghost predicate Lone(s: Sys, row: Job, zset: Scores, pending: multiset<JobId>, quiet: int, fails: nat) {
    && s.rows == map[1 := row] && s.zset == zset && s.pending == pending && s.flags == map[] && row.typ == "API"
    && 0 <= quiet <= s.clock
    && ("API" in s.windows ==> forall t :: t in s.windows["API"].stamps ==> 0 <= t <= quiet)
    && s.breakers.LastFailure("API") <= quiet && s.breakers.Failures("API") == fails
  }

  predicate Waits(row: Job) {
    row.status == PENDING || (row.status == RETRY && row.nextRetryTime.Some?)
  }

  function Due(row: Job): int {
    if row.status == PENDING then row.scheduleTime else SortKey(ByRetryTime, row)
  }

  predicate SameGates(s: Sys, after: Sys) {
    after.clock == s.clock && after.breakers == s.breakers && after.windows == s.windows
  }

  /** Waits until the job is due and the breaker has cooled down. */
  lemma Wait(past: Run, kinds: set<Kind>, tally: Tally, row: Job, quiet: int, fails: nat) returns (r: Run)
    requires Counts(past, kinds, tally) && Lone(State(past), row, map[], multiset{}, quiet, fails)
    ensures Counts(r, kinds, tally) && Lone(State(r), row, map[], multiset{}, quiet, fails)
    ensures Due(row) <= State(r).clock && quiet + 30000 <= State(r).clock
  {
    var to := State(past).clock + 30000;
    if to < Due(row) {
      to := Due(row);
    }
    r := CountStep(past, kinds, tally, Tick(to));
  }

  lemma PickUpState(s: Sys, row: Job, quiet: int, fails: nat) returns (step: Step)
    requires Lone(s, row, map[], multiset{}, quiet, fails) && Waits(row) && 0 <= Due(row) <= s.clock + 20000
    ensures Enabled(s, step) && step in {ScheduleWindow({1}), ScheduleRetries({1})} && SameGates(s, Next(s, step))
    ensures Lone(Next(s, step), row.(status := SCHEDULED), map[1 := Due(row)], multiset{}, quiet, fails)
  {
    if row.status == PENDING {
      assert PendingWindow(s.rows, 0, s.clock + 20000) == {1};
      step := ScheduleWindow({1});
    } else {
      assert RetryWindow(s.rows, 0, s.clock + 20000) == {1};
      step := ScheduleRetries({1});
    }
  }

  lemma PickUp(past: Run, kinds: set<Kind>, tally: Tally, row: Job, quiet: int, fails: nat) returns (r: Run)
    requires Counts(past, kinds, tally) && Lone(State(past), row, map[], multiset{}, quiet, fails)
    requires Waits(row) && 0 <= Due(row) <= State(past).clock + 20000
    ensures Counts(r, kinds, tally.(changes := tally.changes + 1)) && SameGates(State(past), State(r))
    ensures Lone(State(r), row.(status := SCHEDULED), map[1 := Due(row)], multiset{}, quiet, fails)
  {
    var step := PickUpState(State(past), row, quiet, fails);
    r := CountStep(past, kinds, tally, step);
  }

  lemma SendOutState(s: Sys, row: Job, due: int, quiet: int, fails: nat)
    requires Lone(s, row, map[1 := due], multiset{}, quiet, fails)
    requires row.status == SCHEDULED && 0 <= due <= s.clock
    ensures Lone(Next(s, Dispatch), row.(status := QUEUED), map[], multiset{1}, quiet, fails)
    ensures SameGates(s, Next(s, Dispatch))
  {
    assert Ready(s.zset, s.clock) == {1} && Dispatched(s.rows, {1}) == {1};
    var after := Next(s, Dispatch);
    assert after.pending == multiset{1} && after.zset == map[];
  }

  lemma SendOut(past: Run, kinds: set<Kind>, tally: Tally, row: Job, due: int, quiet: int, fails: nat)
    returns (r: Run)
    requires Counts(past, kinds, tally) && Lone(State(past), row, map[1 := due], multiset{}, quiet, fails)
    requires row.status == SCHEDULED && 0 <= due <= State(past).clock
    ensures Counts(r, kinds, tally.(changes := tally.changes + 1)) && SameGates(State(past), State(r))
    ensures Lone(State(r), row.(status := QUEUED), map[], multiset{1}, quiet, fails)
  {
    SendOutState(State(past), row, due, quiet, fails);
    r := CountStep(past, kinds, tally, Dispatch);
  }

  /** The circuit has just opened, with this one admission in the window. */
  ghost predicate Tripped(s: Sys) {
    && s.breakers.Open("API") && s.breakers.LastFailure("API") == s.clock
    && "API" in s.windows && s.windows["API"].stamps == {s.clock}
  }

  /** The latest of `fails` failures is of this millisecond. */
  ghost predicate JustFailed(s: Sys, fails: nat) {
    && (s.breakers.Open("API") <==> 5 <= fails) && s.breakers.LastFailure("API") == s.clock
    && "API" in s.windows && s.windows["API"].stamps == {s.clock}
  }

  predicate RunLastAt(r: Run, now: int) {
    var times := ExecutionTimes(r, 1);
    times != [] && times[|times| - 1] == now
  }

  lemma NothingInTheWay(s: Sys, row: Job, quiet: int, fails: nat)
    requires Lone(s, row, map[], multiset{1}, quiet, fails)
    requires row.status == QUEUED && quiet + 30000 <= s.clock
    ensures GateOf(s, 1, false) == Executed
    ensures Limit(s, "API", false).window == Some(Window({s.clock}, s.clock + 1000))
  {
    assert "API" in s.windows ==> Trim(s.windows["API"].stamps, s.clock) == {};
    assert Trim({}, s.clock) == {};
  }

  lemma FailOnceState(s: Sys, row: Job, quiet: int, fails: nat)
    requires Lone(s, row, map[], multiset{1}, quiet, fails)
    requires row.status == QUEUED && quiet + 30000 <= s.clock
    ensures GateOf(s, 1, false) == Executed
    ensures var after := Next(s, Consume(1, false, false));
            && Lone(after, AfterDelivery(row, Executed, false, s.clock), map[], multiset{}, s.clock, fails + 1)
            && JustFailed(after, fails + 1)
  {
    NothingInTheWay(s, row, quiet, fails);
    assert Next(s, Consume(1, false, false)).pending == multiset{};
  }

  lemma FailOnce(past: Run, kinds: set<Kind>, tally: Tally, row: Job, quiet: int, fails: nat) returns (r: Run)
    requires Counts(past, kinds, tally) && Lone(State(past), row, map[], multiset{1}, quiet, fails)
    requires row.status == QUEUED && quiet + 30000 <= State(past).clock
    ensures Counts(r, kinds, tally.(attempts := tally.attempts + 1, changes := tally.changes + 1))
    ensures var at := State(past).clock;
            && State(r).clock == at
            && Lone(State(r), AfterDelivery(row, Executed, false, at), map[], multiset{}, at, fails + 1)
            && JustFailed(State(r), fails + 1) && RunLastAt(r, at)
  {
    FailOnceState(State(past), row, quiet, fails);
    r := CountStep(past, kinds, tally, Consume(1, false, false));
  }

  /** One more failed attempt of a waiting job: three status changes. */
  lemma AttemptOnce(past: Run, kinds: set<Kind>, tally: Tally, row: Job, quiet: int, fails: nat) returns (r: Run)
    requires Counts(past, kinds, tally) && Lone(State(past), row, map[], multiset{}, quiet, fails)
    requires Waits(row) && 0 <= Due(row)
    ensures Counts(r, kinds, tally.(attempts := tally.attempts + 1, changes := tally.changes + 3))
    ensures var at := State(r).clock;
            && Due(row) <= at && quiet <= at
            && Lone(State(r), AfterDelivery(row.(status := QUEUED), Executed, false, at), map[], multiset{}, at,
                    fails + 1)
            && JustFailed(State(r), fails + 1) && RunLastAt(r, at)
  {
    r := Wait(past, kinds, tally, row, quiet, fails);
    r := PickUp(r, kinds, tally, row, quiet, fails);
    r := SendOut(r, kinds, tally.(changes := tally.changes + 1), row.(status := SCHEDULED), Due(row), quiet, fails);
    r := FailOnce(r, kinds, tally.(changes := tally.changes + 2), row.(status := QUEUED), quiet, fails);
  }

  // ----- failing time after time

  /** Noon in Kolkata, seen from the epoch. */
  const NOON := TimeOfDay(12, 0)

  lemma CreatedForNoon() returns (r: Run, row: Job)
    ensures Counts(r, {}, Tally(0, 0, 0, 0)) && Lone(State(r), row, map[], multiset{}, 0, 0)
    ensures row.status == PENDING && row.retryCount == 0 && 0 <= row.scheduleTime && State(r).clock == 0
  {
    var start := Start(Boot(0));
    assert State(start) == First(start) == Boot(0);
    assert Counts(start, {}, Tally(0, 0, 0, 0));
    assert NextOccurrence(0, NOON) == 23400000;
    row := NewJob("API", 0, Some(NOON));
    r := CountStep(start, {}, Tally(0, 0, 0, 0), Create(1, "API", Some(NOON)));
    assert State(r).rows == map[1 := row];
  }

  /** The row after `n` failed attempts, the last at `at`. */
  predicate AfterFailures(row: Job, n: nat, at: int) {
    && 0 <= row.scheduleTime
    && if n == 0 then row.status == PENDING && row.retryCount == 0
       else
         && row.scheduleTime <= at
         && if n <= 5
            then row.status == RETRY && row.retryCount == n && row.nextRetryTime == Some(at + Backoff(n))
            else row.status == FAILED && row.retryCount == 5
  }

  lemma OneMoreFailure(row: Job, n: nat, before: int, at: int)
    requires AfterFailures(row, n, before) && n <= 5 && 0 <= before && Due(row) <= at && before <= at
    ensures Waits(row) && 0 <= Due(row)
    ensures AfterFailures(AfterDelivery(row.(status := QUEUED), Executed, false, at), n + 1, at)
  {
    if n > 0 {
      BackoffRange(n);
    }
  }

  lemma WaitsAfter(row: Job, n: nat, at: int)
    requires AfterFailures(row, n, at) && n <= 5 && 0 <= at
    ensures Waits(row) && 0 <= Due(row)
  {
    if n > 0 {
      BackoffRange(n);
    }
  }

  /** The job has failed `n` times, one way or another three status changes apart, and now waits or is FAILED. */
  ghost predicate Failed(r: Run, row: Job, n: nat) {
    var now := State(r).clock;
    && Counts(r, {}, Tally(n, 3 * n, 0, 0)) && AfterFailures(row, n, now)
    && Lone(State(r), row, map[], multiset{}, now, n)
    && (0 < n ==> JustFailed(State(r), n) && RunLastAt(r, now))
  }

  lemma FailAgain(past: Run, before: Job, n: nat) returns (r: Run, row: Job)
    requires Failed(past, before, n) && n <= 5
    ensures Failed(r, row, n + 1)
  {
    var quiet := State(past).clock;
    WaitsAfter(before, n, quiet);
    r := AttemptOnce(past, {}, Tally(n, 3 * n, 0, 0), before, quiet, n);
    OneMoreFailure(before, n, quiet, State(r).clock);
    row := AfterDelivery(before.(status := QUEUED), Executed, false, State(r).clock);
  }

  lemma {:induction false} FailTimes(n: nat) returns (r: Run, row: Job)
    requires n <= 6
    ensures Failed(r, row, n)
  {
    if n == 0 {
      r, row := CreatedForNoon();
    } else {
      r, row := FailTimes(n - 1);
      r, row := FailAgain(r, row, n - 1);
    }
  }

  /** Without requeue, duplicate, recovery or deferral: six executions, 18 status changes, FAILED. */
  lemma BoundsAreReached() returns (r: Run)
    ensures Booted(r) && Avoids(r, ALL_KINDS) && Deferrals(r, 1) == 0 && ExtraMessages(r, 1) == 0
    ensures Executions(r, 1) == 6 && StatusChanges(r, 1) == 18
    ensures 1 in State(r).rows && State(r).rows[1].status == FAILED
  {
    var row;
    r, row := FailTimes(6);
    assert ALL_KINDS - {} == ALL_KINDS;
  }

  // ----- any number of deferrals

  lemma ReconcileState(s: Sys, row: Job, due: int, quiet: int, fails: nat)
    requires Lone(s, row, map[1 := due], multiset{}, quiet, fails)
    requires row.status == SCHEDULED && row.scheduleTime <= s.clock
    ensures Enabled(s, ReconcileOverdue({1})) && SameGates(s, Next(s, ReconcileOverdue({1})))
    ensures Lone(Next(s, ReconcileOverdue({1})), row, map[1 := row.scheduleTime], multiset{}, quiet, fails)
  {
    assert OverdueScheduled(s.rows, s.clock) == {1};
  }

  lemma Reconcile(past: Run, tally: Tally, row: Job, due: int, quiet: int, fails: nat) returns (r: Run)
    requires Counts(past, {Reconciles}, tally) && Lone(State(past), row, map[1 := due], multiset{}, quiet, fails)
    requires row.status == SCHEDULED && row.scheduleTime <= State(past).clock
    ensures Counts(r, {Reconciles}, tally) && SameGates(State(past), State(r))
    ensures Lone(State(r), row, map[1 := row.scheduleTime], multiset{}, quiet, fails)
  {
    ReconcileState(State(past), row, due, quiet, fails);
    r := CountStep(past, {Reconciles}, tally, ReconcileOverdue({1}));
  }

  function PutOff(row: Job, now: int): Job {
    row.(status := RETRY, nextRetryTime := Some(now + 5000))
  }

  lemma TurnedAwayState(s: Sys, row: Job, fails: nat)
    requires Lone(s, row, map[], multiset{1}, s.clock, fails) && Tripped(s) && row.status == QUEUED
    ensures GateOf(s, 1, false) == CircuitOpen
    ensures var after := Next(s, Consume(1, false, false));
            && Lone(after, PutOff(row, s.clock), map[], multiset{}, s.clock, fails)
            && Tripped(after) && after.clock == s.clock
  {
    assert Trim(s.windows["API"].stamps, s.clock) == {s.clock};
    assert Next(s, Consume(1, false, false)).pending == multiset{};
  }

  lemma TurnedAway(past: Run, tally: Tally, row: Job, fails: nat) returns (r: Run)
    requires Counts(past, {Reconciles}, tally) && Tripped(State(past)) && row.status == QUEUED
    requires Lone(State(past), row, map[], multiset{1}, State(past).clock, fails)
    ensures Counts(r, {Reconciles}, tally.(changes := tally.changes + 1, deferrals := tally.deferrals + 1))
    ensures var now := State(past).clock;
            && State(r).clock == now && Tripped(State(r))
            && Lone(State(r), PutOff(row, now), map[], multiset{}, now, fails)
  {
    TurnedAwayState(State(past), row, fails);
    r := CountStep(past, {Reconciles}, tally, Consume(1, false, false));
  }

  lemma MadeDue(past: Run, tally: Tally, row: Job, fails: nat) returns (r: Run)
    requires Counts(past, {Reconciles}, tally) && Lone(State(past), row, map[], multiset{}, State(past).clock, fails)
    requires Waits(row) && row.scheduleTime <= State(past).clock && 0 <= Due(row) <= State(past).clock + 20000
    ensures Counts(r, {Reconciles}, tally.(changes := tally.changes + 1)) && SameGates(State(past), State(r))
    ensures Lone(State(r), row.(status := SCHEDULED), map[1 := row.scheduleTime], multiset{}, State(r).clock, fails)
  {
    var now := State(past).clock;
    r := PickUp(past, {Reconciles}, tally, row, now, fails);
    r := Reconcile(r, tally.(changes := tally.changes + 1), row.(status := SCHEDULED), Due(row), now, fails);
  }

  lemma SentAtOnce(past: Run, tally: Tally, row: Job, fails: nat) returns (r: Run)
    requires Counts(past, {Reconciles}, tally) && Lone(State(past), row, map[], multiset{}, State(past).clock, fails)
    requires Waits(row) && 0 <= row.scheduleTime <= State(past).clock
    requires 0 <= Due(row) <= State(past).clock + 20000
    ensures Counts(r, {Reconciles}, tally.(changes := tally.changes + 2)) && State(r).clock == State(past).clock
    ensures Lone(State(r), row.(status := QUEUED), map[], multiset{1}, State(r).clock, fails)
    ensures Tripped(State(past)) ==> Tripped(State(r))
  {
    var more := tally.(changes := tally.changes + 1);
    r := MadeDue(past, tally, row, fails);
    r := SendOut(r, {Reconciles}, more, row.(status := SCHEDULED), row.scheduleTime, State(r).clock, fails);
  }

  /** After five failures the job waits behind the open circuit, deferred `n` times. */
  ghost predicate PutOffTimes(r: Run, row: Job, n: nat) {
    var now := State(r).clock;
    && Counts(r, {Reconciles}, Tally(5, 15 + 3 * n, n, 0)) && Tripped(State(r))
    && Lone(State(r), row, map[], multiset{}, now, 5)
    && row.status == RETRY && row.retryCount == 5 && Waits(row) && 0 <= row.scheduleTime <= now
    && 0 <= Due(row) <= now + 20000
  }

  /** It is on its way to the open circuit again. */
  ghost predicate BackAtCircuit(r: Run, row: Job, n: nat) {
    var now := State(r).clock;
    && Counts(r, {Reconciles}, Tally(5, 15 + 3 * n + 2, n, 0)) && Tripped(State(r))
    && Lone(State(r), row, map[], multiset{1}, now, 5)
    && row.status == QUEUED && row.retryCount == 5 && 0 <= row.scheduleTime <= now
  }

  /** Picked up early, reconciled and dispatched, all in one millisecond. */
  lemma GoBack(past: Run, row: Job, n: nat) returns (r: Run)
    requires PutOffTimes(past, row, n)
    ensures BackAtCircuit(r, row.(status := QUEUED), n)
  {
    r := SentAtOnce(past, Tally(5, 15 + 3 * n, n, 0), row, 5);
  }

  lemma PutOffAgain(past: Run, row: Job, n: nat) returns (r: Run)
    requires BackAtCircuit(past, row, n)
    ensures PutOffTimes(r, PutOff(row, State(past).clock), n + 1)
  {
    r := TurnedAway(past, Tally(5, 15 + 3 * n + 2, n, 0), row, 5);
  }

  lemma {:induction false} DeferTimes(n: nat) returns (r: Run, row: Job)
    ensures PutOffTimes(r, row, n)
  {
    if n == 0 {
      r, row := FailTimes(5);
      BackoffTable();
      AvoidsFewer(r, ALL_KINDS - {Reconciles}, ALL_KINDS - {});
    } else {
      r, row := DeferTimes(n - 1);
      var sent := GoBack(r, row, n - 1);
      r := PutOffAgain(sent, row.(status := QUEUED), n - 1);
      row := PutOff(row.(status := QUEUED), State(sent).clock);
    }
  }

  /** For every number of deferrals the bound on status changes is reached: 18 + 3n. */
  lemma StatusBoundIsReached(n: nat) returns (r: Run)
    ensures Booted(r) && Avoids(r, ALL_KINDS - {Reconciles}) && Single(r, 1) && Deferrals(r, 1) == n
    ensures StatusChanges(r, 1) == 18 + 3 * n && Executions(r, 1) == 6
  {
    var past, row := DeferTimes(n);
    r := AttemptOnce(past, {Reconciles}, Tally(5, 15 + 3 * n, n, 0), row, State(past).clock, 5);
    AvoidsFewer(r, DUPLICATORS, ALL_KINDS - {Reconciles});
    AvoidsIsSingle(r, 1);
  }

  // ----- any number of requeues

  lemma RequeueState(s: Sys, row: Job, quiet: int, fails: nat)
    requires Lone(s, row, map[], multiset{}, quiet, fails) && row.status == FAILED
    ensures Lone(Next(s, Requeue(1)), row.(status := QUEUED), map[], multiset{1}, quiet, fails)
    ensures SameGates(s, Next(s, Requeue(1))) && EventOf(s, Requeue(1), 1).Requeued?
  {
    assert Next(s, Requeue(1)).pending == multiset{1};
  }

  lemma RequeuedLater(past: Run, tally: Tally, row: Job, quiet: int, fails: nat) returns (r: Run)
    requires Counts(past, {Requeues}, tally) && row.status == FAILED
    requires Lone(State(past), row, map[], multiset{}, quiet, fails)
    ensures Counts(r, {Requeues}, tally.(changes := tally.changes + 1, extras := tally.extras + 1))
    ensures Lone(State(r), row.(status := QUEUED), map[], multiset{1}, quiet, fails)
    ensures quiet + 30000 <= State(r).clock
  {
    var waited := Wait(past, {Requeues}, tally, row, quiet, fails);
    RequeueState(State(waited), row, quiet, fails);
    r := CountStep(waited, {Requeues}, tally, Requeue(1));
  }

  lemma StaysFailed(row: Job, now: int)
    requires row.status == FAILED && row.retryCount == 5
    ensures AfterDelivery(row.(status := QUEUED), Executed, false, now) == row
  {
  }

  /** An admin requeues the FAILED job, and it fails once more. */
  lemma RequeueOnce(past: Run, tally: Tally, row: Job, fails: nat) returns (r: Run)
    requires Counts(past, {Requeues}, tally) && row.status == FAILED && row.retryCount == 5
    requires Lone(State(past), row, map[], multiset{}, State(past).clock, fails)
    ensures Counts(r, {Requeues}, Tally(tally.attempts + 1, tally.changes + 2, tally.deferrals, tally.extras + 1))
    ensures Lone(State(r), row, map[], multiset{}, State(r).clock, fails + 1)
  {
    var quiet, queued := State(past).clock, row.(status := QUEUED);
    var sent := RequeuedLater(past, tally, row, quiet, fails);
    var more := tally.(changes := tally.changes + 1, extras := tally.extras + 1);
    r := FailOnce(sent, {Requeues}, more, queued, quiet, fails);
    StaysFailed(row, State(sent).clock);
  }

  lemma {:induction false} RequeueTimes(n: nat) returns (r: Run, row: Job)
    ensures Counts(r, {Requeues}, Tally(6 + n, 18 + 2 * n, 0, n)) && row.status == FAILED && row.retryCount == 5
    ensures Lone(State(r), row, map[], multiset{}, State(r).clock, 6 + n)
  {
    if n == 0 {
      r, row := FailTimes(6);
      AvoidsFewer(r, ALL_KINDS - {Requeues}, ALL_KINDS - {});
    } else {
      r, row := RequeueTimes(n - 1);
      r := RequeueOnce(r, Tally(6 + n - 1, 18 + 2 * (n - 1), 0, n - 1), row, 6 + n - 1);
    }
  }

  /** For every number of requeues the bound on executions is reached: 6 + n. */
  lemma ExecutionBoundIsReached(n: nat) returns (r: Run)
    ensures Booted(r) && Avoids(r, ALL_KINDS - {Requeues}) && ExtraMessages(r, 1) == n && Executions(r, 1) == 6 + n
  {
    var row;
    r, row := RequeueTimes(n);
  }
}
