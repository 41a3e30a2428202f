/** Runs on which duplicate messages fill the rate limiter: a finished job comes back, a wait is cut short. */
module Revival {
  import opened Jobs
  import opened RateLimiter
  import opened Protocol
  import opened PerJob
  import opened Ownership
  import opened BackoffFloor
  import opened Tightness
  import Starvation

  /** The `n` milliseconds from `from` on. */
  function Span(from: int, n: nat): (span: set<int>)
    ensures forall t :: t in span <==> from <= t < from + n
  {
    if n == 0 then {} else Span(from, n - 1) + {from + n - 1}
  }

  lemma {:induction false} SpanSize(from: int, n: nat)
    ensures |Span(from, n)| == n
  {
    if n == 0 {
    } else {
      SpanSize(from, n - 1);
    }
  }

  /** Job 1 is alone, the circuit is closed, and there was one admission in each of `n` milliseconds from `from` on. */
  ghost predicate Alone(s: Sys, row: Job, from: int, n: nat, fails: nat, pending: multiset<JobId>) {
    && 0 < n && Lone(s, row, map[], pending, from + n - 1, fails) && 1 in s.sent && row.status != QUEUED
    && !s.breakers.Open("API") && "API" in s.windows && s.windows["API"].stamps == Span(from, n)
  }

  /** A run without special steps but redeliveries, with its executions of job 1. */
  ghost predicate Duplicating(r: Run, times: seq<int>) {
    Booted(r) && Avoids(r, ALL_KINDS - {Redelivers}) && ExecutionTimes(r, 1) == times
  }

  lemma OneMoreStep(past: Run, times: seq<int>, step: Step) returns (r: Run)
    requires Duplicating(past, times) && Enabled(State(past), step) && KindOf(step) in {Redelivers, Other}
    ensures r == Then(past, step) && State(r) == Next(State(past), step)
    ensures Duplicating(r, if Executes(State(past), step, 1) then times + [State(past).clock] else times)
  {
    r := Then(past, step);
    Extend(past, step);
  }

  // ----- duplicates in each of the next milliseconds

  /** In the next millisecond the message arrives again. */
  lemma Again(past: Run, times: seq<int>, row: Job, from: int, n: nat, fails: nat) returns (r: Run)
    requires Duplicating(past, times) && Alone(State(past), row, from, n, fails, multiset{})
    requires State(past).clock == from + n - 1
    ensures Duplicating(r, times) && Alone(State(r), row, from, n, fails, multiset{1}) && State(r).clock == from + n
  {
    r := OneMoreStep(past, times, Tick(from + n));
    r := OneMoreStep(r, times, Redeliver(1));
  }

  lemma SpanKept(from: int, n: nat)
    requires n < 1000
    ensures Trim(Span(from, n), from + n) == Span(from, n)
  {
    var kept := Trim(Span(from, n), from + n);
    assert forall t :: t in kept <==> t in Span(from, n);
  }

  lemma SpanAllow(w: Window, from: int, n: nat)
    requires w.stamps == Span(from, n) && 0 < n <= 5
    ensures Allow(Some(w), from + n, 5, false) ==
            if n < 5 then Verdict(true, Some(Window(Span(from, n + 1), from + n + 1000)))
            else Verdict(false, Some(w))
  {
    SpanSize(from, n);
    SpanKept(from, n);
    assert from in w.stamps;
  }

  lemma LimitAgain(s: Sys, from: int, n: nat)
    requires "API" in s.windows && s.windows["API"].stamps == Span(from, n)
    requires s.clock == from + n && 0 < n <= 5
    ensures Limit(s, "API", false) ==
            if n < 5 then Verdict(true, Some(Window(Span(from, n + 1), s.clock + 1000)))
            else Verdict(false, Some(s.windows["API"]))
  {
    assert WindowOf(s, "API") == Some(s.windows["API"]);
    SpanAllow(s.windows["API"], from, n);
  }

  /** The limiter admits the message as long as fewer than five came before; as it is not QUEUED the job stays as
      it is. */
  lemma DeliveredAgain(s: Sys, row: Job, from: int, n: nat, fails: nat)
    requires Alone(s, row, from, n, fails, multiset{1}) && s.clock == from + n && n <= 5
    ensures Enabled(s, Consume(1, false, true))
    ensures GateOf(s, 1, false) == if n < 5 then NotQueued else RateLimited
  {
    LimitAgain(s, from, n);
  }

  lemma SkippedState(s: Sys, row: Job, from: int, n: nat, fails: nat)
    requires Alone(s, row, from, n, fails, multiset{1}) && s.clock == from + n && n < 5
    ensures Enabled(s, Consume(1, false, true)) && !Executes(s, Consume(1, false, true), 1)
    ensures Next(s, Consume(1, false, true)).clock == s.clock
    ensures Alone(Next(s, Consume(1, false, true)), row, from, n + 1, fails, multiset{})
  {
    DeliveredAgain(s, row, from, n, fails);
    LimitAgain(s, from, n);
    assert multiset{1} - multiset{1} == multiset{};
    assert s.rows[1 := row] == s.rows;
  }

  lemma Skipped(past: Run, times: seq<int>, row: Job, from: int, n: nat, fails: nat) returns (r: Run)
    requires Duplicating(past, times) && Alone(State(past), row, from, n, fails, multiset{1})
    requires State(past).clock == from + n && n < 5
    ensures Duplicating(r, times) && Alone(State(r), row, from, n + 1, fails, multiset{})
    ensures State(r).clock == from + n
  {
    SkippedState(State(past), row, from, n, fails);
    r := OneMoreStep(past, times, Consume(1, false, true));
  }

  lemma {:induction false} SkippedTimes(past: Run, times: seq<int>, row: Job, from: int, fails: nat, n: nat)
    returns (r: Run)
    requires Duplicating(past, times) && Alone(State(past), row, from, 1, fails, multiset{})
    requires State(past).clock == from && 1 <= n <= 5
    ensures Duplicating(r, times) && Alone(State(r), row, from, n, fails, multiset{}) && State(r).clock == from + n - 1
  {
    if n == 1 {
      r := past;
    } else {
      r := SkippedTimes(past, times, row, from, fails, n - 1);
      r := Again(r, times, row, from, n - 1, fails);
      r := Skipped(r, times, row, from, n - 1, fails);
    }
  }

  /** The row of a job that the rate limiter puts off. */
  function Limited(row: Job, now: int): Job {
    row.(status := RETRY, nextRetryTime := Some(now + 2000))
  }

  lemma LimitedState(s: Sys, row: Job, from: int, fails: nat)
    requires Alone(s, row, from, 5, fails, multiset{1}) && s.clock == from + 5
    ensures Enabled(s, Consume(1, false, true)) && !Executes(s, Consume(1, false, true), 1)
    ensures Next(s, Consume(1, false, true)).clock == s.clock
    ensures Alone(Next(s, Consume(1, false, true)), Limited(row, s.clock), from, 5, fails, multiset{})
  {
    DeliveredAgain(s, row, from, 5, fails);
    LimitAgain(s, from, 5);
    assert multiset{1} - multiset{1} == multiset{};
    assert s.windows["API" := s.windows["API"]] == s.windows;
  }

  /** Four duplicates get through, one in a millisecond; with the next the rate limiter turns the job away. */
  lemma SixthMessage(past: Run, times: seq<int>, row: Job, from: int, fails: nat) returns (before: Run, r: Run)
    requires Duplicating(past, times) && Alone(State(past), row, from, 1, fails, multiset{})
    requires State(past).clock == from
    ensures Duplicating(r, times) && r == Then(before, Consume(1, false, true))
    ensures At(State(before).rows, 1) == Some(row)
    ensures State(r).clock == from + 5
    ensures Alone(State(r), Limited(row, from + 5), from, 5, fails, multiset{})
  {
    before := SkippedTimes(past, times, row, from, fails, 5);
    before := Again(before, times, row, from, 5, fails);
    LimitedState(State(before), row, from, fails);
    r := OneMoreStep(before, times, Consume(1, false, true));
  }

  // ----- a finished job comes back

  const DONE := Job("API", COMPLETED, 0, 0, None)

  lemma CreatedState(s: Sys)
    requires s == Boot(0)
    ensures var created := Next(s, Create(1, "API", None));
            && created.clock == 0 && created.rows == map[1 := DONE.(status := QUEUED)] && created.zset == map[]
            && created.pending == multiset{1} && created.sent == {1} && created.flags == map[]
            && created.windows == map[] && created.breakers == s.breakers
  {
  }

  lemma CompletedState(s: Sys)
    requires s.clock == 0 && s.rows == map[1 := DONE.(status := QUEUED)] && s.pending == multiset{1} && s.sent == {1}
    requires s.zset == map[] && s.flags == map[] && s.windows == map[] && s.breakers == Boot(0).breakers
    ensures var step := Consume(1, false, true);
            && Enabled(s, step) && Executes(s, step, 1) && Next(s, step).clock == 0
            && Alone(Next(s, step), DONE, 0, 1, 0, multiset{})
  {
    assert Trim({}, 0) == {} && GateOf(s, 1, false) == Executed;
    assert Span(0, 1) == {0};
  }

  lemma Completed() returns (r: Run)
    ensures Duplicating(r, [0]) && Alone(State(r), DONE, 0, 1, 0, multiset{}) && State(r).clock == 0
  {
    var start := Start(Boot(0));
    assert State(start) == First(start) == Boot(0) && Duplicating(start, []);
    var created := OneMoreStep(start, [], Create(1, "API", None));
    CreatedState(Boot(0));
    CompletedState(State(created));
    r := OneMoreStep(created, [], Consume(1, false, true));
  }

  /** The sixth message within a second is put off by the rate limiter, and the COMPLETED job waits for a retry. */
  lemma DuplicateRevivesCompleted() returns (past: Run, step: Step)
    ensures Booted(Then(past, step)) && Avoids(past, ALL_KINDS - {Redelivers}) && step.Consume?
    ensures Has(Local(State(past), 1), COMPLETED) && Has(Local(Next(State(past), step), 1), RETRY)
  {
    var done := Completed();
    var r;
    past, r := SixthMessage(done, [0], DONE, 0, 0);
    step := r.step;
  }

  // ----- a wait is cut short

  /** Two attempts have failed, the second at this millisecond; the third is due in 4 s. */
  lemma TwiceFailed() returns (r: Run, row: Job, times: seq<int>)
    ensures Duplicating(r, times) && |times| == 2 && times[1] == State(r).clock
    ensures Alone(State(r), row, State(r).clock, 1, 2, multiset{}) && row.status == RETRY
  {
    r, row := FailTimes(2);
    times := ExecutionTimes(r, 1);
    TimesOfExecutions(r, 1);
    AvoidsFewer(r, ALL_KINDS - {Redelivers}, ALL_KINDS - {});
    AvoidsFewer(r, {LosesRedis}, ALL_KINDS - {});
    Starvation.EveryJobIsOnItsWay(r, 1);
    assert Local(State(r), 1).sent;
    assert Span(State(r).clock, 1) == {State(r).clock};
  }

  lemma SecondLater(s: Sys, row: Job, quiet: int, fails: nat)
    requires Lone(s, row, map[], multiset{1}, quiet, fails) && row.status == QUEUED
    requires quiet + 1000 <= s.clock && !s.breakers.Open("API")
    ensures Executes(s, Consume(1, false, false), 1) && Enabled(s, Consume(1, false, false))
  {
    assert "API" in s.windows ==> Trim(s.windows["API"].stamps, s.clock) == {};
    assert Trim({}, s.clock) == {};
  }

  /** The job is picked up and dispatched once it is due. */
  lemma SentWhenDue(past: Run, times: seq<int>, row: Job, quiet: int, fails: nat) returns (r: Run)
    requires Duplicating(past, times) && Lone(State(past), row, map[], multiset{}, quiet, fails)
    requires row.status == RETRY && Waits(row) && State(past).clock <= Due(row) && !State(past).breakers.Open("API")
    ensures Duplicating(r, times) && Lone(State(r), row.(status := QUEUED), map[], multiset{1}, quiet, fails)
    ensures State(r).clock == Due(row) && !State(r).breakers.Open("API")
  {
    var due := OneMoreStep(past, times, Tick(Due(row)));
    var step := PickUpState(State(due), row, quiet, fails);
    var picked := OneMoreStep(due, times, step);
    SendOutState(State(picked), row.(status := SCHEDULED), Due(row), quiet, fails);
    r := OneMoreStep(picked, times, Dispatch);
  }

  lemma TooSoon(times: seq<int>, now: int)
    requires |times| == 2 && now < times[1] + Backoff(2)
    ensures !Spaced(times + [now])
  {
    var longer := times + [now];
    assert longer[2 - 1] + Backoff(2) > longer[2];
  }

  /** Without recovery, reconcile or requeue: duplicates fill the limiter, which replaces the wait of 4 s before the
      third attempt by one of 2 s. */
  lemma DuplicateDefeatsBackoff() returns (r: Run)
    ensures Booted(r) && Avoids(r, ALL_KINDS - {Redelivers})
    ensures |ExecutionTimes(r, 1)| == 3 && !Spaced(ExecutionTimes(r, 1))
  {
    var past, row, times := TwiceFailed();
    var c := State(past).clock;
    var before, limited := SixthMessage(past, times, row, c, 2);
    var due := Limited(row, c + 5);
    var sent := SentWhenDue(limited, times, due, c + 4, 2);
    SecondLater(State(sent), due.(status := QUEUED), c + 4, 2);
    r := OneMoreStep(sent, times, Consume(1, false, false));
    BackoffTable();
    TooSoon(times, c + 2005);
  }
}
