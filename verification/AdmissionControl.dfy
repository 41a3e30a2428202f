/** The rate limiter and the circuit breaker inside whole runs, against the history of what they let through. */
module AdmissionControl {
  import opened FiniteSets
  import opened Jobs
  import opened RateLimiter
  import opened Protocol

  /** The step delivers a job of type `typ`. */
  predicate DeliversType(s: Sys, step: Step, typ: JobType) {
    step.Consume? && step.id in s.rows && s.rows[step.id].typ == typ
  }

  // ----- rate limiter

  /** The delivery got past the rate limiter. */
  predicate Admits(s: Sys, step: Step, typ: JobType) {
    DeliversType(s, step, typ) && GateOf(s, step.id, step.evicted) in {CircuitOpen, NotQueued, Executed}
  }

  /** The instants of all admissions of one type, since Redis last came up empty. */
  function Admissions(r: Run, typ: JobType): seq<int> {
    match r
    case Start(_) => []
    case Then(past, step) =>
      if step.RedisLoss? then []
      else if Admits(State(past), step, typ) then Admissions(past, typ) + [State(past).clock]
      else Admissions(past, typ)
  }

  lemma AgreesLater(window: Option<Window>, history: seq<int>, last: int, now: int)
    requires Agrees(window, history, last) && last <= now
    ensures Agrees(window, history, now)
  {
    assert Recent(history, now) <= Recent(history, last);
  }

  lemma OtherStepsKeepWindow(s: Sys, step: Step, typ: JobType)
    requires Enabled(s, step) && !step.RedisLoss?
    requires !DeliversType(s, step, typ)
    ensures WindowOf(Next(s, step), typ) == WindowOf(s, typ)
  {
  }

  /** What one delivery of the type does to its window. */
  lemma DeliveryOnWindow(s: Sys, step: Step, typ: JobType)
    requires Enabled(s, step) && DeliversType(s, step, typ)
    ensures WindowOf(Next(s, step), typ) ==
            if Flagged(s, step.id) then WindowOf(s, typ) else Limit(s, typ, step.evicted).window
    ensures Admits(s, step, typ) <==> !Flagged(s, step.id) && Limit(s, typ, step.evicted).admitted
  {
  }

  lemma CallKeepsAgreement(window: Option<Window>, history: seq<int>, now: int, evicted: bool)
    requires Agrees(window, history, now) && Throttled(history, 5) && 0 <= now
    requires evicted ==> Evictable(window, now)
    ensures var v := Allow(window, now, 5, evicted);
            var longer := if v.admitted then history + [now] else history;
            Agrees(v.window, longer, now) && Throttled(longer, 5)
  {
    AllowRefinesHistory(window, history, now, now, 5, evicted);
    if |Recent(history, now)| < 5 {
      ThrottledExtends(history, now, 5);
    }
  }

  /** The window of the type, its history and the clock, at one point of a run. */
  ghost predicate WindowSound(s: Sys, typ: JobType, history: seq<int>) {
    && 0 <= s.clock && Agrees(WindowOf(s, typ), history, s.clock) && Throttled(history, 5)
  }

  lemma DeliveryKeepsWindow(s: Sys, step: Step, typ: JobType, history: seq<int>)
    requires Enabled(s, step) && WindowSound(s, typ, history) && DeliversType(s, step, typ)
    ensures WindowSound(Next(s, step), typ, if Admits(s, step, typ) then history + [s.clock] else history)
  {
    DeliveryOnWindow(s, step, typ);
    if !Flagged(s, step.id) {
      CallKeepsAgreement(WindowOf(s, typ), history, s.clock, step.evicted);
    }
  }

  lemma OtherStepKeepsWindow(s: Sys, step: Step, typ: JobType, history: seq<int>)
    requires Enabled(s, step) && WindowSound(s, typ, history) && !DeliversType(s, step, typ) && !step.RedisLoss?
    ensures WindowSound(Next(s, step), typ, history)
  {
    OtherStepsKeepWindow(s, step, typ);
    AgreesLater(WindowOf(s, typ), history, s.clock, Next(s, step).clock);
  }

  lemma {:induction false} WindowAgrees(r: Run, typ: JobType)
    requires Booted(r)
    ensures WindowSound(State(r), typ, Admissions(r, typ))
  {
    match r
    case Start(_) =>
    case Then(past, step) =>
      var s := State(past);
      WindowAgrees(past, typ);
      if DeliversType(s, step, typ) {
        DeliveryKeepsWindow(s, step, typ, Admissions(past, typ));
      } else if !step.RedisLoss? {
        OtherStepKeepsWindow(s, step, typ, Admissions(past, typ));
      }
  }

  /** On every run the gate turns a delivery away for its rate exactly when the job is not cancelled and five
      distinct admission instants of its type lie in the last second; whether the key had expired is immaterial. */
  lemma RateGateMatchesHistory(past: Run, step: Step, typ: JobType)
    requires Booted(Then(past, step)) && DeliversType(State(past), step, typ)
    ensures GateOf(State(past), step.id, step.evicted) == RateLimited <==>
            !Flagged(State(past), step.id) && 5 <= |Recent(Admissions(past, typ), State(past).clock)|
  {
    WindowAgrees(past, typ);
    var s := State(past);
    AllowRefinesHistory(WindowOf(s, typ), Admissions(past, typ), s.clock, s.clock, 5, step.evicted);
  }

  /** At every point of every run: bursts of deliveries keep the documented five requests per second if and only if
      every millisecond of the last second admitted one request only, and four or five of them did. */
  lemma DocumentedRateKeptIff(r: Run, typ: JobType)
    requires Booted(r)
    ensures var history, now := Admissions(r, typ), State(r).clock;
            (forall calls: nat ::
               Requests(history, now) + Burst(WindowOf(State(r), typ), now, 5, calls) <= 5) <==>
            && Requests(history, now) == |Recent(history, now)|
            && (|Recent(history, now)| == 5 || (|Recent(history, now)| == 4 && now !in Recent(history, now)))
  {
    WindowAgrees(r, typ);
    BurstWithinLimitIff(WindowOf(State(r), typ), Admissions(r, typ), State(r).clock, State(r).clock, 5);
  }

  /** The instants at which any executor of the type was run. */
  function TypeExecutions(r: Run, typ: JobType): seq<int> {
    match r
    case Start(_) => []
    case Then(past, step) =>
      if Runs(State(past), step, typ) then TypeExecutions(past, typ) + [State(past).clock]
      else TypeExecutions(past, typ)
  }

  predicate Runs(s: Sys, step: Step, typ: JobType) {
    DeliversType(s, step, typ) && GateOf(s, step.id, step.evicted) == Executed
  }

  lemma {:induction false} ExecutionsAreAdmitted(r: Run, typ: JobType, t: int)
    requires Valid(r) && Avoids(r, {LosesRedis}) && t in TypeExecutions(r, typ)
    ensures t in Admissions(r, typ)
  {
    match r
    case Start(_) =>
    case Then(past, step) =>
      if t in TypeExecutions(past, typ) {
        ExecutionsAreAdmitted(past, typ, t);
      }
  }

  /** In any window of one second, wherever it ends, a type is executed at no more than five distinct instants. */
  lemma ExecutionRateBound(r: Run, typ: JobType, end: int)
    requires Booted(r) && Avoids(r, {LosesRedis})
    ensures |Recent(TypeExecutions(r, typ), end)| <= 5
  {
    WindowAgrees(r, typ);
    WindowBound(Admissions(r, typ), 5, end);
    forall t | t in Recent(TypeExecutions(r, typ), end)
      ensures t in Recent(Admissions(r, typ), end)
    {
      ExecutionsAreAdmitted(r, typ, t);
    }
    SubsetSize(Recent(TypeExecutions(r, typ), end), Recent(Admissions(r, typ), end));
  }

  // ----- circuit breaker

  datatype Attempt = Attempt(at: int, ok: bool)

  /** The executions of one type since the process started or an admin last reset its circuit. */
  function Attempts(r: Run, typ: JobType): seq<Attempt> {
    match r
    case Start(_) => []
    case Then(past, step) =>
      if step == ResetCircuit(typ) then []
      else if Runs(State(past), step, typ) then Attempts(past, typ) + [Attempt(State(past).clock, step.ok)]
      else Attempts(past, typ)
  }

  /** The length of the run of failures at the end of a history. */
  function Trailing(history: seq<Attempt>): nat {
    if history == [] || history[|history| - 1].ok then 0 else 1 + Trailing(history[..|history| - 1])
  }

  /** After five failures in a row, the next attempt waits for 30 s. */
  ghost predicate Cooled(history: seq<Attempt>) {
    history == [] ||
    (var past, last := history[..|history| - 1], history[|history| - 1];
     && Cooled(past)
     && (5 <= Trailing(past) ==> past[|past| - 1].at + 30000 <= last.at))
  }

  ghost predicate BreakerAgrees(b: Breakers, typ: JobType, clock: int, history: seq<Attempt>) {
    && b.Failures(typ) == Trailing(history)
    && (b.Open(typ) ==> 5 <= Trailing(history))
    && (0 < Trailing(history) ==> b.LastFailure(typ) == history[|history| - 1].at)
    && (5 <= Trailing(history) && !b.Open(typ) ==>
          b.LastFailure(typ) + 30000 <= clock)
  }

  /** What passing the rate limiter does to the breaker of the type. */
  lemma GateOnBreaker(b: Breakers, typ: JobType, gate: Gate, ok: bool, now: int, history: seq<Attempt>)
    requires gate in {CircuitOpen, NotQueued, Executed}
    requires gate == CircuitOpen <==> Rejecting(b, typ, now)
    requires BreakerAgrees(b, typ, now, history) && Cooled(history)
    ensures var longer := if gate == Executed then history + [Attempt(now, ok)] else history;
            BreakerAgrees(AfterGate(b, typ, gate, ok, now), typ, now, longer) && Cooled(longer)
  {
    assert (history + [Attempt(now, ok)])[..|history|] == history;
  }

  lemma DeliveryOnBreaker(s: Sys, step: Step, typ: JobType)
    requires Enabled(s, step) && DeliversType(s, step, typ)
    ensures var gate := GateOf(s, step.id, step.evicted);
            && Next(s, step).clock == s.clock
            && (gate in {CircuitOpen, NotQueued, Executed} ==>
                  (gate == CircuitOpen <==> Rejecting(s.breakers, typ, s.clock)))
            && Next(s, step).breakers ==
               if gate in {CircuitOpen, NotQueued, Executed} then AfterGate(s.breakers, typ, gate, step.ok, s.clock)
               else s.breakers
  {
  }

  lemma OtherTypeKeepsBreaker(b: Breakers, other: JobType, gate: Gate, ok: bool, now: int, typ: JobType)
    requires other != typ
    ensures var after := AfterGate(b, other, gate, ok, now);
            && after.Failures(typ) == b.Failures(typ) && after.Open(typ) == b.Open(typ)
            && after.LastFailure(typ) == b.LastFailure(typ)
  {
  }

  lemma OtherStepsKeepBreaker(s: Sys, step: Step, typ: JobType)
    requires Enabled(s, step) && !DeliversType(s, step, typ) && step != ResetCircuit(typ)
    ensures var b := Next(s, step).breakers;
            && b.Failures(typ) == s.breakers.Failures(typ) && b.Open(typ) == s.breakers.Open(typ)
            && b.LastFailure(typ) == s.breakers.LastFailure(typ)
  {
    if step.Consume? && step.id in s.rows {
      var other := s.rows[step.id].typ;
      DeliveryOnBreaker(s, step, other);
      OtherTypeKeepsBreaker(s.breakers, other, GateOf(s, step.id, step.evicted), step.ok, s.clock, typ);
    }
  }

  /** The breaker of the type against its history, at one point of a run. */
  ghost predicate BreakerSound(s: Sys, typ: JobType, history: seq<Attempt>) {
    BreakerAgrees(s.breakers, typ, s.clock, history) && Cooled(history)
  }

  lemma DeliveryKeepsBreaker(s: Sys, step: Step, typ: JobType, history: seq<Attempt>)
    requires Enabled(s, step) && BreakerSound(s, typ, history) && DeliversType(s, step, typ)
    ensures BreakerSound(Next(s, step), typ,
                         if Runs(s, step, typ) then history + [Attempt(s.clock, step.ok)] else history)
  {
    var gate := GateOf(s, step.id, step.evicted);
    DeliveryOnBreaker(s, step, typ);
    if gate in {CircuitOpen, NotQueued, Executed} {
      GateOnBreaker(s.breakers, typ, gate, step.ok, s.clock, history);
    }
  }

  lemma OtherStepKeepsBreaker(s: Sys, step: Step, typ: JobType, history: seq<Attempt>)
    requires Enabled(s, step) && BreakerSound(s, typ, history) && !DeliversType(s, step, typ)
    ensures BreakerSound(Next(s, step), typ, if step == ResetCircuit(typ) then [] else history)
  {
    if step != ResetCircuit(typ) {
      OtherStepsKeepBreaker(s, step, typ);
    }
  }

  /** On every run the failure count is the number of failures since the last success or reset; an open circuit
      means at least five of them, and after the fifth no execution of the type starts for 30 s. */
  lemma {:induction false} BreakerMatchesHistory(r: Run, typ: JobType)
    requires Booted(r)
    ensures BreakerAgrees(State(r).breakers, typ, State(r).clock, Attempts(r, typ))
    ensures Cooled(Attempts(r, typ))
  {
    match r
    case Start(_) =>
    case Then(past, step) =>
      BreakerMatchesHistory(past, typ);
      if DeliversType(State(past), step, typ) {
        DeliveryKeepsBreaker(State(past), step, typ, Attempts(past, typ));
      } else {
        OtherStepKeepsBreaker(State(past), step, typ, Attempts(past, typ));
      }
  }

  /** Opening and half-opening: a delivery that the limiter admits is put off by the breaker exactly when the last
      attempts were five or more failures, the latest less than 30 s ago. */
  lemma CircuitGateMatchesHistory(past: Run, step: Step, typ: JobType)
    requires Booted(Then(past, step)) && Admits(State(past), step, typ)
    ensures var history := Attempts(past, typ);
            GateOf(State(past), step.id, step.evicted) == CircuitOpen <==>
            5 <= Trailing(history)
            && State(past).clock < history[|history| - 1].at + 30000
  {
    BreakerMatchesHistory(past, typ);
  }
}
