/** What a cancellation request achieves, and for how long. */
module Cancellation {
  import opened Jobs
  import opened RateLimiter
  import opened Protocol
  import opened PerJob
  import opened Ownership

  const LOSSES := {LosesRedis}

  /** The flag is up until `until`, or it has already done its work. */
  predicate Stopped(l: Loc, until: int) {
    (l.flag.Some? && until <= l.flag.value) || Has(l, CANCELLED)
  }

  lemma StoppedStep(clock: int, l: Loc, e: Event, until: int)
    requires Possible(clock, l, e) && AtMostOneHolder(l) && Stopped(l, until)
    requires clock + 600000 >= until
    requires !e.Requeued? && !e.Redelivered? && !e.Lost?
    ensures Stopped(Apply(clock, l, e), until)
    ensures clock < until && e.Delivered? ==>
              e.gate == Cancelled && Has(Apply(clock, l, e), CANCELLED)
  {
  }

  lemma {:induction false} StaysStopped(s: Sys, r: Run, id: JobId)
    requires Valid(r) && Single(r, id) && Avoids(r, LOSSES)
    requires First(r) == Next(s, Cancel(id)) && AtMostOneHolder(Local(s, id))
    ensures AtMostOneHolder(Local(State(r), id))
    ensures Stopped(Local(State(r), id), s.clock + 600000)
  {
    assert Local(First(r), id) == Local(s, id).(flag := Some(s.clock + 600000));
    match r
    case Start(_) =>
    case Then(past, step) =>
      StaysStopped(s, past, id);
      ClockAdvances(past);
      StepIsEvent(State(past), step, id);
      OnlyLossLoses(State(past), step, id);
      AtMostOneHolderStep(State(past).clock, Local(State(past), id), EventOf(State(past), step, id));
      StoppedStep(State(past).clock, Local(State(past), id), EventOf(State(past), step, id), s.clock + 600000);
  }

  /** After a cancellation at t, no step before t + 600000 runs the job, and a delivery before then cancels it. */
  lemma CancelledUntilExpiry(s: Sys, past: Run, step: Step, id: JobId)
    requires Valid(Then(past, step)) && Single(Then(past, step), id) && Avoids(Then(past, step), LOSSES)
    requires First(past) == Next(s, Cancel(id)) && AtMostOneHolder(Local(s, id))
    requires State(past).clock < s.clock + 600000
    ensures !Executes(State(past), step, id)
    ensures step.Consume? && step.id == id ==> Has(Local(Next(State(past), step), id), CANCELLED)
  {
    StaysStopped(s, past, id);
    ClockAdvances(past);
    StepIsEvent(State(past), step, id);
    OnlyLossLoses(State(past), step, id);
    StoppedStep(State(past).clock, Local(State(past), id), EventOf(State(past), step, id), s.clock + 600000);
  }

  /** Such a delivery settles it: on every continuation the job stays CANCELLED. */
  lemma CancelledForGood(s: Sys, past: Run, step: Step, r: Run, id: JobId)
    requires Valid(Then(past, step)) && Single(Then(past, step), id) && Avoids(Then(past, step), LOSSES)
    requires First(past) == Next(s, Cancel(id)) && AtMostOneHolder(Local(s, id))
    requires State(past).clock < s.clock + 600000
    requires step.Consume? && step.id == id
    requires Valid(r) && Single(r, id) && First(r) == Next(State(past), step)
    ensures Has(Local(State(r), id), CANCELLED)
  {
    var l := Local(State(past), id);
    CancelledUntilExpiry(s, past, step, id);
    StaysStopped(s, past, id);
    StepIsEvent(State(past), step, id);
    OnlyLossLoses(State(past), step, id);
    AtMostOneHolderStep(State(past).clock, l, EventOf(State(past), step, id));
    assert Has(Local(First(r), id), CANCELLED);
    TerminalIsAbsorbing(r, id);
  }

  // ----- a request only reaches jobs that are delivered within its ten minutes

  predicate NoFurtherCancel(r: Run, id: JobId) {
    match r
    case Start(_) => true
    case Then(past, step) => step != Cancel(id) && NoFurtherCancel(past, id)
  }

  lemma OneRequestStep(clock: int, l: Loc, e: Event, until: int)
    requires Possible(clock, l, e) && AtMostOneHolder(l) && Stopped(l, until)
    requires l.flag in {None, Some(until)}
    requires e.Delivered? && l.row.Some?
    ensures Has(Apply(clock, l, e), CANCELLED) <==> clock < until
  {
  }

  lemma {:induction false} FlagIsTheRequest(s: Sys, r: Run, id: JobId)
    requires Valid(r) && NoFurtherCancel(r, id)
    requires First(r) == Next(s, Cancel(id))
    ensures Local(State(r), id).flag in {None, Some(s.clock + 600000)}
  {
    match r
    case Start(_) =>
    case Then(past, step) =>
      FlagIsTheRequest(s, past, id);
      StepIsEvent(State(past), step, id);
      assert !EventOf(State(past), step, id).Flag?;
  }

  lemma BeforeDelivery(s: Sys, past: Run, id: JobId)
    requires Valid(past) && Single(past, id) && Avoids(past, LOSSES) && NoFurtherCancel(past, id)
    requires First(past) == Next(s, Cancel(id)) && AtMostOneHolder(Local(s, id))
    ensures var l := Local(State(past), id);
            && AtMostOneHolder(l) && Stopped(l, s.clock + 600000)
            && l.flag in {None, Some(s.clock + 600000)}
  {
    StaysStopped(s, past, id);
    FlagIsTheRequest(s, past, id);
  }

  lemma DeliveryNow(now: Sys, step: Step, id: JobId, until: int)
    requires Enabled(now, step) && step.Consume? && step.id == id && id in now.rows
    requires AtMostOneHolder(Local(now, id)) && Stopped(Local(now, id), until)
    requires Local(now, id).flag in {None, Some(until)}
    ensures id in Next(now, step).rows
    ensures Next(now, step).rows[id].status == CANCELLED <==> now.clock < until
  {
    StepIsEvent(now, step, id);
    OneRequestStep(now.clock, Local(now, id), EventOf(now, step, id), until);
    assert Local(Next(now, step), id).row.Some?;
  }

  /** One request at t, one delivery: the delivery ends in CANCELLED if and only if it comes before t + 600000. */
  lemma DeliveryCancelsIff(s: Sys, past: Run, step: Step, id: JobId)
    requires Valid(Then(past, step)) && Single(past, id) && Avoids(past, LOSSES) && NoFurtherCancel(past, id)
    requires First(past) == Next(s, Cancel(id)) && AtMostOneHolder(Local(s, id))
    requires step.Consume? && step.id == id && id in State(past).rows
    ensures Next(State(past), step).rows[id].status == CANCELLED <==> State(past).clock < s.clock + 600000
  {
    BeforeDelivery(s, past, id);
    DeliveryNow(State(past), step, id, s.clock + 600000);
  }

  lemma LateState(s: Sys)
    requires s == Next(Next(Next(Boot(0), Create(1, "API", None)), Cancel(1)), Tick(600000))
    ensures var step := Consume(1, false, true);
            Enabled(s, step) && Executes(s, step, 1) && Has(Local(Next(s, step), 1), COMPLETED)
  {
    assert s.rows == map[1 := Job("API", QUEUED, 0, 0, None)];
    assert Trim({}, 600000) == {} && GateOf(s, 1, false) == Executed;
  }

  /** A job that is cancelled while its message waits, and delivered ten minutes later, is run. */
  lemma LateDeliveryRuns()
    ensures var past := Then(Then(Then(Start(Boot(0)), Create(1, "API", None)), Cancel(1)), Tick(600000));
            var step := Consume(1, false, true);
            && Booted(Then(past, step)) && Executes(State(past), step, 1)
            && Has(Local(Next(State(past), step), 1), COMPLETED)
  {
    var start := Start(Boot(0));
    assert State(start) == First(start) == Boot(0) && Valid(start);
    var created := Then(start, Create(1, "API", None));
    Extend(start, created.step);
    var cancelled := Then(created, Cancel(1));
    Extend(created, cancelled.step);
    var past := Then(cancelled, Tick(600000));
    Extend(cancelled, past.step);
    LateState(State(past));
    Extend(past, Consume(1, false, true));
  }
}
