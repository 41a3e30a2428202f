/** Reconciliation and dispatch serve the overdue jobs in the order of their schedule times, whatever else goes on. */
module Fairness {
  import opened FiniteSets
  import opened Jobs
  import opened Protocol
  import opened PerJob
  import opened Ownership

  // ----- the jobs that can come before another one

  /** The job still has to be dispatched, and sorts at or before `key`. */
  predicate InMotion(l: Loc, key: int) {
    l.row.Some? && l.row.value.status in {PENDING, RETRY, SCHEDULED} && l.row.value.scheduleTime <= key
  }

  /** The next dispatch sends the job. */
  predicate ReadyNow(clock: int, l: Loc) {
    Has(l, SCHEDULED) && l.score.Some? && 0 <= l.score.value <= clock
  }

  /** The event delivers the job and puts it back into the line. */
  predicate SetsBack(clock: int, l: Loc, e: Event)
    requires Possible(clock, l, e)
  {
    e.Delivered? && Has(Apply(clock, l, e), RETRY)
  }

  /** Only a delivery adds to the line; and what is ready stays so until it is dispatched. */
  lemma MotionStep(clock: int, l: Loc, e: Event, later: int, key: int)
    requires Possible(clock, l, e) && Sound(clock, l) && !e.Lost? && key <= clock <= later
    ensures var after := Apply(clock, l, e);
            && (InMotion(after, key) && !SetsBack(clock, l, e) ==> InMotion(l, key) && !e.Leave?)
            && (InMotion(after, key) && !ReadyNow(later, after) && !SetsBack(clock, l, e) ==> !ReadyNow(clock, l))
  {
  }

  /** The other jobs in the line at or before `key`, and those of them that the next dispatch would leave there. */
  function Line(s: Sys, id: JobId, key: int): set<JobId> {
    set i | i in s.rows && i != id && InMotion(Local(s, i), key)
  }

  function Unready(s: Sys, id: JobId, key: int): set<JobId> {
    set i | i in Line(s, id, key) && !ReadyNow(s.clock, Local(s, i))
  }

  /** The job that a step puts back into the line. */
  function SetBack(s: Sys, step: Step, key: int): set<JobId> {
    if step.Consume? && step.id in s.rows && s.rows[step.id].scheduleTime <= key
       && Has(Local(Next(s, step), step.id), RETRY)
    then {step.id} else {}
  }

  function SetBacks(r: Run, key: int): nat {
    match r
    case Start(_) => 0
    case Then(past, step) => SetBacks(past, key) + |SetBack(State(past), step, key)|
  }

  /** A step that the job is not set back by. */
  lemma NotSetBack(s: Sys, step: Step, key: int, i: JobId)
    requires Enabled(s, step) && i !in SetBack(s, step, key)
    requires InMotion(Local(Next(s, step), i), key)
    ensures Possible(s.clock, Local(s, i), EventOf(s, step, i))
    ensures !SetsBack(s.clock, Local(s, i), EventOf(s, step, i))
  {
    StepIsEvent(s, step, i);
    if step.Consume? && step.id == i && i in s.rows {
      assert Local(Next(s, step), i).row.value.scheduleTime == s.rows[i].scheduleTime;
    }
  }

  lemma LineStep(s: Sys, step: Step, id: JobId, key: int, i: JobId)
    requires Enabled(s, step) && !step.RedisLoss? && key <= s.clock && Sound(s.clock, Local(s, i))
    requires i in Line(Next(s, step), id, key) && i !in SetBack(s, step, key)
    ensures i in Line(s, id, key)
    ensures i in Unready(Next(s, step), id, key) ==> i in Unready(s, id, key)
    ensures step.Dispatch? ==> i in Unready(s, id, key)
  {
    var l, e, after := Local(s, i), EventOf(s, step, i), Local(Next(s, step), i);
    NotSetBack(s, step, key, i);
    StepIsEvent(s, step, i);
    OnlyLossLoses(s, step, i);
    MotionStep(s.clock, l, e, Next(s, step).clock, key);
    assert InMotion(l, key) && l.row.Some?;
    if step.Dispatch? {
      assert ReadyNow(s.clock, l) ==> e.Leave?;
    }
  }

  /** No step but a delivery makes the line longer, and a dispatch takes all that was ready out of it. */
  lemma LineShrinks(s: Sys, step: Step, id: JobId, key: int)
    requires Enabled(s, step) && !step.RedisLoss? && key <= s.clock && AllSound(s)
    ensures var after, back := Next(s, step), SetBack(s, step, key);
            && Line(after, id, key) <= Line(s, id, key) + back
            && Unready(after, id, key) <= Unready(s, id, key) + back
            && (step.Dispatch? ==> Line(after, id, key) <= Unready(s, id, key) + back)
  {
    var after, back := Next(s, step), SetBack(s, step, key);
    forall i | i in Line(after, id, key) && i !in back
      ensures i in Line(s, id, key)
      ensures i in Unready(after, id, key) ==> i in Unready(s, id, key)
      ensures step.Dispatch? ==> i in Unready(s, id, key)
    {
      assert Sound(s.clock, Local(s, i));
      LineStep(s, step, id, key, i);
    }
  }

  lemma LineSizes(s: Sys, step: Step, id: JobId, key: int)
    requires Enabled(s, step) && !step.RedisLoss? && key <= s.clock && AllSound(s)
    ensures var after, back := Next(s, step), SetBack(s, step, key);
            && |Line(after, id, key)| <= |Line(s, id, key)| + |back|
            && |Unready(after, id, key)| <= |Unready(s, id, key)| + |back|
            && (step.Dispatch? ==> |Line(after, id, key)| <= |Unready(s, id, key)| + |back|)
  {
    var after, back := Next(s, step), SetBack(s, step, key);
    LineShrinks(s, step, id, key);
    SubsetSize(Line(after, id, key), Line(s, id, key) + back);
    SubsetSize(Unready(after, id, key), Unready(s, id, key) + back);
    if step.Dispatch? {
      SubsetSize(Line(after, id, key), Unready(s, id, key) + back);
    }
  }

  // ----- a reconciliation

  /** A reconciliation that leaves an overdue job out makes 500 jobs in front of it ready. */
  lemma ReconcileReadies(s: Sys, page: set<JobId>, id: JobId)
    requires Enabled(s, ReconcileOverdue(page)) && AllSound(s)
    requires id in OverdueScheduled(s.rows, s.clock) - page
    ensures var key := s.rows[id].scheduleTime;
            |Unready(Next(s, ReconcileOverdue(page)), id, key)| + 500 <= |Line(s, id, key)|
  {
    var key, after := s.rows[id].scheduleTime, Next(s, ReconcileOverdue(page));
    forall i | i in page
      ensures i in Line(s, id, key) && i !in Unready(after, id, key)
    {
      assert id in OverdueScheduled(s.rows, s.clock) - page ==>
               SortKey(BySchedule, s.rows[i]) <= SortKey(BySchedule, s.rows[id]);
      assert Sound(s.clock, Local(s, i));
      StepIsEvent(s, ReconcileOverdue(page), i);
    }
    LineShrinks(s, ReconcileOverdue(page), id, key);
    SubsetSize(Unready(after, id, key), Line(s, id, key) - page);
  }

  // ----- rounds

  /** A reconciliation of the overdue jobs has come since the last dispatch. */
  predicate Armed(r: Run) {
    match r
    case Start(_) => false
    case Then(past, step) => step.ReconcileOverdue? || (Armed(past) && !step.Dispatch?)
  }

  /** The dispatches that were each preceded by a reconciliation of their own. */
  function RoundsIn(r: Run): nat {
    match r
    case Start(_) => 0
    case Then(past, step) => RoundsIn(past) + (if step.Dispatch? && Armed(past) then 1 else 0)
  }

  lemma {:induction false} AllSoundRun(r: Run)
    requires Valid(r) && AllSound(First(r))
    ensures AllSound(State(r))
  {
    match r
    case Start(_) =>
    case Then(past, step) =>
      AllSoundRun(past);
      forall i
        ensures Sound(State(r).clock, Local(State(r), i))
      {
        assert Sound(State(past).clock, Local(State(past), i));
        StepIsEvent(State(past), step, i);
        SoundStep(State(past).clock, Local(State(past), i), EventOf(State(past), step, i));
        assert State(past).clock <= State(r).clock;
      }
  }

  /** What the rounds so far have made of the line: 500 fewer for each, but for the jobs that were set back. Between
      reconciliation and dispatch the next 500 are ready already, if not the job itself. */
  ghost predicate Progress(r: Run, id: JobId, key: int) {
    var all := |Line(First(r), id, key)| + SetBacks(r, key);
    && |Line(State(r), id, key)| + 500 * RoundsIn(r) <= all
    && (Armed(r) ==>
          || ReadyNow(State(r).clock, Local(State(r), id))
          || |Unready(State(r), id, key)| + 500 * (RoundsIn(r) + 1) <= all)
  }

  /** As long as the row stays as it is, a ready job stays ready and is not dispatched. */
  lemma StaysReady(s: Sys, step: Step, id: JobId)
    requires Enabled(s, step) && !step.RedisLoss? && Sound(s.clock, Local(s, id))
    requires id in s.rows && id in Next(s, step).rows && Next(s, step).rows[id] == s.rows[id]
    requires ReadyNow(s.clock, Local(s, id))
    ensures ReadyNow(Next(s, step).clock, Local(Next(s, step), id)) && !step.Dispatch?
  {
    StepIsEvent(s, step, id);
    assert s.clock <= Next(s, step).clock;
    assert Local(Next(s, step), id).row == Local(s, id).row;
  }

  lemma ReconcileMakesReady(s: Sys, page: set<JobId>, id: JobId)
    requires Enabled(s, ReconcileOverdue(page)) && id in page && Sound(s.clock, Local(s, id))
    ensures ReadyNow(s.clock, Local(Next(s, ReconcileOverdue(page)), id))
  {
    StepIsEvent(s, ReconcileOverdue(page), id);
  }

  lemma ProgressStep(past: Run, step: Step, id: JobId, row: Job)
    requires Valid(past) && Enabled(State(past), step) && !step.RedisLoss? && AllSound(State(past))
    requires At(State(past).rows, id) == Some(row) == At(Next(State(past), step).rows, id)
    requires row.status == SCHEDULED && row.scheduleTime <= State(past).clock
    requires Progress(past, id, row.scheduleTime)
    ensures Progress(Then(past, step), id, row.scheduleTime)
  {
    var s, key := State(past), row.scheduleTime;
    Extend(past, step);
    LineSizes(s, step, id, key);
    assert Sound(s.clock, Local(s, id));
    if ReadyNow(s.clock, Local(s, id)) {
      StaysReady(s, step, id);
    }
    if step.ReconcileOverdue? {
      if id in step.page {
        ReconcileMakesReady(s, step.page, id);
      } else {
        ReconcileReadies(s, step.page, id);
      }
    }
  }

  /** An overdue SCHEDULED job with k jobs in the line at or before its schedule time, which is left as it is while
      c deliveries set jobs back into that line, sees at most (k + c)/500 rounds of reconciliation and dispatch,
      whatever steps come between and however time passes. */
  lemma {:induction false} OverdueIsServed(r: Run, id: JobId, row: Job)
    requires Valid(r) && Avoids(r, {LosesRedis}) && AllSound(First(r)) && KeepsRow(r, id, row)
    requires row.status == SCHEDULED && row.scheduleTime <= First(r).clock
    ensures Progress(r, id, row.scheduleTime)
    ensures RoundsIn(r) <= (|Line(First(r), id, row.scheduleTime)| + SetBacks(r, row.scheduleTime)) / 500
  {
    match r
    case Start(_) =>
    case Then(past, step) =>
      OverdueIsServed(past, id, row);
      AllSoundRun(past);
      ClockAdvances(past);
      ProgressStep(past, step, id, row);
  }

  /** A dispatch of the run sends the job. */
  predicate Sends(r: Run, id: JobId) {
    match r
    case Start(_) => false
    case Then(past, step) => EventOf(State(past), step, id).Leave? || Sends(past, id)
  }

  lemma UnsentStep(clock: int, l: Loc, e: Event)
    requires Possible(clock, l, e) && AtMostOneHolder(l) && Has(l, SCHEDULED)
    requires !e.Leave? && !e.Requeued? && !e.Redelivered?
    ensures Apply(clock, l, e).row == l.row
  {
  }

  lemma {:induction false} UnsentStays(r: Run, id: JobId, row: Job)
    requires Valid(r) && Single(r, id) && AtMostOneHolder(Local(First(r), id)) && !Sends(r, id)
    requires At(First(r).rows, id) == Some(row) && row.status == SCHEDULED
    ensures KeepsRow(r, id, row)
  {
    match r
    case Start(_) =>
    case Then(past, step) =>
      var s := State(past);
      UnsentStays(past, id, row);
      OneHolderRun(past, id);
      StepIsEvent(s, step, id);
      UnsentStep(s.clock, Local(s, id), EventOf(s, step, id));
      assert Local(State(r), id).row == Some(row);
  }

  /** An overdue SCHEDULED job that gets no second message has been dispatched after (k + c)/500 + 1 rounds. */
  lemma OverdueIsDispatched(r: Run, id: JobId, row: Job)
    requires Valid(r) && Avoids(r, {LosesRedis}) && AllSound(First(r))
    requires Single(r, id) && AtMostOneHolder(Local(First(r), id))
    requires At(First(r).rows, id) == Some(row) && row.status == SCHEDULED && row.scheduleTime <= First(r).clock
    requires (|Line(First(r), id, row.scheduleTime)| + SetBacks(r, row.scheduleTime)) / 500 < RoundsIn(r)
    ensures Sends(r, id)
  {
    if !Sends(r, id) {
      UnsentStays(r, id, row);
      OverdueIsServed(r, id, row);
      assert false;
    }
  }
}
