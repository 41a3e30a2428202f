/**
 The job lifecycle as one state and a set of atomic steps.

 A step is one service method, or one query-and-update phase of a method that runs several
 queries (the watcher, its gap recovery and the Redis reconciliation). The service classes are proved
 to perform these steps; claims about whole runs are proved over the runs declared at the end.
 */
module Protocol {
  import opened Jobs
  import opened WallClock
  import opened RateLimiter

  type Rows = map<JobId, Job>
  type Scores = map<JobId, int>

  /** The consumer's three maps. A missing entry means 0 failures, a closed circuit, last failure at 0. */
  datatype Breakers = Breakers(failures: map<JobType, int>, open: map<JobType, bool>, lastFailure: map<JobType, int>) {
    function Failures(typ: JobType): int { if typ in failures then failures[typ] else 0 }
    function Open(typ: JobType): bool { typ in open && open[typ] }
    function LastFailure(typ: JobType): int { if typ in lastFailure then lastFailure[typ] else 0 }
  }

  datatype Sys = Sys(
    clock: int,
    rows: Rows,                        // MySQL
    zset: Scores,                      // Redis: the delay queue
    flags: map<JobId, int>,            // Redis: cancellation flags with the instant they expire
    windows: map<JobType, Window>,     // Redis: rate limiter keys
    lastRun: Option<int>,              // Redis: the watcher's heartbeat
    pending: multiset<JobId>,          // Kafka: messages not yet acknowledged
    sent: set<JobId>,                  // Kafka: ids that were ever produced
    breakers: Breakers                 // memory of the consumer
  )

  function Boot(clock: int): Sys {
    Sys(clock, map[], map[], map[], map[], None, multiset{}, {}, Breakers(map[], map[], map[]))
  }

  // ----- repository queries

  datatype Order = BySchedule | ByRetryTime | Unordered

  function SortKey(order: Order, job: Job): int {
    match order
    case BySchedule => job.scheduleTime
    case ByRetryTime => if job.nextRetryTime.Some? then job.nextRetryTime.value else 0
    case Unordered => 0
  }

  function PendingWindow(rows: Rows, lo: int, hi: int): set<JobId> {
    set i | i in rows && rows[i].status == PENDING && lo <= rows[i].scheduleTime <= hi
  }

  function RetryWindow(rows: Rows, lo: int, hi: int): set<JobId> {
    set i | i in rows && rows[i].status == RETRY && rows[i].nextRetryTime.Some?
            && lo <= rows[i].nextRetryTime.value <= hi
  }

  function PendingOrScheduledInRange(rows: Rows, lo: int, hi: int): set<JobId> {
    set i | i in rows && rows[i].status in {PENDING, SCHEDULED} && lo <= rows[i].scheduleTime <= hi
  }

  function OverdueScheduled(rows: Rows, now: int): set<JobId> {
    set i | i in rows && rows[i].status == SCHEDULED && rows[i].scheduleTime <= now
  }

  function RetryDue(rows: Rows, now: int): set<JobId> {
    set i | i in rows && rows[i].status == RETRY && rows[i].nextRetryTime.Some? && rows[i].nextRetryTime.value <= now
  }

  /** `page` is a first page of `limit` of the matching ids in the query's order (ties in any order). */
  ghost predicate IsPage(rows: Rows, matching: set<JobId>, order: Order, limit: nat, page: set<JobId>) {
    && page <= matching <= rows.Keys
    && |page| <= limit
    && (|page| < limit ==> page == matching)
    && forall p, q :: p in page && q in matching - page ==> SortKey(order, rows[p]) <= SortKey(order, rows[q])
  }

  // ----- batches over a page

  function MarkScheduled(rows: Rows, page: set<JobId>): Rows {
    map i | i in rows :: if i in page then rows[i].(status := SCHEDULED) else rows[i]
  }

  function AddBySchedule(rows: Rows, zset: Scores, page: set<JobId>): Scores {
    map i | i in zset.Keys + page * rows.Keys :: if i in page * rows.Keys then rows[i].scheduleTime else zset[i]
  }

  function AddByRetryTime(rows: Rows, zset: Scores, page: set<JobId>): Scores {
    map i | i in zset.Keys + page * rows.Keys ::
      if i in page * rows.Keys then SortKey(ByRetryTime, rows[i]) else zset[i]
  }

  // ----- dispatch

  /** ZRANGEBYSCORE key 0 now */
  function Ready(zset: Scores, now: int): set<JobId> {
    set i | i in zset && 0 <= zset[i] <= now
  }

  predicate Dispatchable(rows: Rows, id: JobId) {
    id in rows && rows[id].status == SCHEDULED
  }

  function MarkQueued(rows: Rows, ids: set<JobId>): Rows {
    map i | i in rows :: if i in ids && rows[i].status == SCHEDULED then rows[i].(status := QUEUED) else rows[i]
  }

  function Dispatched(rows: Rows, ids: set<JobId>): set<JobId> {
    set i | i in ids && Dispatchable(rows, i)
  }

  function Remove(zset: Scores, ids: set<JobId>): Scores {
    map i | i in zset && i !in ids :: zset[i]
  }

  // ----- creation

  function ScheduleTime(now: int, time: Option<TimeOfDay>): int {
    if time.None? then now else NextOccurrence(now, time.value)
  }

  predicate Immediate(now: int, time: Option<TimeOfDay>) {
    ScheduleTime(now, time) - now <= IMMEDIATE_THRESHOLD
  }

  function NewJob(typ: JobType, now: int, time: Option<TimeOfDay>): Job {
    Job(typ, if Immediate(now, time) then QUEUED else PENDING, 0, ScheduleTime(now, time), None)
  }

  // ----- delivery of one message

  /** Which way a delivery goes; the gates are tried in this order. */
  datatype Gate = NoJob | Cancelled | RateLimited | CircuitOpen | NotQueued | Executed

  predicate Flagged(s: Sys, id: JobId) {
    id in s.flags && s.clock < s.flags[id]
  }

  function WindowOf(s: Sys, typ: JobType): Option<Window> {
    if typ in s.windows then Some(s.windows[typ]) else None
  }

  function Limit(s: Sys, typ: JobType, evicted: bool): Verdict {
    Allow(WindowOf(s, typ), s.clock, RATE_LIMIT, evicted)
  }

  predicate Rejecting(b: Breakers, typ: JobType, now: int) {
    b.Open(typ) && now - b.LastFailure(typ) < CIRCUIT_TIMEOUT
  }

  function GateOf(s: Sys, id: JobId, evicted: bool): Gate {
    if id !in s.rows then NoJob
    else if Flagged(s, id) then Cancelled
    else if !Limit(s, s.rows[id].typ, evicted).admitted then RateLimited
    else if Rejecting(s.breakers, s.rows[id].typ, s.clock) then CircuitOpen
    else if s.rows[id].status != QUEUED then NotQueued
    else Executed
  }

  /** The row after a delivery at `now`; `ok` is what the executor would do. */
  function AfterDelivery(job: Job, gate: Gate, ok: bool, now: int): Job {
    match gate
    case NoJob => job
    case Cancelled => job.(status := CANCELLED)
    case RateLimited => job.(status := RETRY, nextRetryTime := Some(now + RATE_DELAY))
    case CircuitOpen => job.(status := RETRY, nextRetryTime := Some(now + CIRCUIT_DELAY))
    case NotQueued => job
    case Executed =>
      if ok then job.(status := COMPLETED)
      else if job.retryCount >= MAX_RETRY then job.(status := FAILED)
      else job.(status := RETRY, retryCount := job.retryCount + 1,
                nextRetryTime := Some(now + Backoff(job.retryCount + 1)))
  }

  function StoreWindow(windows: map<JobType, Window>, typ: JobType, window: Option<Window>): map<JobType, Window> {
    if window.Some? then windows[typ := window.value] else windows - {typ}
  }

  /** The breaker after a delivery that passed the rate limiter. */
  function AfterGate(b: Breakers, typ: JobType, gate: Gate, ok: bool, now: int): Breakers {
    var half := if gate != CircuitOpen && b.Open(typ) then b.(open := b.open[typ := false]) else b;
    if gate != Executed then half
    else if ok then half.(failures := half.failures[typ := 0])
    else
      var count := half.Failures(typ) + 1;
      Breakers(half.failures[typ := count],
               if count >= FAILURE_THRESHOLD then half.open[typ := true] else half.open,
               half.lastFailure[typ := now])
  }

  /** One message for `id` is consumed and acknowledged. */
  function Deliver(s: Sys, id: JobId, evicted: bool, ok: bool): Sys {
    var gate := GateOf(s, id, evicted);
    s.(pending := s.pending - multiset{id},
       rows := if gate == NoJob then s.rows else s.rows[id := AfterDelivery(s.rows[id], gate, ok, s.clock)],
       flags := if gate == Cancelled then s.flags - {id} else s.flags,
       windows := if gate in {NoJob, Cancelled} then s.windows else
         StoreWindow(s.windows, s.rows[id].typ, Limit(s, s.rows[id].typ, evicted).window),
       breakers := if gate in {NoJob, Cancelled, RateLimited} then s.breakers else
         AfterGate(s.breakers, s.rows[id].typ, gate, ok, s.clock))
  }

  // ----- steps

  datatype Step =
    | Tick(to: int)
    | Create(id: JobId, typ: JobType, time: Option<TimeOfDay>)
    | Cancel(id: JobId)
    | Heartbeat
    | ScheduleWindow(page: set<JobId>)      // watch, PENDING jobs
    | ScheduleRetries(page: set<JobId>)     // watch, RETRY jobs
    | RecoverScheduled(page: set<JobId>)    // gap recovery, PENDING and SCHEDULED jobs
    | RecoverRetries(page: set<JobId>)      // gap recovery, RETRY jobs
    | ReconcileOverdue(page: set<JobId>)    // admin reconcile, SCHEDULED jobs
    | ReconcileRetries(page: set<JobId>)    // admin reconcile, RETRY jobs
    | Dispatch
    | Consume(id: JobId, evicted: bool, ok: bool)
    | ResetCircuit(typ: JobType)
    | Requeue(id: JobId)                    // admin requeue
    | Redeliver(id: JobId)                  // environment: Kafka delivers a message again
    | RedisLoss                             // environment: Redis comes back empty

  ghost predicate Enabled(s: Sys, step: Step) {
    match step
    case Tick(to) => s.clock <= to
    case Create(id, _, time) => id !in s.rows && (time.Some? ==> time.value.Valid())
    case ScheduleWindow(page) =>
      IsPage(s.rows, PendingWindow(s.rows, 0, s.clock + WATCH_WINDOW), BySchedule, WATCH_PAGE, page)
    case ScheduleRetries(page) =>
      IsPage(s.rows, RetryWindow(s.rows, 0, s.clock + WATCH_WINDOW), ByRetryTime, WATCH_PAGE, page)
    case RecoverScheduled(page) =>
      IsPage(s.rows, PendingOrScheduledInRange(s.rows, s.clock - RECOVERY_WINDOW, s.clock),
             Unordered, RECOVERY_PAGE, page)
    case RecoverRetries(page) =>
      IsPage(s.rows, RetryWindow(s.rows, s.clock - RECOVERY_WINDOW, s.clock), Unordered, RECOVERY_PAGE, page)
    case ReconcileOverdue(page) =>
      IsPage(s.rows, OverdueScheduled(s.rows, s.clock), BySchedule, RECOVERY_PAGE, page)
    case ReconcileRetries(page) =>
      IsPage(s.rows, RetryDue(s.rows, s.clock), ByRetryTime, RECOVERY_PAGE, page)
    case Consume(id, evicted, _) =>
      id in s.pending && (evicted && id in s.rows ==> Evictable(WindowOf(s, s.rows[id].typ), s.clock))
    case Redeliver(id) => id in s.sent
    case _ => true
  }

  predicate Requeueable(s: Sys, id: JobId) {
    id in s.rows && s.rows[id].status !in {COMPLETED, CANCELLED}
  }

  function Send(s: Sys, id: JobId): Sys {
    s.(pending := s.pending + multiset{id}, sent := s.sent + {id})
  }

  function ScheduleBatch(s: Sys, page: set<JobId>): Sys {
    s.(rows := MarkScheduled(s.rows, page), zset := AddBySchedule(s.rows, s.zset, page))
  }

  function RetryBatch(s: Sys, page: set<JobId>): Sys {
    s.(rows := MarkScheduled(s.rows, page), zset := AddByRetryTime(s.rows, s.zset, page))
  }

  function Next(s: Sys, step: Step): Sys {
    match step
    case Tick(to) => s.(clock := to)
    case Create(id, typ, time) =>
      var saved := s.(rows := s.rows[id := NewJob(typ, s.clock, time)]);
      if Immediate(s.clock, time) then Send(saved, id) else saved
    case Cancel(id) => s.(flags := s.flags[id := s.clock + CANCEL_TTL])
    case Heartbeat => s.(lastRun := Some(s.clock))
    case ScheduleWindow(page) => ScheduleBatch(s, page)
    case ScheduleRetries(page) => RetryBatch(s, page)
    case RecoverScheduled(page) => ScheduleBatch(s, page)
    case RecoverRetries(page) => RetryBatch(s, page)
    case ReconcileOverdue(page) => s.(zset := AddBySchedule(s.rows, s.zset, page))
    case ReconcileRetries(page) => RetryBatch(s, page)
    case Dispatch =>
      var ready := Ready(s.zset, s.clock);
      var out := Dispatched(s.rows, ready);
      s.(rows := MarkQueued(s.rows, ready), zset := Remove(s.zset, ready),
         pending := s.pending + multiset(out), sent := s.sent + out)
    case Consume(id, evicted, ok) => Deliver(s, id, evicted, ok)
    case ResetCircuit(typ) =>
      var b := s.breakers;
      s.(breakers := Breakers(b.failures[typ := 0], b.open[typ := false], b.lastFailure[typ := 0]))
    case Requeue(id) =>
      if Requeueable(s, id) then Send(s.(rows := s.rows[id := s.rows[id].(status := QUEUED)]), id) else s
    case Redeliver(id) => s.(pending := s.pending + multiset{id})
    case RedisLoss => s.(zset := map[], flags := map[], windows := map[], lastRun := None)
  }

  // ----- runs

  /** A run: where it started and the steps taken since. */
  datatype Run = Start(s: Sys) | Then(past: Run, step: Step)

  ghost predicate Valid(r: Run) {
    match r
    case Start(_) => true
    case Then(past, step) => Valid(past) && Enabled(State(past), step)
  }

  function State(r: Run): Sys {
    match r
    case Start(s) => s
    case Then(past, step) => Next(State(past), step)
  }

  function First(r: Run): Sys {
    match r
    case Start(s) => s
    case Then(past, _) => First(past)
  }

  /** A run of a system that came up empty at some instant after the epoch. */
  ghost predicate Booted(r: Run) {
    Valid(r) && First(r) == Boot(First(r).clock) && 0 <= First(r).clock
  }

  /** The steps of `r`, taken after those of `base`. */
  function Append(base: Run, r: Run): Run {
    match r
    case Start(_) => base
    case Then(past, step) => Then(Append(base, past), step)
  }

  lemma {:induction false} AppendRuns(base: Run, r: Run)
    requires Valid(base) && Valid(r) && First(r) == State(base)
    ensures var whole := Append(base, r);
            Valid(whole) && State(whole) == State(r) && First(whole) == First(base)
  {
    match r
    case Start(_) =>
    case Then(past, _) => AppendRuns(base, past);
  }

  /** What a step stands for when a claim is about runs without it. */
  datatype Kind = Recovers | Reconciles | Requeues | Redelivers | LosesRedis | Other

  function KindOf(step: Step): Kind {
    match step
    case RecoverScheduled(_) => Recovers
    case RecoverRetries(_) => Recovers
    case ReconcileOverdue(_) => Reconciles
    case ReconcileRetries(_) => Reconciles
    case Requeue(_) => Requeues
    case Redeliver(_) => Redelivers
    case RedisLoss => LosesRedis
    case _ => Other
  }

  predicate Avoids(r: Run, banned: set<Kind>) {
    match r
    case Start(_) => true
    case Then(past, step) => KindOf(step) !in banned && Avoids(past, banned)
  }

  lemma Extend(past: Run, step: Step)
    requires Valid(past) && Enabled(State(past), step)
    ensures var r := Then(past, step);
            Valid(r) && State(r) == Next(State(past), step) && First(r) == First(past)
  {
  }

  /** The clock never runs backwards. */
  lemma {:induction false} ClockAdvances(r: Run)
    requires Valid(r)
    ensures First(r).clock <= State(r).clock
  {
    match r
    case Start(_) =>
    case Then(past, step) => ClockAdvances(past);
  }
}
