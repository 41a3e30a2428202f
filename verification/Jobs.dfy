/** The job row, its lifecycle states and the constants of the job queue. */
module Jobs {

  datatype Option<+T> = None | Some(value: T)

  type JobId = int
  type JobType = string

  datatype Status = PENDING | SCHEDULED | QUEUED | PROCESSING | COMPLETED | FAILED | RETRY | CANCELLED

  /** The columns of a job row that the lifecycle depends on. `nextRetryTime` is null until the first deferral. */
  datatype Job = Job(typ: JobType, status: Status, retryCount: nat, scheduleTime: int, nextRetryTime: Option<int>)

  const IMMEDIATE_THRESHOLD := 60000
  const WATCH_WINDOW := 20000
  const WATCH_GAP := 25000
  const WATCH_PAGE := 200
  const RECOVERY_WINDOW := 60000
  const RECOVERY_PAGE := 500
  const CANCEL_TTL := 600000
  const RATE_WINDOW := 1000
  const RATE_LIMIT := 5
  const RATE_DELAY := 2000
  const CIRCUIT_DELAY := 5000
  const CIRCUIT_TIMEOUT := 30000
  const FAILURE_THRESHOLD := 5
  const MAX_RETRY: nat := 5
  const MAX_BACKOFF := 20000

  function Pow2(n: nat): nat {
    if n == 0 then 1 else 2 * Pow2(n - 1)
  }

  function Min(a: int, b: int): int {
    if a <= b then a else b
  }

  /** The delay before the `attempt`-th retry. */
  function Backoff(attempt: nat): int {
    Min(Pow2(attempt) * 1000, MAX_BACKOFF)
  }

  /** The delays the documentation tabulates: 2, 4, 8, 16 and 20 seconds, 50 seconds in all. */
  lemma BackoffTable()
    ensures Backoff(1) == 2000 && Backoff(2) == 4000 && Backoff(3) == 8000
    ensures Backoff(4) == 16000 && Backoff(5) == 20000
  {
    assert Pow2(3) == 8;
    assert Pow2(5) == 32;
  }

  lemma {:induction false} BackoffRange(attempt: nat)
    requires 1 <= attempt
    ensures 2000 <= Backoff(attempt) <= MAX_BACKOFF
  {
    if attempt == 1 {
      assert Pow2(1) == 2;
    } else {
      BackoffRange(attempt - 1);
    }
  }

  predicate Terminal(status: Status) {
    status in {COMPLETED, FAILED, CANCELLED}
  }
}
