/** The rows of Sluice's tables and the vocabulary shared by every module.
    UUIDs are natural numbers, `Time` counts milliseconds of the one clock that
    both the Go processes (`time.Now()`) and Postgres (`NOW()`) read. */
module Types {
  type Id = nat
  type Time = int

  const SECOND: int := 1000

  datatype Option<+T> = None | Some(value: T) {
    function Or(default: T): T { if Some? then value else default }
  }

  datatype JobState = Pending | Scheduled | Claimed | Running | Succeeded | Failed | Dead {
    predicate InFlight() { Claimed? || Running? }

    predicate Terminal() { Succeeded? || Dead? }
  }

  datatype Job = Job(
    tenant: Id,
    priority: int,
    state: JobState,
    runAt: Time,
    claimedAt: Option<Time>,
    claimedBy: Option<Id>,
    token: Option<Id>,
    deadline: Option<Time>,
    attempt: int,
    maxRetries: int,
    backoff: int,
    key: Option<string>,
    lastError: Option<string>,
    createdAt: Time,
    completedAt: Option<Time>)

  /** One row of `job_runs`; a run is open while `finishedAt` is null. */
  datatype Run = Run(
    job: Id,
    tenant: Id,
    attempt: int,
    startedAt: Time,
    finishedAt: Option<Time>,
    state: JobState,
    error: Option<string>)

  datatype Letter = Letter(tenant: Id, finalError: Option<string>, attemptCount: int, original: Job)

  function Max(a: int, b: int): int { if a < b then b else a }

  function Min(a: int, b: int): int { if a < b then a else b }
}
