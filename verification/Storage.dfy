/** `internal/storage/storage.go`: the guarded SQL statements and transactions.
    Every `After...` function gives the tables after one atomic statement or
    transaction; a guard that matches no row leaves the tables as they were. */
module Storage {
  import opened Types

  datatype Db = Db(jobs: map<Id, Job>, runs: map<Id, Run>, letters: map<Id, Letter>)

  const HEARTBEAT_EXPIRED := "worker heartbeat expired"
  const FORCE_FAILED := "force-failed by operator"

  // ---- guards ----

  /** TryClaim's guard: the job exists and is pending. */
  predicate Claimable(db: Db, id: Id) {
    id in db.jobs && db.jobs[id].state.Pending?
  }

  /** The guard of a worker's statements: the job is in flight under this very token. */
  predicate Holds(db: Db, id: Id, token: Id) {
    id in db.jobs && db.jobs[id].token == Some(token) && db.jobs[id].state.InFlight()
  }

  /** The reaper's guard: in flight with a deadline that has passed; a missing deadline never has. */
  predicate Stale(j: Job, now: Time) {
    j.state.InFlight() && j.deadline.Some? && j.deadline.value < now
  }

  /** The primary key and the `(tenant_id, idempotency_key)` constraint; null keys never conflict. */
  predicate Insertable(db: Db, id: Id, j: Job) {
    && id !in db.jobs
    && (j.key.Some? ==>
          forall k :: k in db.jobs ==> !(db.jobs[k].tenant == j.tenant && db.jobs[k].key == j.key))
  }

  predicate Cancellable(db: Db, id: Id, tenant: Id) {
    && id in db.jobs
    && db.jobs[id].tenant == tenant
    && (db.jobs[id].state.Pending? || db.jobs[id].state.Scheduled?)
  }

  /** The API replays within a tenant, the command line tool replays any dead job. */
  predicate Replayable(db: Db, id: Id, tenant: Option<Id>) {
    && id in db.jobs
    && db.jobs[id].state.Dead?
    && (tenant.Some? ==> db.jobs[id].tenant == tenant.value)
  }

  predicate ForceFailable(db: Db, id: Id) {
    && id in db.jobs
    && (db.jobs[id].state.InFlight() || db.jobs[id].state.Pending? || db.jobs[id].state.Failed?)
  }

  // ---- statements and transactions ----

  function AfterInsert(db: Db, id: Id, j: Job): Db {
    if Insertable(db, id, j) then db.(jobs := db.jobs[id := j]) else db
  }

  function AfterTryClaim(db: Db, id: Id, worker: Id, token: Id, run: Id, deadline: Time, now: Time): Db {
    if !Claimable(db, id) then db else
      var j := db.jobs[id];
      db.(jobs := db.jobs[id := j.(state := Claimed, claimedAt := Some(now), claimedBy := Some(worker),
                                   token := Some(token), deadline := Some(deadline))],
          runs := db.runs[run := Run(id, j.tenant, j.attempt, now, None, Claimed, None)])
  }

  function AfterMarkRunning(db: Db, id: Id, token: Id): Db {
    if Holds(db, id, token) && db.jobs[id].state.Claimed?
    then db.(jobs := db.jobs[id := db.jobs[id].(state := Running)])
    else db
  }

  function AfterExtendDeadline(db: Db, id: Id, token: Id, deadline: Time): Db {
    if Holds(db, id, token)
    then db.(jobs := db.jobs[id := db.jobs[id].(deadline := Some(deadline))])
    else db
  }

  /** The first of CompleteJob's two statements. */
  function AfterComplete(db: Db, id: Id, token: Id, at: Time): Db {
    if Holds(db, id, token)
    then db.(jobs := db.jobs[id := db.jobs[id].(state := Succeeded, completedAt := Some(at),
                                               token := None, deadline := None)])
    else db
  }

  /** The second of CompleteJob's two statements. */
  function AfterCompleteRun(db: Db, run: Id, at: Time): Db {
    if run in db.runs
    then db.(runs := db.runs[run := db.runs[run].(state := Succeeded, finishedAt := Some(at))])
    else db
  }

  /** The state a lost claim leaves the job in, with `retry` where attempts remain. */
  function Retried(j: Job, retry: JobState): JobState {
    if j.attempt + 1 >= j.maxRetries then Dead else retry
  }

  function AfterFail(db: Db, id: Id, run: Id, token: Id, error: string, nextRunAt: Option<Time>, now: Time): Db {
    if !Holds(db, id, token) then db else
      var j := db.jobs[id];
      var s := Retried(j, Failed);
      var runAt := if s.Failed? && nextRunAt.Some? then nextRunAt.value else j.runAt;
      db.(jobs := db.jobs[id := j.(state := s, attempt := j.attempt + 1, lastError := Some(error),
                                   runAt := runAt, token := None, deadline := None)],
          runs := if run in db.runs
                  then db.runs[run := db.runs[run].(state := s, finishedAt := Some(now), error := Some(error))]
                  else db.runs)
  }

  /** Every run of the job that has not finished is closed as failed. */
  function CloseOpenRuns(runs: map<Id, Run>, id: Id, now: Time): map<Id, Run> {
    map r | r in runs :: if runs[r].job == id && runs[r].finishedAt.None?
                         then runs[r].(state := Failed, finishedAt := Some(now), error := Some(HEARTBEAT_EXPIRED))
                         else runs[r]
  }

  /** Open runs are closed first; that part commits even when no job row matches. */
  function AfterRequeue(db: Db, id: Id, now: Time): Db {
    var closed := db.(runs := CloseOpenRuns(db.runs, id, now));
    if id in db.jobs && Stale(db.jobs[id], now) then
      var j := db.jobs[id];
      closed.(jobs := db.jobs[id := j.(state := Retried(j, Pending), attempt := j.attempt + 1, token := None,
                                       claimedAt := None, claimedBy := None, deadline := None,
                                       lastError := Some(HEARTBEAT_EXPIRED))])
    else closed
  }

  function AfterDeadLetter(db: Db, id: Id): Db {
    if id in db.jobs && db.jobs[id].state.Dead? && id !in db.letters then
      var j := db.jobs[id];
      db.(letters := db.letters[id := Letter(j.tenant, j.lastError, j.attempt, j)])
    else db
  }

  function AfterCancel(db: Db, id: Id, tenant: Id): Db {
    if Cancellable(db, id, tenant) then db.(jobs := db.jobs - {id}) else db
  }

  function AfterReplay(db: Db, id: Id, tenant: Option<Id>): Db {
    if Replayable(db, id, tenant)
    then db.(jobs := db.jobs[id := db.jobs[id].(state := Pending, attempt := 0, lastError := None, token := None,
                                               claimedAt := None, claimedBy := None, deadline := None)])
    else db
  }

  /** `cmdForceFail`: neither the open run nor `run_at` is touched. */
  function AfterForceFail(db: Db, id: Id): Db {
    if ForceFailable(db, id)
    then db.(jobs := db.jobs[id := db.jobs[id].(state := Dead, lastError := Some(FORCE_FAILED),
                                               token := None, deadline := None)])
    else db
  }

  function AfterPromoteScheduled(db: Db, id: Id): Db {
    if id in db.jobs && db.jobs[id].state.Scheduled?
    then db.(jobs := db.jobs[id := db.jobs[id].(state := Pending)])
    else db
  }

  /** Promotion does not look at `run_at` again, it overwrites it. */
  function AfterPromoteFailed(db: Db, id: Id, now: Time): Db {
    if id in db.jobs && db.jobs[id].state.Failed?
    then db.(jobs := db.jobs[id := db.jobs[id].(state := Pending, runAt := now)])
    else db
  }
}
