/** `process` and `heartbeat` of `internal/worker/worker.go` as one worker executes them when nobody interferes:
    the statements of the database and the queue in their order. */
module Execution {
  import opened Types
  import opened Storage
  import opened Backoff
  import opened Store
  import Queue
  import L = Ledger

  /** The worker holds the job, `run` is its own run, and the snapshot agrees with the row. */
  ghost predicate Mine(c: L.Core, id: Id, run: Id, token: Id, snap: Job) {
    && Holds(c.db, id, token) && OwnRun(c, id, token, run)
    && c.db.jobs[id].attempt == snap.attempt && c.db.jobs[id].maxRetries == snap.maxRetries
    && c.db.jobs[id].backoff == snap.backoff
  }

  lemma MineStays(c: L.Core, st: L.Step, id: Id, run: Id, token: Id, snap: Job)
    requires Mine(c, id, run, token, snap) && L.Enabled(c, st)
    requires st.Tick? || st == L.MarkRunning(id, token) || (st.Extend? && st.id == id && st.token == token)
    ensures Mine(L.Apply(c, st), id, run, token, snap)
  {
  }

  lemma ClaimIsMine(c: L.Core, st: L.Step)
    requires st.TryClaim? && L.Enabled(c, st) && Claimable(c.db, st.id)
    ensures Mine(L.Apply(c, st), st.id, st.run, st.token, L.Apply(c, st).db.jobs[st.id])
  {
  }

  class Worker {
    const id: Id
    const db: Postgres
    const queue: Queue.Client

    constructor (id: Id, db: Postgres, queue: Queue.Client)
      ensures this.id == id && this.db == db && this.queue == queue
    {
      this.id, this.db, this.queue := id, db, queue;
    }

    /** One tick of the heartbeat. */
    method Beat(job: Id, token: Id, ghost run: Id, ghost snap: Job)
      requires db.Valid() && Mine(db.Core(), job, run, token, snap)
      modifies db
      ensures db.Valid() && old(db.past) <= db.past && Mine(db.Core(), job, run, token, snap)
      ensures db.clock == old(db.clock) && forall now :: Stale(db.jobs[job], now) <==> now > db.clock + 15 * SECOND
    {
      ghost var past, steps, st := db.past, db.steps, L.Extend(job, token, db.clock);
      db.ExtendDeadline(job, token, db.clock + L.BEAT_LEASE);
      LastStep(past, steps, db.past, db.steps, st);
      MineStays(past[|past| - 1], st, job, run, token, snap);
    }

    /** `beats` heartbeats, five seconds apart, while the job executes: the worker keeps the job. */
    method Heartbeat(job: Id, token: Id, beats: nat, ghost run: Id, ghost snap: Job)
      requires db.Valid() && Mine(db.Core(), job, run, token, snap)
      modifies db
      ensures db.Valid() && old(db.past) <= db.past && Mine(db.Core(), job, run, token, snap)
      ensures db.clock == old(db.clock) + beats * (5 * SECOND)
      ensures beats > 0 ==> forall now :: Stale(db.jobs[job], now) <==> now > db.clock + 15 * SECOND
    {
      for b := 0 to beats
        invariant db.Valid() && old(db.past) <= db.past && Mine(db.Core(), job, run, token, snap)
        invariant db.clock == old(db.clock) + b * (5 * SECOND)
        invariant b > 0 ==> forall now :: Stale(db.jobs[job], now) <==> now > db.clock + 15 * SECOND
      {
        ghost var past, steps := db.past, db.steps;
        db.Wait(5 * SECOND);
        LastStep(past, steps, db.past, db.steps, L.Tick(5 * SECOND));
        MineStays(past[|past| - 1], L.Tick(5 * SECOND), job, run, token, snap);
        Beat(job, token, run, snap);
      }
    }

    /** Claim the job, read it and mark it running; None if it could not be claimed. */
    method Start(job: Id, token: Id, run: Id) returns (snap: Option<Job>)
      requires db.Valid() && token !in db.Core().home && run !in db.Core().owner
      modifies db
      ensures db.Valid() && old(db.past) <= db.past && db.clock == old(db.clock)
      ensures snap.Some? <==> Claimable(old(db.Value()), job)
      ensures snap.None? ==> db.Value() == old(db.Value())
      ensures snap.Some? ==> && Mine(db.Core(), job, run, token, snap.value)
                             && snap.value.attempt == old(db.jobs)[job].attempt
                             && snap.value.maxRetries == old(db.jobs)[job].maxRetries
                             && snap.value.backoff == old(db.jobs)[job].backoff
                             && db.jobs[job].state.Running? && db.jobs[job].deadline == Some(db.clock + 60000)
                             && db.jobs[job].claimedBy == Some(id)
    {
      ghost var past, steps := db.past, db.steps;
      var claimed := db.TryClaim(job, id, token, run, db.clock + L.CLAIM_LEASE);
      if !claimed {
        return None;
      }
      LastStep(past, steps, db.past, db.steps, L.TryClaim(job, id, token, run, db.clock));
      ClaimIsMine(past[|past| - 1], L.TryClaim(job, id, token, run, db.clock));
      snap := db.GetJob(job);
      past, steps := db.past, db.steps;
      db.MarkRunning(job, token);
      LastStep(past, steps, db.past, db.steps, L.MarkRunning(job, token));
      MineStays(past[|past| - 1], L.MarkRunning(job, token), job, run, token, snap.value);
    }

    /** Claim, execute with heartbeats, record the result and clear the processing list. `ok` is the verdict of
        the execution; `token` and `run` are the UUIDs drawn. */
    method Process(job: Id, token: Id, run: Id, ok: bool, error: string, beats: nat, intn: int -> int)
      requires db.Valid() && token !in db.Core().home && run !in db.Core().owner
      requires job in db.jobs ==> IsInt64(db.jobs[job].backoff)
      requires forall n :: n > 0 ==> 0 <= intn(n) < n
      modifies db, queue
      ensures db.Valid() && old(db.past) <= db.past
      ensures Some(job) !in Queue.Held(queue.lists, id) && queue.lists.queued == old(queue.lists).queued
      ensures !Claimable(old(db.Value()), job) ==> db.Value() == old(db.Value())
      ensures Claimable(old(db.Value()), job) ==>
                && job in db.jobs && (forall t :: !Holds(db.Value(), job, t))
                && run in db.runs && db.runs[run].finishedAt == Some(db.clock) && db.runs[run].state == db.jobs[job].state
                && (ok ==> db.jobs[job].state.Succeeded? && db.jobs[job].completedAt == Some(db.clock))
                && (!ok ==> Retries(old(db.jobs)[job], db.jobs[job], db.clock))
    {
      var snap := Start(job, token, run);
      if snap.Some? {
        Heartbeat(job, token, beats, run, snap.value);
        if ok {
          db.CompleteJob(job, run, token, db.clock);
        } else {
          Fail(job, run, token, error, snap.value, intn);
        }
      }
      queue.RemoveFromProcessing(id, job);
    }

    /** The failure branch: the retry time is computed from the snapshot. */
    method Fail(job: Id, run: Id, token: Id, error: string, snap: Job, intn: int -> int)
      requires db.Valid() && Mine(db.Core(), job, run, token, snap) && IsInt64(snap.backoff)
      requires forall n :: n > 0 ==> 0 <= intn(n) < n
      modifies db
      ensures db.Valid() && old(db.past) <= db.past && db.clock == old(db.clock)
      ensures job in db.jobs && (forall t :: !Holds(db.Value(), job, t))
      ensures run in db.runs && db.runs[run].finishedAt == Some(db.clock) && db.runs[run].state == db.jobs[job].state
      ensures Retries(snap, db.jobs[job], db.clock)
    {
      var nextRunAt := None;
      if ShouldRetry(snap.attempt, snap.maxRetries) {
        var at := NextRetryAt(snap.attempt + 1, snap.backoff, db.clock, intn);
        nextRunAt := Some(at);
      }
      ghost var past, steps := db.past, db.steps;
      db.FailJob(job, run, token, error, nextRunAt);
      LastStep(past, steps, db.past, db.steps, L.Fail(job, token, run, error, nextRunAt));
    }
  }

  /** After a failure at `now` the job has used one attempt more; it is dead if that was the last, and otherwise
      waits for a retry time that the backoff of the new attempt number allows. */
  ghost predicate Retries(j: Job, k: Job, now: Time) {
    && k.attempt == j.attempt + 1 && k.maxRetries == j.maxRetries && k.backoff == j.backoff
    && k.state == (if k.attempt >= k.maxRetries then Dead else Failed)
    && (k.state.Failed? && k.backoff >= 0 && k.attempt >= 0 ==>
          exists delay :: Possible(Delay(k.attempt, k.backoff), delay) && k.runAt == now + delay * SECOND)
  }
}
