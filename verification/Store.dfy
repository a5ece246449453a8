/** The operations of `internal/storage/storage.go` and `cmdForceFail`, statement by statement. The object
    records its own life: whatever sequence of calls it has seen is a run of the Ledger, so what holds of
    every run holds of every such database. */
module Store {
  import opened Types
  import opened Storage
  import opened LedgerInvariants
  import opened LedgerRuns
  import L = Ledger

  /** Life `(past, steps)` went on from `(past', steps')` by `more`. */
  ghost predicate WentOn(past': seq<L.Core>, steps': seq<L.Step>, past: seq<L.Core>, steps: seq<L.Step>, more: seq<L.Step>) {
    past' <= past && steps == steps' + more
  }

  lemma OneStepOn(past: seq<L.Core>, steps: seq<L.Step>, st: L.Step)
    requires L.IsRun(past, steps) && L.Enabled(past[|steps|], st)
    ensures L.IsRun(past + [L.Apply(past[|steps|], st)], steps + [st])
  {
    var past', steps' := past + [L.Apply(past[|steps|], st)], steps + [st];
    forall i | 0 <= i < |steps'|
      ensures L.Enabled(past'[i], steps'[i]) && past'[i + 1] == L.Apply(past'[i], steps'[i])
    {
      if i < |steps| {
        assert past'[i] == past[i] && past'[i + 1] == past[i + 1];
      }
    }
  }

  /** The life went on by one step, so it ends in what that step makes of the last state. */
  lemma LastStep(past': seq<L.Core>, steps': seq<L.Step>, past: seq<L.Core>, steps: seq<L.Step>, st: L.Step)
    requires L.IsRun(past', steps') && L.IsRun(past, steps) && WentOn(past', steps', past, steps, [st])
    ensures L.Enabled(past'[|past'| - 1], st) && past[|past| - 1] == L.Apply(past'[|past'| - 1], st)
  {
    var n := |past'| - 1;
    assert past[n] == past'[n] && steps[n] == st;
  }

  /** `run` is the run that the claim with `token` opened, if that is the job's newest claim. */
  ghost predicate OwnRun(c: L.Core, id: Id, token: Id, run: Id) {
    id in c.hist && c.hist[id].Any() && c.hist[id].Last().token == token ==> c.hist[id].Last().run == run
  }

  /** The newest claim of `id`, whose run is `run`, completed at `at` and its run is not closed yet. */
  ghost predicate HalfDone(c: L.Core, id: Id, run: Id, at: Time) {
    && L.HalfComplete(c, id) && c.hist[id].Last().run == run && c.hist[id].Last().outcome == L.Completed(at, false)
    && run in c.db.runs
  }

  class Postgres {
    var jobs: map<Id, Job>
    var runs: map<Id, Run>
    var letters: map<Id, Letter>
    /** What NOW() returns. */
    var clock: Time
    ghost var past: seq<L.Core>
    ghost var steps: seq<L.Step>

    ghost function Value(): Db
      reads this
    {
      Db(jobs, runs, letters)
    }

    ghost function Core(): L.Core
      requires |past| > 0
      reads this
    {
      past[|past| - 1]
    }

    /** The life so far is a run of the Ledger that began empty and ends in the present tables. */
    ghost predicate Valid()
      reads this
    {
      L.IsRun(past, steps) && L.Init(past[0]) && Core().db == Value() && Core().now == clock
    }

    constructor (now: Time)
      ensures Valid() && clock == now && steps == [] && Value() == Db(map[], map[], map[])
    {
      jobs, runs, letters, clock := map[], map[], map[], now;
      past, steps := [L.Core(now, Db(map[], map[], map[]), map[], map[], map[])], [];
    }

    /** Adds a step to the life. */
    ghost method Note(st: L.Step)
      requires L.IsRun(past, steps) && L.Enabled(Core(), st)
      modifies `past, `steps
      ensures L.IsRun(past, steps) && past == old(past) + [L.Apply(old(Core()), st)] && steps == old(steps) + [st]
    {
      OneStepOn(past, steps, st);
      past, steps := past + [L.Apply(Core(), st)], steps + [st];
    }

    method Wait(span: nat)
      requires Valid()
      modifies this
      ensures Valid() && WentOn(old(past), old(steps), past, steps, [L.Tick(span)])
      ensures clock == old(clock) + span && Value() == old(Value())
    {
      Note(L.Tick(span));
      clock := clock + span;
    }

    /** False is ErrDuplicate: the id, or the pair of tenant and key, is taken. */
    method InsertJob(id: Id, j: Job) returns (ok: bool)
      requires Valid() && (id in jobs || L.Enabled(Core(), L.Submit(id, j)))
      modifies this
      ensures Valid() && WentOn(old(past), old(steps), past, steps, if id in old(jobs) then [] else [L.Submit(id, j)])
      ensures ok <==>
                && id !in old(jobs)
                && (j.key.Some? ==> forall k :: k in old(jobs) ==> old(jobs)[k].tenant != j.tenant || old(jobs)[k].key != j.key)
      ensures clock == old(clock) && (ok ==> jobs == old(jobs)[id := j]) && (!ok ==> Value() == old(Value()))
      ensures runs == old(runs) && letters == old(letters)
    {
      if id in jobs {
        return false;
      }
      Note(L.Submit(id, j));
      if j.key.Some? && exists k :: k in jobs && jobs[k].tenant == j.tenant && jobs[k].key == j.key {
        return false;
      }
      jobs := jobs[id := j];
      return true;
    }

    method GetJob(id: Id) returns (j: Option<Job>)
      ensures j == if id in jobs then Some(jobs[id]) else None
    {
      if id in jobs {
        return Some(jobs[id]);
      }
      return None;
    }

    /** Lock, update and insert in one transaction; `run` is the fresh id of the new run. Afterwards the caller
        is the only holder, and its run is open and carries the attempt number. */
    method TryClaim(id: Id, worker: Id, token: Id, run: Id, deadline: Time) returns (ok: bool)
      requires Valid() && L.Enabled(Core(), L.TryClaim(id, worker, token, run, deadline - L.CLAIM_LEASE))
      modifies this
      ensures Valid()
      ensures WentOn(old(past), old(steps), past, steps, [L.TryClaim(id, worker, token, run, deadline - L.CLAIM_LEASE)])
      ensures ok <==> id in old(jobs) && old(jobs)[id].state.Pending?
      ensures ok ==>
                && jobs == old(jobs)[id := old(jobs)[id].(state := Claimed, claimedAt := Some(clock), claimedBy := Some(worker),
                                                         token := Some(token), deadline := Some(deadline))]
                && runs == old(runs)[run := Run(id, old(jobs)[id].tenant, old(jobs)[id].attempt, clock, None, Claimed, None)]
                && letters == old(letters)
      ensures ok ==> && (forall t :: Holds(Value(), id, t) <==> t == token)
                     && run in runs && runs[run].job == id && runs[run].attempt == old(jobs)[id].attempt
                     && runs[run].finishedAt.None?
      ensures clock == old(clock) && (!ok ==> Value() == old(Value()))
    {
      Note(L.TryClaim(id, worker, token, run, deadline - L.CLAIM_LEASE));
      if id !in jobs || !jobs[id].state.Pending? {
        return false;
      }
      jobs := jobs[id := jobs[id].(state := Claimed, claimedAt := Some(clock), claimedBy := Some(worker),
                                   token := Some(token), deadline := Some(deadline))];
      runs := runs[run := Run(id, jobs[id].tenant, jobs[id].attempt, clock, None, Claimed, None)];
      return true;
    }

    /** A worker that still holds the job goes on holding it, now running; for anybody else nothing happens,
        and no lease is gained or lost. */
    method MarkRunning(id: Id, token: Id)
      requires Valid()
      modifies this
      ensures Valid() && WentOn(old(past), old(steps), past, steps, [L.MarkRunning(id, token)])
      ensures Holds(old(Value()), id, token) ==> Value() == old(Value()).(jobs := old(jobs)[id := old(jobs)[id].(state := Running)])
      ensures !Holds(old(Value()), id, token) ==> Value() == old(Value())
      ensures clock == old(clock) && forall k, t :: Holds(Value(), k, t) <==> Holds(old(Value()), k, t)
    {
      Note(L.MarkRunning(id, token));
      if id in jobs && jobs[id].token == Some(token) && jobs[id].state.Claimed? {
        jobs := jobs[id := jobs[id].(state := Running)];
      }
    }

    /** The reaper spares a holder that extended until the new deadline has passed; for anybody else nothing
        happens. */
    method ExtendDeadline(id: Id, token: Id, deadline: Time)
      requires Valid() && L.Enabled(Core(), L.Extend(id, token, deadline - L.BEAT_LEASE))
      modifies this
      ensures Valid() && WentOn(old(past), old(steps), past, steps, [L.Extend(id, token, deadline - L.BEAT_LEASE)])
      ensures Holds(old(Value()), id, token) ==>
                Value() == old(Value()).(jobs := old(jobs)[id := old(jobs)[id].(deadline := Some(deadline))])
      ensures Holds(old(Value()), id, token) ==> forall now :: Stale(jobs[id], now) <==> now > deadline
      ensures !Holds(old(Value()), id, token) ==> Value() == old(Value())
      ensures clock == old(clock) && forall k, t :: Holds(Value(), k, t) <==> Holds(old(Value()), k, t)
    {
      Note(L.Extend(id, token, deadline - L.BEAT_LEASE));
      if id in jobs && jobs[id].token == Some(token) && jobs[id].state.InFlight() {
        jobs := jobs[id := jobs[id].(deadline := Some(deadline))];
      }
    }

    /** Both statements in a row. The holder's job and run succeed and nobody holds the job any more; a stale
        token leaves both tables alone. */
    method CompleteJob(id: Id, run: Id, token: Id, at: Time)
      requires Valid() && OwnRun(Core(), id, token, run)
      modifies this
      ensures Valid() && WentOn(old(past), old(steps), past, steps,
                                [L.Complete(id, token, at)] + if Holds(old(Value()), id, token) then [L.CompleteRun(id)] else [])
      ensures Holds(old(Value()), id, token) ==>
                && jobs == old(jobs)[id := old(jobs)[id].(state := Succeeded, completedAt := Some(at), token := None, deadline := None)]
                && run in old(runs) && runs == old(runs)[run := old(runs)[run].(state := Succeeded, finishedAt := Some(at))]
                && letters == old(letters) && forall t :: !Holds(Value(), id, t)
      ensures !Holds(old(Value()), id, token) ==> Value() == old(Value())
      ensures clock == old(clock)
    {
      var matched := CompleteRow(id, run, token, at);
      if matched {
        CloseRun(id, run, at);
      }
    }

    /** The first statement; true if a row matched. */
    method CompleteRow(id: Id, run: Id, token: Id, at: Time) returns (matched: bool)
      requires Valid() && OwnRun(Core(), id, token, run)
      modifies this
      ensures Valid() && WentOn(old(past), old(steps), past, steps, [L.Complete(id, token, at)])
      ensures matched <==> Holds(old(Value()), id, token)
      ensures matched ==>
                && jobs == old(jobs)[id := old(jobs)[id].(state := Succeeded, completedAt := Some(at), token := None, deadline := None)]
                && HalfDone(Core(), id, run, at)
      ensures runs == old(runs) && letters == old(letters) && clock == old(clock) && (!matched ==> jobs == old(jobs))
    {
      if id in jobs && jobs[id].token == Some(token) {
        Alive();
        HolderIsLive(Core(), id, token);
        RunOfHolder(Core(), id);
      }
      Note(L.Complete(id, token, at));
      if id !in jobs || jobs[id].token != Some(token) || !jobs[id].state.InFlight() {
        return false;
      }
      jobs := jobs[id := jobs[id].(state := Succeeded, completedAt := Some(at), token := None, deadline := None)];
      return true;
    }

    /** The second statement. */
    method CloseRun(id: Id, run: Id, at: Time)
      requires Valid() && HalfDone(Core(), id, run, at)
      modifies this
      ensures Valid() && WentOn(old(past), old(steps), past, steps, [L.CompleteRun(id)])
      ensures run in old(runs) && runs == old(runs)[run := old(runs)[run].(state := Succeeded, finishedAt := Some(at))]
      ensures jobs == old(jobs) && letters == old(letters) && clock == old(clock)
    {
      Note(L.CompleteRun(id));
      if run in runs {
        runs := runs[run := runs[run].(state := Succeeded, finishedAt := Some(at))];
      }
    }

    /** The holder loses the job, which has one attempt more and is dead or waits for the given retry time, and its
        run is closed; for anybody else nothing happens. */
    method FailJob(id: Id, run: Id, token: Id, error: string, nextRunAt: Option<Time>)
      requires Valid() && OwnRun(Core(), id, token, run)
      modifies this
      ensures Valid() && WentOn(old(past), old(steps), past, steps, [L.Fail(id, token, run, error, nextRunAt)])
      ensures Holds(old(Value()), id, token) ==>
                && id in jobs && jobs[id].attempt == old(jobs)[id].attempt + 1
                && jobs[id].state == (if jobs[id].attempt >= jobs[id].maxRetries then Dead else Failed)
                && (jobs[id].state.Failed? && nextRunAt.Some? ==> jobs[id].runAt == nextRunAt.value)
                && jobs == old(jobs)[id := old(jobs)[id].(state := jobs[id].state, attempt := jobs[id].attempt,
                                                         runAt := jobs[id].runAt, lastError := Some(error),
                                                         token := None, deadline := None)]
                && (jobs[id].state.Dead? || nextRunAt.None? ==> jobs[id].runAt == old(jobs)[id].runAt)
                && run in old(runs)
                && runs == old(runs)[run := old(runs)[run].(state := jobs[id].state, finishedAt := Some(clock), error := Some(error))]
                && letters == old(letters) && forall t :: !Holds(Value(), id, t)
      ensures !Holds(old(Value()), id, token) ==> Value() == old(Value())
      ensures clock == old(clock)
    {
      if id in jobs && jobs[id].token == Some(token) {
        Alive();
        HolderIsLive(Core(), id, token);
        RunOfHolder(Core(), id);
      }
      Note(L.Fail(id, token, run, error, nextRunAt));
      if id !in jobs || jobs[id].token != Some(token) || !jobs[id].state.InFlight() {
        return;
      }
      var newAttempt := jobs[id].attempt + 1;
      var newState, runAt;
      if newAttempt >= jobs[id].maxRetries {
        newState, runAt := Dead, None;
      } else {
        newState, runAt := Failed, nextRunAt;
      }
      jobs := jobs[id := jobs[id].(state := newState, attempt := newAttempt, lastError := Some(error),
                                   runAt := if runAt.Some? then runAt.value else jobs[id].runAt,
                                   token := None, deadline := None)];
      if run in runs {
        runs := runs[run := runs[run].(state := newState, finishedAt := Some(clock), error := Some(error))];
      }
    }

    /** Afterwards no run of the job is open. Returns whether the job went to dead; false also when it was not
        stale, and then the row is untouched. */
    method RequeueStaleJob(id: Id) returns (dead: bool)
      requires Valid()
      modifies this
      ensures Valid() && WentOn(old(past), old(steps), past, steps, [L.Reap(id)])
      ensures forall r :: r in runs && runs[r].job == id ==> runs[r].finishedAt.Some?
      ensures dead <==> id in old(jobs) && Stale(old(jobs)[id], clock) && jobs[id].state.Dead?
      ensures runs.Keys == old(runs).Keys && letters == old(letters)
      ensures forall r :: r in old(runs) ==>
                runs[r] == if old(runs)[r].job == id && old(runs)[r].finishedAt.None?
                           then old(runs)[r].(state := Failed, finishedAt := Some(clock), error := Some("worker heartbeat expired"))
                           else old(runs)[r]
      ensures jobs == if id in old(jobs) && Stale(old(jobs)[id], clock)
                      then
                        var j := old(jobs)[id];
                        old(jobs)[id := j.(state := if j.attempt + 1 >= j.maxRetries then Dead else Pending,
                                           attempt := j.attempt + 1, token := None, claimedAt := None, claimedBy := None,
                                           deadline := None, lastError := Some("worker heartbeat expired"))]
                      else old(jobs)
      ensures clock == old(clock)
    {
      Note(L.Reap(id));
      runs := CloseOpenRuns(runs, id, clock);
      if id !in jobs || !jobs[id].state.InFlight() || jobs[id].deadline.None? || jobs[id].deadline.value >= clock {
        return false;
      }
      var newState := if jobs[id].attempt + 1 >= jobs[id].maxRetries then Dead else Pending;
      jobs := jobs[id := jobs[id].(state := newState, attempt := jobs[id].attempt + 1, token := None, claimedAt := None,
                                   claimedBy := None, deadline := None, lastError := Some(HEARTBEAT_EXPIRED))];
      return newState.Dead?;
    }

    /** A dead job has a letter afterwards; letters already written stay as they are. */
    method MoveToDeadLetter(id: Id)
      requires Valid()
      modifies this
      ensures Valid() && WentOn(old(past), old(steps), past, steps, [L.DeadLetter(id)])
      ensures id in jobs && jobs[id].state.Dead? ==> id in letters
      ensures forall k :: k in old(letters) ==> k in letters && letters[k] == old(letters)[k]
      ensures forall k :: k in letters && k !in old(letters) ==>
                k == id && letters[k] == Letter(jobs[id].tenant, jobs[id].lastError, jobs[id].attempt, jobs[id])
      ensures jobs == old(jobs) && runs == old(runs) && clock == old(clock)
    {
      Note(L.DeadLetter(id));
      if id in jobs && jobs[id].state.Dead? && id !in letters {
        letters := letters[id := Letter(jobs[id].tenant, jobs[id].lastError, jobs[id].attempt, jobs[id])];
      }
    }

    /** False is ErrNotFound. A cancelled job is gone, and nobody held it. */
    method CancelJob(id: Id, tenant: Id) returns (ok: bool)
      requires Valid()
      modifies this
      ensures Valid() && WentOn(old(past), old(steps), past, steps, [L.Cancel(id, tenant)])
      ensures ok <==> && id in old(jobs) && old(jobs)[id].tenant == tenant
                      && (old(jobs)[id].state.Pending? || old(jobs)[id].state.Scheduled?)
      ensures ok ==> jobs == old(jobs) - {id} && forall t :: !Holds(old(Value()), id, t)
      ensures !ok ==> jobs == old(jobs)
      ensures forall k :: k in old(jobs) && k != id ==> k in jobs && jobs[k] == old(jobs)[k]
      ensures runs == old(runs) && letters == old(letters) && clock == old(clock)
    {
      Note(L.Cancel(id, tenant));
      ok := id in jobs && jobs[id].tenant == tenant && (jobs[id].state.Pending? || jobs[id].state.Scheduled?);
      if ok {
        jobs := jobs - {id};
      }
    }

    /** A replayed job can be claimed again with its whole retry budget. */
    method ReplayJob(id: Id, tenant: Option<Id>) returns (ok: bool)
      requires Valid()
      modifies this
      ensures Valid() && WentOn(old(past), old(steps), past, steps, [L.Replay(id, tenant)])
      ensures ok <==> && id in old(jobs) && old(jobs)[id].state.Dead?
                      && (tenant.Some? ==> old(jobs)[id].tenant == tenant.value)
      ensures ok ==> && Claimable(Value(), id) && letters == old(letters)
                     && jobs == old(jobs)[id := old(jobs)[id].(state := Pending, attempt := 0, lastError := None, token := None,
                                                              claimedAt := None, claimedBy := None, deadline := None)]
      ensures !ok ==> Value() == old(Value())
      ensures clock == old(clock) && runs == old(runs)
    {
      Note(L.Replay(id, tenant));
      ok := id in jobs && jobs[id].state.Dead? && (tenant.None? || jobs[id].tenant == tenant.value);
      if ok {
        jobs := jobs[id := jobs[id].(state := Pending, attempt := 0, lastError := None, token := None,
                                     claimedAt := None, claimedBy := None, deadline := None)];
      }
    }

    /** A force-failed job is dead and nobody holds it, but neither its open run nor its run_at is touched. */
    method ForceFail(id: Id) returns (ok: bool)
      requires Valid()
      modifies this
      ensures Valid() && WentOn(old(past), old(steps), past, steps, [L.ForceFail(id)])
      ensures ok <==> && id in old(jobs)
                      && (old(jobs)[id].state in {Claimed, Running, Pending, Failed})
      ensures ok ==> && letters == old(letters) && (forall t :: !Holds(Value(), id, t))
                     && jobs == old(jobs)[id := old(jobs)[id].(state := Dead, lastError := Some("force-failed by operator"),
                                                              token := None, deadline := None)]
      ensures !ok ==> Value() == old(Value())
      ensures clock == old(clock) && runs == old(runs)
    {
      Note(L.ForceFail(id));
      ok := id in jobs && (jobs[id].state.InFlight() || jobs[id].state.Pending? || jobs[id].state.Failed?);
      if ok {
        jobs := jobs[id := jobs[id].(state := Dead, lastError := Some(FORCE_FAILED), token := None, deadline := None)];
      }
    }

    /** A scheduled job can be claimed afterwards, whatever its run_at; other rows stay. */
    method PromoteScheduledToPending(id: Id)
      requires Valid()
      modifies this
      ensures Valid() && WentOn(old(past), old(steps), past, steps, [L.PromoteScheduled(id)])
      ensures id in old(jobs) && old(jobs)[id].state.Scheduled? ==>
                Claimable(Value(), id) && Value() == old(Value()).(jobs := old(jobs)[id := old(jobs)[id].(state := Pending)])
      ensures !(id in old(jobs) && old(jobs)[id].state.Scheduled?) ==> Value() == old(Value())
      ensures clock == old(clock) && forall k, t :: Holds(Value(), k, t) <==> Holds(old(Value()), k, t)
    {
      Note(L.PromoteScheduled(id));
      if id in jobs && jobs[id].state.Scheduled? {
        jobs := jobs[id := jobs[id].(state := Pending)];
      }
    }

    /** A failed job can be claimed afterwards, whatever its run_at, and counts as due now; other rows stay. */
    method PromoteFailedToPending(id: Id)
      requires Valid()
      modifies this
      ensures Valid() && WentOn(old(past), old(steps), past, steps, [L.PromoteFailed(id)])
      ensures id in old(jobs) && old(jobs)[id].state.Failed? ==>
                && Claimable(Value(), id)
                && Value() == old(Value()).(jobs := old(jobs)[id := old(jobs)[id].(state := Pending, runAt := clock)])
      ensures !(id in old(jobs) && old(jobs)[id].state.Failed?) ==> Value() == old(Value())
      ensures clock == old(clock) && forall k, t :: Holds(Value(), k, t) <==> Holds(old(Value()), k, t)
    {
      Note(L.PromoteFailed(id));
      if id in jobs && jobs[id].state.Failed? {
        jobs := jobs[id := jobs[id].(state := Pending, runAt := clock)];
      }
    }

    lemma Alive()
      requires Valid()
      ensures Inv(Core())
    {
      InitInv(past[0]);
      RunKeepsInv(past, steps, |past| - 1);
    }
  }

  lemma RunOfHolder(c: L.Core, id: Id)
    requires Inv(c) && id in c.hist && c.hist[id].Any()
    ensures c.hist[id].Last().run in c.db.runs
  {
    assert JobInv(c, id);
  }

  // ---- what every database has been through ----

  /** A claim that was settled at any moment of the database's life holds nothing now. */
  lemma StaleTokenHoldsNothing(db: Postgres, i: nat, id: Id, p: nat, k: Id)
    requires db.Valid() && i < |db.past|
    requires id in db.past[i].hist && p < |db.past[i].hist[id].claims| && !db.past[i].hist[id].claims[p].outcome.Live?
    ensures !Holds(db.Value(), k, db.past[i].hist[id].claims[p].token)
  {
    InitInv(db.past[0]);
    var t := db.past[i].hist[id].claims[p].token;
    Fencing(db.past, db.steps, i, |db.past| - 1, id, p, L.MarkRunning(k, t));
  }

  /** No two runs of a job are recorded as succeeded, and one that is belongs to a succeeded job. */
  lemma OneWinner(db: Postgres, r: Id, q: Id)
    requires db.Valid() && r in db.runs && db.runs[r].state.Succeeded?
    ensures db.runs[r].job in db.jobs && db.jobs[db.runs[r].job].state.Succeeded?
    ensures q in db.runs && db.runs[q].state.Succeeded? && db.runs[q].job == db.runs[r].job ==> q == r
  {
    InitInv(db.past[0]);
    var n := |db.past| - 1;
    OneSuccess(db.past, db.steps, n, n, db.runs[r].job, r, q);
  }
}
