/** The inductive invariant of the Redis-free protocol. */
module LedgerInvariants {
  import opened Types
  import opened Storage
  import opened Ledger

  /** One claim on its own: a reaped claim had outlived its last deadline. */
  ghost predicate ClaimOk(cl: Claim, now: Time) {
    && cl.lease <= now
    && (cl.outcome.Reaped? ==> cl.lease + LeaseLength(cl.beats) < cl.outcome.when <= now)
  }

  /** Only the newest claim can be live or completed; since the insert or last replay the
      claims are numbered 0, 1, 2, ... and all but the newest were lost. */
  ghost predicate HistoryOk(h: History, now: Time) {
    && h.from <= |h.claims|
    && (forall i :: 0 <= i < |h.claims| ==> ClaimOk(h.claims[i], now))
    && (forall i :: 0 <= i < |h.claims| - 1 ==> h.claims[i].outcome.Lost() || h.claims[i].outcome.Forced?)
    && (forall i :: h.from <= i < |h.claims| ==> h.claims[i].ordinal == i - h.from)
    && (forall i :: h.from <= i < |h.claims| - 1 ==> h.claims[i].outcome.Lost())
  }

  /** No claim is live or completed. */
  ghost predicate Quiet(h: History) {
    h.Any() ==> !h.Last().outcome.Live? && !h.Last().outcome.Completed?
  }

  /** Every claim since the insert or last replay was lost. */
  ghost predicate Spent(h: History) {
    h.Count() > 0 ==> h.Any() && h.Last().outcome.Lost()
  }

  ghost predicate LastIsLive(j: Job, h: History) {
    && h.Any() && h.Count() > 0 && h.Last().outcome.Live?
    && j.token == Some(h.Last().token)
    && j.attempt == h.Count() - 1
    && j.deadline == Some(h.Last().lease + LeaseLength(h.Last().beats))
  }

  /** What the state of a row says about its claims. */
  ghost predicate StateOk(j: Job, h: History) {
    match j.state
    case Scheduled => h.claims == [] && h.from == 0 && j.attempt == 0
    case Pending => Quiet(h) && Spent(h) && j.attempt == h.Count() && (j.attempt == 0 || j.attempt < j.maxRetries)
    case Failed => Quiet(h) && Spent(h) && j.attempt == h.Count() && j.attempt < j.maxRetries
    case Claimed => LastIsLive(j, h)
    case Running => LastIsLive(j, h)
    case Succeeded => h.Any() && h.Count() > 0 && h.Last().outcome.Completed? && j.attempt == h.Count() - 1
    case Dead =>
      && Quiet(h)
      && (|| (Spent(h) && j.attempt == h.Count())
          || (h.Any() && h.Count() > 0 && h.Last().outcome.Forced? && j.attempt == h.Count() - 1))
  }

  ghost predicate JobOk(j: Job, h: History) {
    && (j.token.Some? <==> j.state.InFlight())
    && (j.deadline.Some? <==> j.state.InFlight())
    && (j.completedAt.Some? <==> j.state.Succeeded?)
    && h.Count() <= Max(1, j.maxRetries)
    && StateOk(j, h)
  }

  ghost predicate RunOk(id: Id, r: Run, job: Id, cl: Claim) {
    && cl.run == id
    && r.job == job
    && r.attempt == cl.ordinal
    && (r.finishedAt.None? ==> !cl.outcome.Lost())
    && (r.state.Succeeded? <==> cl.outcome.Completed? && cl.outcome.closed)
    && (r.state.Succeeded? ==> r.finishedAt.Some?)
  }

  /** Tokens and runs of a history are registered at their own place, so no two claims share one. */
  ghost predicate PlacesOk(c: Core, id: Id, h: History) {
    forall i :: 0 <= i < |h.claims| ==>
      && h.claims[i].token in c.home && c.home[h.claims[i].token] == Place(id, i)
      && h.claims[i].run in c.owner && c.owner[h.claims[i].run] == Place(id, i)
      && h.claims[i].run in c.db.runs
  }

  ghost predicate At(c: Core, p: Place) {
    p.job in c.hist && p.index < |c.hist[p.job].claims|
  }

  /** Row, history and places of one job fit together; a cancelled job's claims are quiet. */
  ghost predicate JobInv(c: Core, id: Id) {
    && (id in c.db.jobs ==> id in c.hist && JobOk(c.db.jobs[id], c.hist[id]))
    && (id in c.hist ==>
          && HistoryOk(c.hist[id], c.now)
          && PlacesOk(c, id, c.hist[id])
          && (id !in c.db.jobs ==> Quiet(c.hist[id])))
  }

  ghost predicate RunInv(c: Core, r: Id) {
    r in c.db.runs ==>
      && r in c.owner && At(c, c.owner[r])
      && RunOk(r, c.db.runs[r], c.owner[r].job, c.hist[c.owner[r].job].claims[c.owner[r].index])
  }

  ghost predicate Inv(c: Core) {
    (forall id :: JobInv(c, id)) && (forall r :: RunInv(c, r))
  }

  // ---- changes at one job ----

  /** `d` differs from `c` at most in the row, the history and the runs of job `id`. */
  ghost predicate Elsewhere(c: Core, d: Core, id: Id) {
    && d.now == c.now && d.home == c.home && d.owner == c.owner && d.db.runs.Keys == c.db.runs.Keys
    && (|| d.db.jobs == c.db.jobs - {id}
        || (if id in d.db.jobs then d.db.jobs == c.db.jobs[id := d.db.jobs[id]] else d.db.jobs == c.db.jobs))
    && id in c.hist && id in d.hist && d.hist == c.hist[id := d.hist[id]]
  }

  ghost predicate SameClaims(g: History, h: History) {
    && |g.claims| == |h.claims|
    && forall i :: 0 <= i < |g.claims| ==> g.claims[i].token == h.claims[i].token && g.claims[i].run == h.claims[i].run
  }

  /** The runs of `id` fit the new history; the others are as before. */
  ghost predicate RunFits(c: Core, d: Core, id: Id, r: Id)
    requires id in d.hist
  {
    r in c.db.runs && r in d.db.runs && r in c.owner ==>
      if c.owner[r].job == id
      then c.owner[r].index < |d.hist[id].claims| &&
           RunOk(r, d.db.runs[r], id, d.hist[id].claims[c.owner[r].index])
      else d.db.runs[r] == c.db.runs[r]
  }

  /** An update at one job keeps the invariant if it does so at that job. */
  lemma Patch(c: Core, d: Core, id: Id)
    requires Inv(c) && Elsewhere(c, d, id)
    requires id in d.db.jobs ==> JobOk(d.db.jobs[id], d.hist[id])
    requires HistoryOk(d.hist[id], d.now) && (id !in d.db.jobs ==> Quiet(d.hist[id]))
    requires SameClaims(c.hist[id], d.hist[id])
    requires forall r :: RunFits(c, d, id, r)
    ensures Inv(d)
  {
    forall k
      ensures JobInv(d, k)
    {
      assert JobInv(c, k);
    }
    forall r
      ensures RunInv(d, r)
    {
      assert RunInv(c, r);
      assert RunFits(c, d, id, r);
    }
  }

  lemma SettledOk(h: History, outcome: Outcome, now: Time)
    requires HistoryOk(h, now) && h.Any() && !outcome.Live?
    requires outcome.Reaped? ==> h.Last().lease + LeaseLength(h.Last().beats) < outcome.when <= now
    ensures HistoryOk(h.Settled(outcome), now) && SameClaims(h, h.Settled(outcome))
    ensures h.Settled(outcome).Last() == h.Last().(outcome := outcome)
    ensures h.Settled(outcome).Count() == h.Count()
  {
  }

  /** Steps that leave runs and histories alone and only move the row. */
  lemma RowKeepsInv(c: Core, j: Job, id: Id)
    requires Inv(c) && id in c.db.jobs && id in c.hist
    requires JobOk(j, c.hist[id])
    ensures Inv(c.(db := c.db.(jobs := c.db.jobs[id := j])))
  {
    var d := c.(db := c.db.(jobs := c.db.jobs[id := j]));
    assert JobInv(c, id);
    forall r
      ensures RunFits(c, d, id, r)
    {
      assert RunInv(c, r);
    }
    Patch(c, d, id);
  }

  lemma ClaimedOk(j: Job, j': Job, h: History, cl: Claim, now: Time)
    requires HistoryOk(h, now) && JobOk(j, h) && j.state.Pending?
    requires cl.ordinal == h.Count() && cl.outcome.Live? && cl.lease <= now
    requires j'.state.Claimed? && j'.token == Some(cl.token) && j'.deadline == Some(cl.lease + LeaseLength(cl.beats))
    requires j'.attempt == j.attempt && j'.maxRetries == j.maxRetries && j'.completedAt == j.completedAt
    ensures HistoryOk(h.(claims := h.claims + [cl]), now)
    ensures JobOk(j', h.(claims := h.claims + [cl]))
  {
  }

  lemma ClaimKeepsPlaces(c: Core, d: Core, st: Step, id: Id)
    requires Enabled(c, st) && st.TryClaim? && Claimable(c.db, st.id) && st.id in c.hist && d == Apply(c, st)
    requires id in c.hist && PlacesOk(c, id, c.hist[id])
    ensures id in d.hist && PlacesOk(d, id, d.hist[id])
  {
  }

  lemma QuietStepKeepsInv(c: Core, st: Step)
    requires Inv(c) && Enabled(c, st) && (st.Tick? || st.Submit? || st.DeadLetter?)
    ensures Inv(Apply(c, st))
  {
    var d := Apply(c, st);
    forall k
      ensures JobInv(d, k)
    {
      assert JobInv(c, k);
    }
    forall r
      ensures RunInv(d, r)
    {
      assert RunInv(c, r);
    }
  }

  lemma RowStepKeepsInv(c: Core, st: Step)
    requires Inv(c) && Enabled(c, st) && (st.PromoteScheduled? || st.PromoteFailed? || st.MarkRunning?)
    ensures Inv(Apply(c, st))
  {
    assert JobInv(c, st.id);
    var d := Apply(c, st);
    if d != c {
      RowKeepsInv(c, d.db.jobs[st.id], st.id);
    }
  }

  lemma ResetKeepsInv(c: Core, st: Step)
    requires Inv(c) && Enabled(c, st) && (st.Cancel? || st.Replay?)
    ensures Inv(Apply(c, st))
  {
    assert JobInv(c, st.id);
    var d := Apply(c, st);
    if d != c {
      forall r
        ensures RunFits(c, d, st.id, r)
      {
        assert RunInv(c, r);
      }
      Patch(c, d, st.id);
    }
  }

  lemma ForceFailKeepsInv(c: Core, st: Step)
    requires Inv(c) && Enabled(c, st) && st.ForceFail?
    ensures Inv(Apply(c, st))
  {
    assert JobInv(c, st.id);
    var d := Apply(c, st);
    if st.id in c.db.jobs && c.db.jobs[st.id].state.InFlight() {
      SettledOk(c.hist[st.id], Forced, c.now);
      forall r
        ensures RunFits(c, d, st.id, r)
      {
        assert RunInv(c, r);
      }
      Patch(c, d, st.id);
    } else if d != c {
      RowKeepsInv(c, d.db.jobs[st.id], st.id);
    }
  }

  /** The reaper takes the claim and closes its run ... */
  lemma ReapLands(c: Core, st: Step)
    requires Inv(c) && Enabled(c, st) && st.Reap? && st.id in c.db.jobs && Stale(c.db.jobs[st.id], c.now)
    ensures Inv(Apply(c, st))
  {
    assert JobInv(c, st.id);
    var d := Apply(c, st);
    SettledOk(c.hist[st.id], Reaped(c.now), c.now);
    forall r
      ensures RunFits(c, d, st.id, r)
    {
      assert RunInv(c, r);
    }
    Patch(c, d, st.id);
  }

  /** ... or, the row having moved on, only closes open runs. */
  lemma ReapMisses(c: Core, st: Step)
    requires Inv(c) && Enabled(c, st) && st.Reap? && !(st.id in c.db.jobs && Stale(c.db.jobs[st.id], c.now))
    ensures Inv(Apply(c, st))
  {
    assert JobInv(c, st.id);
    var d := Apply(c, st);
    if st.id in c.hist {
      forall r
        ensures RunFits(c, d, st.id, r)
      {
        assert RunInv(c, r);
      }
      Patch(c, d, st.id);
    } else {
      forall r | r in c.db.runs
        ensures d.db.runs[r] == c.db.runs[r]
      {
        assert RunInv(c, r);
      }
      assert d.db.runs == c.db.runs;
    }
  }

  lemma TryClaimKeepsInv(c: Core, st: Step)
    requires Inv(c) && Enabled(c, st) && st.TryClaim?
    ensures Inv(Apply(c, st))
  {
    assert JobInv(c, st.id);
    if Claimable(c.db, st.id) {
      var d := Apply(c, st);
      ClaimedOk(c.db.jobs[st.id], d.db.jobs[st.id], c.hist[st.id], d.hist[st.id].Last(), c.now);
      forall k
        ensures JobInv(d, k)
      {
        assert JobInv(c, k);
        if k in c.hist {
          ClaimKeepsPlaces(c, d, st, k);
        }
      }
      forall r
        ensures RunInv(d, r)
      {
        assert RunInv(c, r);
        if r in c.db.runs && r in c.owner && c.owner[r].job in c.hist {
          assert PlacesOk(c, c.owner[r].job, c.hist[c.owner[r].job]) by {
            assert JobInv(c, c.owner[r].job);
          }
        }
      }
    }
  }

  lemma ExtendKeepsInv(c: Core, st: Step)
    requires Inv(c) && Enabled(c, st) && st.Extend?
    ensures Inv(Apply(c, st))
  {
    assert JobInv(c, st.id);
    var d := Apply(c, st);
    if d != c {
      forall r
        ensures RunFits(c, d, st.id, r)
      {
        assert RunInv(c, r);
      }
      Patch(c, d, st.id);
    }
  }

  lemma CompleteKeepsInv(c: Core, st: Step)
    requires Inv(c) && Enabled(c, st) && st.Complete?
    ensures Inv(Apply(c, st))
  {
    assert JobInv(c, st.id);
    var d := Apply(c, st);
    if d != c {
      SettledOk(c.hist[st.id], Completed(st.at, false), c.now);
      forall r
        ensures RunFits(c, d, st.id, r)
      {
        assert RunInv(c, r);
      }
      Patch(c, d, st.id);
    }
  }

  lemma CompleteRunKeepsInv(c: Core, st: Step)
    requires Inv(c) && Enabled(c, st) && st.CompleteRun?
    ensures Inv(Apply(c, st))
  {
    assert JobInv(c, st.id);
    var d := Apply(c, st);
    SettledOk(c.hist[st.id], Completed(c.hist[st.id].Last().outcome.at, true), c.now);
    forall r
      ensures RunFits(c, d, st.id, r)
    {
      assert RunInv(c, r);
    }
    Patch(c, d, st.id);
  }

  lemma FailKeepsInv(c: Core, st: Step)
    requires Inv(c) && Enabled(c, st) && st.Fail?
    ensures Inv(Apply(c, st))
  {
    assert JobInv(c, st.id);
    var d := Apply(c, st);
    if d != c {
      SettledOk(c.hist[st.id], Errored, c.now);
      forall r
        ensures RunFits(c, d, st.id, r)
      {
        assert RunInv(c, r);
      }
      Patch(c, d, st.id);
    }
  }

  lemma StepKeepsInv(c: Core, st: Step)
    requires Inv(c) && Enabled(c, st)
    ensures Inv(Apply(c, st))
  {
    match st
    case Tick(_) => QuietStepKeepsInv(c, st);
    case Submit(_, _) => QuietStepKeepsInv(c, st);
    case Cancel(_, _) => ResetKeepsInv(c, st);
    case Replay(_, _) => ResetKeepsInv(c, st);
    case ForceFail(_) => ForceFailKeepsInv(c, st);
    case PromoteScheduled(_) => RowStepKeepsInv(c, st);
    case PromoteFailed(_) => RowStepKeepsInv(c, st);
    case Reap(id) =>
      if id in c.db.jobs && Stale(c.db.jobs[id], c.now) {
        ReapLands(c, st);
      } else {
        ReapMisses(c, st);
      }
    case DeadLetter(_) => QuietStepKeepsInv(c, st);
    case TryClaim(_, _, _, _, _) => TryClaimKeepsInv(c, st);
    case MarkRunning(_, _) => RowStepKeepsInv(c, st);
    case Extend(_, _, _) => ExtendKeepsInv(c, st);
    case Complete(_, _, _) => CompleteKeepsInv(c, st);
    case CompleteRun(_) => CompleteRunKeepsInv(c, st);
    case Fail(_, _, _, _, _) => FailKeepsInv(c, st);
  }
}
