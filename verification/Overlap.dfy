/** What overlapping retry passes do to a backoff. */
module Overlap {
  import opened Types
  import opened Storage
  import opened Cluster
  import opened Queue
  import opened Timing
  import opened Batches
  import opened Progress
  import opened NoStuckJob

  /** Pass `p` is about to handle job `id`, which it read as failed and due. */
  ghost predicate About(s: Sys, p: Id, id: Id) {
    && p in s.passes && s.passes[p].kind.RetryPoll? && s.passes[p].push.None? && s.passes[p].todo != []
    && s.passes[p].todo[0].id == id && id in s.db.jobs && s.passes[p].todo[0].tenant == s.db.jobs[id].tenant
  }

  /** Whenever two passes are about to handle the same failed job, one can promote it, the worker claim it and
      fail again, and the other then cuts its new wait short. */
  lemma OverlapCutsBackoff(s: Sys, h: Setting, p: Id, q: Id, id: Id) returns (t: Sys)
    requires p != q && About(s, p, id) && About(s, q, id)
    requires var j := s.db.jobs[id];
             j.state.Failed? && j.attempt + 1 < j.maxRetries && j.backoff >= 1 && j.tenant in h.active
             && !h.verdict(id, j.attempt)
    requires WorkerAt(s, h.w).Idle?
    ensures Reaches(s, t, h) && Enabled(t, Act(q)) && CutsShort(t, Act(q), id) && About(t, q, id)
    ensures WorkerAt(t, h.w).Idle? && t.db.jobs[id].tenant == s.db.jobs[id].tenant
  {
    var a := PromoteOne(s, h, p, id);
    t := Serve(a, h, id);
    Then(s, a, t, h);
    assert Ran(a, t, h, id);
  }

  /** The first pass handles the job. */
  lemma PromoteOne(s: Sys, h: Setting, p: Id, id: Id) returns (a: Sys)
    requires About(s, p, id) && s.db.jobs[id].state.Failed?
    ensures Reaches(s, a, h) && a.workers == s.workers && a.now == s.now
    ensures forall q :: q != p && q in s.passes ==> q in a.passes && a.passes[q] == s.passes[q]
    ensures id in a.db.jobs && a.db.jobs[id] == s.db.jobs[id].(state := Pending, runAt := s.now)
    ensures InLists(a.lists, s.db.jobs[id].tenant, id)
  {
    var item := s.passes[p].todo[0];
    a := DoItem(s, h, p);
    ListedAlone(item, id);
    assert Some([item][0].id) in Queued(a.lists, ItemKey([item][0]));
  }

  // ---- such a state can be reached ----

  /** Two retry passes read the same list. */
  lemma OpenTwo(s: Sys, h: Setting, id: Id) returns (t: Sys, p: Id, q: Id)
    requires s.db.jobs.Keys == {id} && Due(RetryPoll, s.db.jobs[id], s.now)
    ensures Reaches(s, t, h) && t.db == s.db && t.workers == s.workers
    ensures p != q && About(t, p, id) && About(t, q, id)
  {
    var items := SomeBatch(s.db, RetryPoll, s.now);
    assert items != [];
    assert items[0].id in s.db.jobs.Keys;
    var a;
    a, p := DoOpen(s, h, RetryPoll, items);
    t, q := DoOpen(a, h, RetryPoll, items);
    Then(s, a, t, h);
  }

  /** The one job of a fresh database, queued, fails once and comes due again. */
  lemma FailOnce(s: Sys, h: Setting, id: Id) returns (t: Sys)
    requires s.db.jobs.Keys == {id} && Claimable(s.db, id) && WorkerAt(s, h.w).Idle?
    requires s.db.jobs[id].tenant in h.active && InLists(s.lists, s.db.jobs[id].tenant, id)
    requires !h.verdict(id, s.db.jobs[id].attempt) && s.db.jobs[id].attempt + 1 < s.db.jobs[id].maxRetries
    ensures Reaches(s, t, h) && t.db.jobs.Keys == {id} && WorkerAt(t, h.w).Idle? && Due(RetryPoll, t.db.jobs[id], t.now)
    ensures t.db.jobs[id].attempt == s.db.jobs[id].attempt + 1 && SamePolicy(s.db.jobs[id], t.db.jobs[id])
  {
    var a := Serve(s, h, id);
    t := WaitUntil(a, h, a.db.jobs[id].runAt);
    Then(s, a, t, h);
  }

  /** A pass that cuts a wait short goes on to push the job, and the worker claims it before its retry time. */
  lemma ClaimAfterCut(s: Sys, h: Setting, q: Id, id: Id) returns (t: Sys, run: Id)
    requires Enabled(s, Act(q)) && About(s, q, id) && CutsShort(s, Act(q), id)
    requires WorkerAt(s, h.w).Idle? && s.db.jobs[id].tenant in h.active
    ensures Reaches(s, t, h) && Enabled(t, Claim(h.w, run, false)) && Claims(t, Claim(h.w, run, false), h.w, id)
    ensures t.now < s.db.jobs[id].runAt
  {
    var a := PromoteOne(s, h, q, id);
    t, run := DeliverToClaim(a, h, id);
    Then(s, a, t, h);
  }

  const ONE_TENANT := Setting(0, [0], (x: Id, a: int) => false)

  /** From every initial state some run leads to two retry passes about to handle the same failed job. */
  lemma OverlapBegins(s: Sys) returns (t: Sys, p: Id, q: Id, id: Id)
    requires Init(s)
    ensures Leads(s, t) && p != q && About(t, p, id) && About(t, q, id) && WorkerAt(t, 0).Idle?
    ensures var j := t.db.jobs[id];
            j.state.Failed? && j.attempt + 1 < j.maxRetries && j.backoff >= 1 && j.tenant == 0
  {
    id := Bound(s.drawn);
    var row := Job(0, 5, Pending, s.now, None, None, None, None, 0, 3, 1, None, None, s.now, None);
    var e, f := Submitted(id, row), Redis(Lists(map[Key(0, Normal) := [Some(id)]], map[]));
    var a := Apply(Apply(s, e), f);
    assert Some(id) in Queued(a.lists, Key(0, Normal));
    var b := FailOnce(a, ONE_TENANT, id);
    t, p, q := OpenTwo(b, ONE_TENANT, id);
    Then(a, b, t, ONE_TENANT);
    HealthyLeads(a, t, ONE_TENANT);
    FirstThen(Apply(s, e), f, t);
    FirstThen(s, e, t);
  }

  /** From every initial state some run leads to a retry pass that cuts a job's wait short, and on from there to a
      claim of that job before its retry time. */
  lemma OverlapHappens(s: Sys) returns (t: Sys, q: Id, id: Id, u: Sys, run: Id)
    requires Init(s)
    ensures Leads(s, t) && Enabled(t, Act(q)) && CutsShort(t, Act(q), id) && WorkerAt(t, 0).Idle? && t.db.jobs[id].tenant == 0
    ensures Leads(t, u) && Enabled(u, Claim(0, run, false)) && Claims(u, Claim(0, run, false), 0, id)
    ensures u.now < t.db.jobs[id].runAt
  {
    var c, p;
    c, p, q, id := OverlapBegins(s);
    t := OverlapCutsBackoff(c, ONE_TENANT, p, q, id);
    u, run := ClaimAfterCut(t, ONE_TENANT, q, id);
    HealthyLeads(c, t, ONE_TENANT);
    LeadsOn(s, c, t);
    HealthyLeads(t, u, ONE_TENANT);
  }

  /** The statements between a wait and an early claim: force-fail, replay, and the push of the replayed job. */
  lemma CutThenReplay(s: Sys, id: Id) returns (t: Sys)
    requires BackingOff(s, id)
    ensures Enabled(s, ForceFailed(id)) && CutsBackoff(s, ForceFailed(id)) && Leads(s, t)
    ensures t.workers == s.workers && Claimable(t.db, id) && Early(t, id) && t.db.jobs[id].tenant == s.db.jobs[id].tenant
    ensures InLists(t.lists, t.db.jobs[id].tenant, id)
  {
    var key := Key(s.db.jobs[id].tenant, Normal);
    var a := Apply(s, ForceFailed(id));
    var b := Apply(a, Replayed(id, None));
    var f := Redis(Lists(map[key := [Some(id)]], map[]));
    t := Apply(b, f);
    assert Some(id) in Queued(t.lists, key);
    LeadsOnce(b, f);
    FirstThen(a, Replayed(id, None), t);
    FirstThen(s, ForceFailed(id), t);
  }

  /** From every initial state some run leads through a force-fail and a replay to a claim before `run_at`. */
  lemma EarlyClaimHappens(s: Sys) returns (u: Sys, id: Id, run: Id)
    requires Init(s)
    ensures Leads(s, u) && Enabled(u, Claim(0, run, false)) && Claims(u, Claim(0, run, false), 0, id)
    ensures u.now < u.db.jobs[id].runAt
  {
    var t, q, v, r;
    t, q, id, v, r := OverlapHappens(s);
    var a := CutThenReplay(t, id);
    LeadsOn(s, t, a);
    u, run := DeliverToClaim(a, ONE_TENANT, id);
    HealthyLeads(a, u, ONE_TENANT);
    LeadsOn(s, a, u);
  }
}
