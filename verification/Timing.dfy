/** When jobs may run: no claim before `run_at`, and no retry before its backoff. */
module Timing {
  import opened Types
  import opened Storage
  import opened Backoff
  import opened Cluster
  import opened Refinement
  import LedgerInvariants
  import L = Ledger

  // ---- no early execution ----

  /** A listed job that is still scheduled is due: its `run_at` has not moved since the list was read. */
  ghost predicate ItemOnTime(s: Sys, item: Item) {
    && item.id in s.drawn
    && (item.id in s.db.jobs && s.db.jobs[item.id].state.Scheduled? ==> s.db.jobs[item.id].runAt <= s.now)
  }

  ghost predicate PassOnTime(s: Sys, p: Id) {
    p in s.passes && s.passes[p].kind.DuePoll? ==>
      forall i :: 0 <= i < |s.passes[p].todo| ==> ItemOnTime(s, s.passes[p].todo[i])
  }

  ghost predicate OnTime(s: Sys) {
    s.db.jobs.Keys <= s.drawn && forall p :: PassOnTime(s, p)
  }

  lemma IdsDrawn(s: Sys, e: Event)
    requires Enabled(s, e) && s.db.jobs.Keys <= s.drawn
    ensures Apply(s, e).db.jobs.Keys <= Apply(s, e).drawn
  {
  }

  lemma ItemsStayOnTime(s: Sys, e: Event, item: Item)
    requires Enabled(s, e) && ItemOnTime(s, item)
    ensures ItemOnTime(Apply(s, e), item)
  {
  }

  lemma TodoShrinks(s: Sys, e: Event, p: Id)
    requires Enabled(s, e) && p in Apply(s, e).passes && !(e.StartPass? && e.p == p)
    ensures p in s.passes && Apply(s, e).passes[p].kind == s.passes[p].kind
    ensures Apply(s, e).passes[p].todo == s.passes[p].todo
            || (s.passes[p].todo != [] && Apply(s, e).passes[p].todo == s.passes[p].todo[1..])
  {
  }

  lemma PassesStayOnTime(s: Sys, e: Event, p: Id)
    requires OnTime(s) && Enabled(s, e)
    ensures PassOnTime(Apply(s, e), p)
  {
    var t := Apply(s, e);
    if p in t.passes && t.passes[p].kind.DuePoll? && !(e.StartPass? && e.p == p) {
      TodoShrinks(s, e, p);
      assert PassOnTime(s, p);
      forall i | 0 <= i < |t.passes[p].todo|
        ensures ItemOnTime(t, t.passes[p].todo[i])
      {
        assert t.passes[p].todo[i] in s.passes[p].todo;
        ItemsStayOnTime(s, e, t.passes[p].todo[i]);
      }
    }
  }

  lemma {:induction false} StaysOnTime(ss: seq<Sys>, es: seq<Event>, i: nat)
    requires IsRun(ss, es) && Init(ss[0]) && i < |ss|
    ensures OnTime(ss[i])
  {
    if i > 0 {
      StaysOnTime(ss, es, i - 1);
      IdsDrawn(ss[i - 1], es[i - 1]);
      forall p
        ensures PassOnTime(ss[i], p)
      {
        PassesStayOnTime(ss[i - 1], es[i - 1], p);
      }
    }
  }

  /** Job `id` is past waiting although its `run_at` lies ahead. */
  predicate Early(s: Sys, id: Id) {
    && id in s.db.jobs && !s.db.jobs[id].state.Scheduled? && !s.db.jobs[id].state.Failed?
    && s.db.jobs[id].runAt > s.now
  }

  /** Force-fail hits a failed job that is not due. */
  predicate CutsBackoff(s: Sys, e: Event) {
    e.ForceFailed? && e.id in s.db.jobs && s.db.jobs[e.id].state.Failed? && s.db.jobs[e.id].runAt > s.now
  }

  /** Event `k` of the run force-fails job `id` while it waits, with the retry time `at`. */
  ghost predicate CutAt(ss: seq<Sys>, es: seq<Event>, k: nat, id: Id, at: Time)
    requires IsRun(ss, es) && k < |es|
  {
    CutsBackoff(ss[k], es[k]) && es[k].id == id && ss[k].db.jobs[id].runAt == at
  }

  /** A pass over scheduled jobs makes none of them early, and the other passes reset `run_at` or keep it. */
  lemma EarlyByAct(s: Sys, e: Event, id: Id)
    requires OnTime(s) && Enabled(s, e) && e.Act? && Early(Apply(s, e), id)
    ensures Early(s, id) && s.db.jobs[id].runAt == Apply(s, e).db.jobs[id].runAt
  {
    assert PassOnTime(s, e.p);
    if s.passes[e.p].kind.DuePoll? {
      assert ItemOnTime(s, s.passes[e.p].todo[0]);
    }
  }

  lemma EarlyByOther(s: Sys, e: Event, id: Id)
    requires Enabled(s, e) && !e.Act? && Early(Apply(s, e), id)
    ensures id in s.db.jobs && s.db.jobs[id].runAt == Apply(s, e).db.jobs[id].runAt
    ensures Early(s, id) || (CutsBackoff(s, e) && e.id == id)
  {
  }

  /** A job is early only because it was force-failed while it waited for the very `run_at` it still carries. */
  lemma {:induction false} EarlyMeansCut(ss: seq<Sys>, es: seq<Event>, i: nat, id: Id) returns (k: nat)
    requires IsRun(ss, es) && Init(ss[0]) && i < |ss| && Early(ss[i], id)
    ensures k < i && CutAt(ss, es, k, id, ss[i].db.jobs[id].runAt)
  {
    StaysOnTime(ss, es, i - 1);
    if es[i - 1].Act? {
      EarlyByAct(ss[i - 1], es[i - 1], id);
    } else {
      EarlyByOther(ss[i - 1], es[i - 1], id);
    }
    if Early(ss[i - 1], id) {
      k := EarlyMeansCut(ss, es, i - 1, id);
    } else {
      k := i - 1;
    }
  }

  /** A claim by `w` that takes effect. */
  ghost predicate Claims(s: Sys, e: Event, w: Id, id: Id) {
    && e.Claim? && e.w == w && !e.locked && WorkerAt(s, w).Claiming? && WorkerAt(s, w).id == id && Claimable(s.db, id)
  }

  /** With any number of schedulers on stale lists and any duplicates in Redis, a claim succeeds before the row's
      `run_at` exactly when that job was force-failed while it waited for that time, which is still ahead. */
  lemma EarlyClaimIff(ss: seq<Sys>, es: seq<Event>, i: nat, w: Id, id: Id)
    requires IsRun(ss, es) && Init(ss[0]) && i < |es| && Claims(ss[i], es[i], w, id)
    ensures ss[i].now < ss[i].db.jobs[id].runAt <==>
              exists k :: 0 <= k < i && CutAt(ss, es, k, id, ss[i].db.jobs[id].runAt) && ss[i].now < ss[k].db.jobs[id].runAt
  {
    if ss[i].now < ss[i].db.jobs[id].runAt {
      var k := EarlyMeansCut(ss, es, i, id);
    }
  }

  /** So a job never force-failed during a wait that would not be over yet is never claimed early, whatever
      happened to other jobs. */
  lemma NoEarlyExecution(ss: seq<Sys>, es: seq<Event>, i: nat, w: Id, id: Id)
    requires IsRun(ss, es) && Init(ss[0]) && i < |es| && Claims(ss[i], es[i], w, id)
    requires forall k :: 0 <= k < i && CutsBackoff(ss[k], es[k]) && es[k].id == id ==> ss[k].db.jobs[id].runAt <= ss[i].now
    ensures ss[i].db.jobs[id].runAt <= ss[i].now
  {
    EarlyClaimIff(ss, es, i, w, id);
  }

  /** After any such force-fail, a replay makes the job claimable too early. */
  lemma CutBackoffRunsEarly(s: Sys, e: Event)
    requires Enabled(s, e) && CutsBackoff(s, e)
    ensures Enabled(Apply(s, e), Replayed(e.id, None))
    ensures var t := Apply(Apply(s, e), Replayed(e.id, None));
            Claimable(t.db, e.id) && t.db.jobs[e.id].runAt > t.now
  {
  }

  // ---- the backoff gap ----

  predicate Promotes(s: Sys, e: Event, id: Id) {
    e.Act? && e.p in s.passes && s.passes[e.p].kind.RetryPoll? && s.passes[e.p].todo != [] && s.passes[e.p].todo[0].id == id
  }

  /** Job `id` waits for its retry time. */
  predicate BackingOff(s: Sys, id: Id) {
    id in s.db.jobs && s.db.jobs[id].state.Failed? && s.db.jobs[id].runAt > s.now
  }

  /** The two statements that do not look at `run_at`: a promotion from a list read earlier, and force-fail. */
  predicate CutsShort(s: Sys, e: Event, id: Id) {
    BackingOff(s, id) && (Promotes(s, e, id) || (e.ForceFailed? && e.id == id))
  }

  /** A failed row stays as it is unless this very event promotes or force-fails it. */
  lemma FailedRowStays(s: Sys, e: Event, id: Id)
    requires Enabled(s, e) && id in s.db.jobs && s.db.jobs[id].state.Failed?
    requires !(e.ForceFailed? && e.id == id) && !Promotes(s, e, id)
    ensures id in Apply(s, e).db.jobs && Apply(s, e).db.jobs[id] == s.db.jobs[id]
    ensures s.now <= Apply(s, e).now
  {
  }

  /** Left uncut, a job that waits at `i` keeps waiting, row unchanged, until its retry time is past. */
  lemma {:induction false} WaitsOut(ss: seq<Sys>, es: seq<Event>, i: nat, k: nat, id: Id)
    requires IsRun(ss, es) && i <= k < |ss| && id in ss[i].db.jobs && ss[i].db.jobs[id].state.Failed?
    requires forall m :: i <= m < k ==> !CutsShort(ss[m], es[m], id)
    ensures ss[i].db.jobs[id].runAt <= ss[k].now
            || (id in ss[k].db.jobs && ss[k].db.jobs[id] == ss[i].db.jobs[id])
    decreases k - i
  {
    if i < k {
      WaitsOut(ss, es, i, k - 1, id);
      ClockForward(ss[k - 1], es[k - 1]);
      if ss[k - 1].now < ss[i].db.jobs[id].runAt {
        FailedRowStays(ss[k - 1], es[k - 1], id);
      }
    }
  }

  lemma ClockForward(s: Sys, e: Event)
    requires Enabled(s, e)
    ensures s.now <= Apply(s, e).now
  {
  }

  /** FailJob, landing in state `i` with attempts left, sets a retry time at least four fifths of the
      capped exponential delay after the moment the worker saw the failure. */
  lemma FailureSetsBackoff(ss: seq<Sys>, es: seq<Event>, i: nat, v: Id)
    requires IsRun(ss, es) && Init(ss[0]) && i < |es| && es[i] == RecordFailure(v) && WorkerAt(ss[i], v).Failing?
    requires var k := WorkerAt(ss[i], v);
             Holds(ss[i].db, k.id, k.token) && ss[i].db.jobs[k.id].backoff >= 0 && ss[i + 1].db.jobs[k.id].state.Failed?
    ensures var k := WorkerAt(ss[i], v);
            var j := ss[i + 1].db.jobs[k.id];
            && j.attempt >= 1 && j.backoff >= 0
            && var d := Min(j.backoff * Pow2(j.attempt), 3600);
            j.runAt >= k.failedAt + (d - d / 5) * SECOND
  {
    SnapshotAgreement(ss, es, i, v);
    InitRel(ss[0]);
    var cs, sts := RedisIsOnlyAHint(ss, es, L.Core(ss[0].now, ss[0].db, map[], map[], map[]));
    var k := WorkerAt(ss[i], v);
    assert Rel(ss[i], cs[i]) && WorkerOk(ss[i], cs[i], k);
    AttemptsNatural(ss[i], cs[i], k.id);
    var delay :| RetryDelay(k.snap, delay) && k.next.value == k.failedAt + delay * SECOND;
    PossibleBounds(k.snap.attempt + 1, k.snap.backoff, delay);
  }

  lemma AttemptsNatural(s: Sys, c: L.Core, id: Id)
    requires Rel(s, c) && id in s.db.jobs
    ensures s.db.jobs[id].attempt >= 0
  {
    assert LedgerInvariants.JobInv(c, id);
  }

  /** The backoff gap: after a recorded failure that left the job retryable, with attempt raised to a, no
      claim of it succeeds before the retry time the failure set, hence none within d - d/5 seconds of the
      failure, d = min(backoff * 2^a, 3600), unless meanwhile that wait itself was cut short. */
  lemma BackoffGap(ss: seq<Sys>, es: seq<Event>, i: nat, k: nat, v: Id, w: Id)
    requires IsRun(ss, es) && Init(ss[0]) && i < k < |es|
    requires es[i] == RecordFailure(v) && WorkerAt(ss[i], v).Failing?
    requires var f := WorkerAt(ss[i], v);
             && Holds(ss[i].db, f.id, f.token) && ss[i + 1].db.jobs[f.id].state.Failed?
             && Claims(ss[k], es[k], w, f.id)
    requires forall m :: i < m < k ==> !CutsShort(ss[m], es[m], WorkerAt(ss[i], v).id)
    ensures var f := WorkerAt(ss[i], v);
            var j := ss[i + 1].db.jobs[f.id];
            && ss[k].now >= j.runAt
            && (j.backoff >= 0 ==>
                  && j.attempt >= 1
                  && var d := Min(j.backoff * Pow2(j.attempt), 3600);
                  ss[k].now >= f.failedAt + (d - d / 5) * SECOND)
  {
    var f := WorkerAt(ss[i], v);
    WaitsOut(ss, es, i + 1, k, f.id);
    if ss[i + 1].db.jobs[f.id].backoff >= 0 {
      FailureSetsBackoff(ss, es, i, v);
    }
  }

  /** The condition is exact. Of all events, those that cut the wait short are the ones that change the row
      of a waiting job at all; and after any of them the job is claimable before its retry time, at once
      after a promotion and by a replay after a force-fail. */
  lemma CutIsExact(s: Sys, e: Event, id: Id)
    requires Enabled(s, e) && BackingOff(s, id)
    ensures CutsShort(s, e, id) <==> !(id in Apply(s, e).db.jobs && Apply(s, e).db.jobs[id] == s.db.jobs[id])
    ensures Enabled(Apply(s, e), Replayed(id, None))
    ensures CutsShort(s, e, id) ==>
              var t := if e.ForceFailed? then Apply(Apply(s, e), Replayed(id, None)) else Apply(s, e);
              Claimable(t.db, id) && t.now < s.db.jobs[id].runAt
  {
    if !CutsShort(s, e, id) {
      FailedRowStays(s, e, id);
    }
  }

  // ---- when no wait is ever cut short ----

  /** Retry lists are read one at a time, and no failed job is force-failed. */
  ghost predicate Orderly(s: Sys, e: Event) {
    && (e.StartPass? && e.kind.RetryPoll? ==> forall p :: p in s.passes ==> !s.passes[p].kind.RetryPoll?)
    && (e.ForceFailed? ==> !(e.id in s.db.jobs && s.db.jobs[e.id].state.Failed?))
  }

  ghost predicate ItemReady(s: Sys, item: Item) {
    item.id in s.db.jobs && s.db.jobs[item.id].state.Failed? && s.db.jobs[item.id].runAt <= s.now
  }

  ghost predicate RetryPassOk(s: Sys, p: Id) {
    p in s.passes && s.passes[p].kind.RetryPoll? ==>
      && (forall i :: 0 <= i < |s.passes[p].todo| ==> ItemReady(s, s.passes[p].todo[i]))
      && (forall i, k :: 0 <= i < k < |s.passes[p].todo| ==> s.passes[p].todo[i].id != s.passes[p].todo[k].id)
  }

  ghost predicate Lone(s: Sys, p: Id, q: Id) {
    p in s.passes && q in s.passes && s.passes[p].kind.RetryPoll? && s.passes[q].kind.RetryPoll? ==> p == q
  }

  /** The one retry list in use names only failed, due jobs, each once. */
  ghost predicate RetriesOk(s: Sys) {
    (forall p :: RetryPassOk(s, p)) && (forall p, q :: Lone(s, p, q))
  }

  lemma RetryPassStays(s: Sys, e: Event, p: Id)
    requires RetriesOk(s) && Enabled(s, e) && Orderly(s, e)
    ensures RetryPassOk(Apply(s, e), p)
  {
    var t := Apply(s, e);
    if p in t.passes && t.passes[p].kind.RetryPoll? && !(e.StartPass? && e.p == p) {
      TodoShrinks(s, e, p);
      assert RetryPassOk(s, p);
      forall i | 0 <= i < |t.passes[p].todo|
        ensures ItemReady(t, t.passes[p].todo[i])
      {
        var item := t.passes[p].todo[i];
        assert item in s.passes[p].todo;
        assert ItemReady(s, item);
        if e.Act? {
          assert Lone(s, p, e.p);
        }
        FailedRowStays(s, e, item.id);
      }
    }
  }

  lemma LoneStays(s: Sys, e: Event, p: Id, q: Id)
    requires RetriesOk(s) && Enabled(s, e) && Orderly(s, e)
    ensures Lone(Apply(s, e), p, q)
  {
    assert Lone(s, p, q);
    var t := Apply(s, e);
    if p in t.passes && q in t.passes && p != q {
      if !(e.StartPass? && e.p == p) {
        TodoShrinks(s, e, p);
      }
      if !(e.StartPass? && e.p == q) {
        TodoShrinks(s, e, q);
      }
    }
  }

  lemma {:induction false} StaysOrderly(ss: seq<Sys>, es: seq<Event>, i: nat)
    requires IsRun(ss, es) && Init(ss[0]) && i < |ss|
    requires forall k :: 0 <= k < i ==> Orderly(ss[k], es[k])
    ensures RetriesOk(ss[i])
  {
    if i > 0 {
      StaysOrderly(ss, es, i - 1);
      forall p
        ensures RetryPassOk(ss[i], p)
      {
        RetryPassStays(ss[i - 1], es[i - 1], p);
      }
      forall p, q
        ensures Lone(ss[i], p, q)
      {
        LoneStays(ss[i - 1], es[i - 1], p, q);
      }
    }
  }

  /** A single retry loop that is left to finish each list before it reads the next never cuts a wait short. */
  lemma OneLoopNeverCuts(ss: seq<Sys>, es: seq<Event>, k: nat, id: Id)
    requires IsRun(ss, es) && Init(ss[0]) && k < |es|
    requires forall m :: 0 <= m <= k ==> Orderly(ss[m], es[m])
    ensures !CutsShort(ss[k], es[k], id)
  {
    StaysOrderly(ss, es, k);
    if Promotes(ss[k], es[k], id) {
      assert RetryPassOk(ss[k], es[k].p);
      assert ItemReady(ss[k], ss[k].passes[es[k].p].todo[0]);
    }
  }
}
