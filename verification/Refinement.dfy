/** The cluster refines the Redis-free protocol: whatever Redis holds, loses or repeats, and however
    workers and passes interleave, every run of the cluster is, on the tables, a run of the Ledger. */
module Refinement {
  import opened Types
  import opened Storage
  import opened Backoff
  import opened Cluster
  import opened LedgerInvariants
  import opened LedgerRuns
  import L = Ledger

  // ---- what a worker's local variables mean ----

  /** `token` is the token of the claim of job `id` whose run is `run`. */
  ghost predicate Owns(c: L.Core, id: Id, run: Id, token: Id) {
    && token in c.home && c.home[token].job == id && At(c, c.home[token])
    && c.hist[id].claims[c.home[token].index].token == token
    && c.hist[id].claims[c.home[token].index].run == run
  }

  /** While the token is still in the row, the snapshot agrees with it. */
  ghost predicate SnapOk(db: Db, id: Id, token: Id, snap: Job) {
    id in db.jobs && db.jobs[id].token == Some(token) ==>
      && snap.attempt == db.jobs[id].attempt && snap.maxRetries == db.jobs[id].maxRetries
      && snap.backoff == db.jobs[id].backoff
  }

  /** The worker's claim completed and its second statement is outstanding. */
  ghost predicate Half(c: L.Core, id: Id, token: Id, at: Time) {
    && id in c.hist && c.hist[id].Any() && c.hist[id].Last().token == token
    && c.hist[id].Last().outcome == L.Completed(at, false)
  }

  /** The retry time the worker computed at `failedAt` from its snapshot. */
  ghost predicate NextOk(snap: Job, failedAt: Time, next: Option<Time>) {
    && (next.Some? <==> ShouldRetry(snap.attempt, snap.maxRetries))
    && (next.Some? ==> exists delay :: RetryDelay(snap, delay) && next.value == failedAt + delay * SECOND)
  }

  ghost predicate WorkerOk(s: Sys, c: L.Core, w: Worker) {
    match w
    case Idle => true
    case Polling(_) => true
    case Got(_) => true
    case Claiming(_, token, base) => token in s.drawn && token !in c.home && base <= s.now
    case Fetching(id, run, token) => Owns(c, id, run, token)
    case Loaded(id, run, token, snap) => Owns(c, id, run, token) && SnapOk(s.db, id, token, snap)
    case Executing(id, run, token, snap) => Owns(c, id, run, token) && SnapOk(s.db, id, token, snap)
    case Completing(id, run, token, _) => Owns(c, id, run, token)
    case Closing(id, run, token, at) => Owns(c, id, run, token) && Half(c, id, token, at)
    case Failing(id, run, token, snap, failedAt, next, _) =>
      Owns(c, id, run, token) && SnapOk(s.db, id, token, snap) && failedAt <= s.now && NextOk(snap, failedAt, next)
    case Removing(_) => true
  }

  function TokenOf(w: Worker): Option<Id> {
    if w.Idle? || w.Polling? || w.Got? || w.Removing? then None else Some(w.token)
  }

  ghost predicate Apart(s: Sys, v: Id, w: Id) {
    v != w && TokenOf(WorkerAt(s, v)).Some? ==> TokenOf(WorkerAt(s, v)) != TokenOf(WorkerAt(s, w))
  }

  /** The cluster state `s` is represented by the Ledger state `c`. */
  ghost predicate Rel(s: Sys, c: L.Core) {
    && s.db == c.db && s.now == c.now && Inv(c)
    && c.hist.Keys <= s.drawn && c.home.Keys <= s.drawn && c.owner.Keys <= s.drawn
    && (forall w :: WorkerOk(s, c, WorkerAt(s, w)))
    && (forall v, w :: Apart(s, v, w))
    && (forall b :: b in s.beats ==> b.base <= s.now)
  }

  // ---- one event is one Ledger step ----

  const STUTTER: L.Step := L.Tick(0)

  /** The Ledger step of an event; events that touch no table are ticks of zero length. */
  function StepOf(s: Sys, e: Event): L.Step {
    match e
    case Advance(span) => L.Tick(span)
    case Submitted(id, row) => L.Submit(id, row)
    case Cancelled(id, tenant) => L.Cancel(id, tenant)
    case Replayed(id, scope) => L.Replay(id, scope)
    case ForceFailed(id) => L.ForceFail(id)
    case Lettered(id) => L.DeadLetter(id)
    case LandBeat(beat) => L.Extend(beat.id, beat.token, beat.base)
    case Act(p) => ActStep(s, p)
    case Claim(_, _, _) => WorkerStep(s, e)
    case Mark(_, _) => WorkerStep(s, e)
    case CompleteFirst(_) => WorkerStep(s, e)
    case CompleteSecond(_) => WorkerStep(s, e)
    case RecordFailure(_) => WorkerStep(s, e)
    case _ => STUTTER
  }

  predicate Statement(e: Event) {
    e.Claim? || e.Mark? || e.CompleteFirst? || e.CompleteSecond? || e.RecordFailure?
  }

  function WorkerStep(s: Sys, e: Event): L.Step
    requires Statement(e)
  {
    var k := WorkerAt(s, e.w);
    if e.Claim? && k.Claiming? && !e.locked && Claimable(s.db, k.id) then L.TryClaim(k.id, e.w, k.token, e.run, k.base)
    else if e.Mark? && k.Loaded? && !e.lost then L.MarkRunning(k.id, k.token)
    else if e.CompleteFirst? && k.Completing? then L.Complete(k.id, k.token, k.at)
    else if e.CompleteSecond? && k.Closing? then L.CompleteRun(k.id)
    else if e.RecordFailure? && k.Failing? then L.Fail(k.id, k.token, k.run, k.error, k.next)
    else STUTTER
  }

  function ActStep(s: Sys, p: Id): L.Step {
    if p !in s.passes || s.passes[p].todo == [] then STUTTER else
      var id := s.passes[p].todo[0].id;
      match s.passes[p].kind
      case DuePoll => L.PromoteScheduled(id)
      case RetryPoll => L.PromoteFailed(id)
      case StaleReap => L.Reap(id)
      case Reconcile => STUTTER
  }

  lemma StepEnabled(s: Sys, c: L.Core, e: Event)
    requires Rel(s, c) && Enabled(s, e)
    ensures L.Enabled(c, StepOf(s, e))
  {
    if Statement(e) {
      assert WorkerOk(s, c, WorkerAt(s, e.w));
      if e.RecordFailure? {
        assert JobInv(c, WorkerAt(s, e.w).id);
      }
    }
  }

  lemma ClosingTables(s: Sys, c: L.Core, e: Event)
    requires Rel(s, c) && Enabled(s, e) && e.CompleteSecond? && L.Enabled(c, StepOf(s, e))
    ensures Apply(s, e).db == L.Apply(c, StepOf(s, e)).db
  {
    assert WorkerOk(s, c, WorkerAt(s, e.w));
    assert JobInv(c, WorkerAt(s, e.w).id);
  }

  lemma StatementTables(s: Sys, c: L.Core, e: Event)
    requires s.db == c.db && s.now == c.now && Enabled(s, e) && Statement(e) && !e.CompleteSecond?
    requires L.Enabled(c, StepOf(s, e))
    ensures Apply(s, e).db == L.Apply(c, StepOf(s, e)).db
  {
  }

  lemma PassTables(s: Sys, c: L.Core, e: Event)
    requires s.db == c.db && s.now == c.now && Enabled(s, e) && e.Act? && L.Enabled(c, StepOf(s, e))
    ensures Apply(s, e).db == L.Apply(c, StepOf(s, e)).db
  {
  }

  lemma OtherTables(s: Sys, c: L.Core, e: Event)
    requires s.db == c.db && s.now == c.now && Enabled(s, e) && !Statement(e) && !e.Act? && L.Enabled(c, StepOf(s, e))
    ensures Apply(s, e).db == L.Apply(c, StepOf(s, e)).db
  {
  }

  lemma SameClock(s: Sys, c: L.Core, e: Event)
    requires s.now == c.now && Enabled(s, e) && L.Enabled(c, StepOf(s, e))
    ensures Apply(s, e).now == L.Apply(c, StepOf(s, e)).now
    ensures s.now <= Apply(s, e).now && s.drawn <= Apply(s, e).drawn
  {
  }

  lemma SameTables(s: Sys, c: L.Core, e: Event)
    requires Rel(s, c) && Enabled(s, e) && L.Enabled(c, StepOf(s, e))
    ensures Apply(s, e).db == L.Apply(c, StepOf(s, e)).db
  {
    if e.CompleteSecond? {
      ClosingTables(s, c, e);
    } else if Statement(e) {
      StatementTables(s, c, e);
    } else if e.Act? {
      PassTables(s, c, e);
    } else {
      OtherTables(s, c, e);
    }
  }

  lemma StutterStays(c: L.Core)
    ensures L.Apply(c, STUTTER) == c
  {
  }

  lemma StepShape(s: Sys, e: Event)
    requires Enabled(s, e)
    ensures StepOf(s, e).TryClaim? ==>
              && e.Claim? && WorkerAt(s, e.w).Claiming? && Claimable(s.db, WorkerAt(s, e.w).id) && !e.locked
              && StepOf(s, e).token == WorkerAt(s, e.w).token && StepOf(s, e).run == e.run
    ensures StepOf(s, e).CompleteRun? ==>
              e.CompleteSecond? && WorkerAt(s, e.w).Closing? && StepOf(s, e).id == WorkerAt(s, e.w).id
    ensures StepOf(s, e).Submit? ==> e.Submitted? && StepOf(s, e).id == e.id
  {
  }

  // ---- other workers' knowledge survives a step ----

  lemma OwnsStable(c: L.Core, st: L.Step, id: Id, run: Id, token: Id)
    requires Inv(c) && L.Enabled(c, st) && Owns(c, id, run, token)
    ensures Owns(L.Apply(c, st), id, run, token)
  {
    var d := L.Apply(c, st);
    StepLater(c, st);
    StepKeepsInv(c, st);
    assert LaterJob(c, d, id);
    assert JobInv(d, id);
    var p := c.home[token].index;
    assert LaterClaim(c.hist[id].claims[p], d.hist[id].claims[p]);
    assert d.home[d.hist[id].claims[p].token] == L.Place(id, p);
  }

  /** A token already claimed can only stay in a row; meanwhile attempt and policy do not move. */
  lemma TokenStays(c: L.Core, st: L.Step, id: Id, token: Id)
    requires Inv(c) && L.Enabled(c, st) && token in c.home
    requires id in L.Apply(c, st).db.jobs && L.Apply(c, st).db.jobs[id].token == Some(token)
    ensures id in c.db.jobs && c.db.jobs[id].token == Some(token)
    ensures var j, k := c.db.jobs[id], L.Apply(c, st).db.jobs[id];
            k.attempt == j.attempt && k.maxRetries == j.maxRetries && k.backoff == j.backoff
  {
    if st.Tick? || st.id != id {
      OtherRowsKept(c, st, id);
    } else {
      assert JobInv(c, id);
    }
  }

  lemma HalfStable(c: L.Core, st: L.Step, id: Id, token: Id, at: Time)
    requires Inv(c) && L.Enabled(c, st) && Half(c, id, token, at) && st != L.CompleteRun(id)
    ensures Half(L.Apply(c, st), id, token, at)
  {
    if st.Tick? || st.id != id {
      OtherHistoriesKept(c, st, id);
    } else {
      assert JobInv(c, id);
    }
  }

  lemma WorkerStable(s: Sys, c: L.Core, t: Sys, st: L.Step, k: Worker)
    requires Inv(c) && s.db == c.db && L.Enabled(c, st) && WorkerOk(s, c, k)
    requires t.db == L.Apply(c, st).db && s.drawn <= t.drawn && s.now <= t.now
    requires k.Claiming? && st.TryClaim? ==> st.token != k.token
    requires k.Closing? ==> st != L.CompleteRun(k.id)
    ensures WorkerOk(t, L.Apply(c, st), k)
  {
    var d := L.Apply(c, st);
    match k
    case Idle =>
    case Polling(_) =>
    case Got(_) =>
    case Removing(_) =>
    case Claiming(_, token, _) =>
    case Fetching(id, run, token) => OwnsStable(c, st, id, run, token);
    case Completing(id, run, token, _) => OwnsStable(c, st, id, run, token);
    case Closing(id, run, token, at) =>
      OwnsStable(c, st, id, run, token);
      HalfStable(c, st, id, token, at);
    case Loaded(id, run, token, snap) =>
      OwnsStable(c, st, id, run, token);
      SnapStable(c, st, id, token, snap);
    case Executing(id, run, token, snap) =>
      OwnsStable(c, st, id, run, token);
      SnapStable(c, st, id, token, snap);
    case Failing(id, run, token, snap, _, _, _) =>
      OwnsStable(c, st, id, run, token);
      SnapStable(c, st, id, token, snap);
  }

  lemma SnapStable(c: L.Core, st: L.Step, id: Id, token: Id, snap: Job)
    requires Inv(c) && L.Enabled(c, st) && token in c.home && SnapOk(c.db, id, token, snap)
    ensures SnapOk(L.Apply(c, st).db, id, token, snap)
  {
    var d := L.Apply(c, st);
    if id in d.db.jobs && d.db.jobs[id].token == Some(token) {
      TokenStays(c, st, id, token);
    }
  }

  // ---- the acting worker's new knowledge ----

  ghost predicate Acts(e: Event) {
    Statement(e) || e.Cycle? || e.Pop? || e.Begin? || e.Fetch? || e.Finish? || e.Release? || e.Crash?
  }

  lemma Bystanders(s: Sys, e: Event, v: Id)
    requires Enabled(s, e) && !(Acts(e) && e.w == v)
    ensures WorkerAt(Apply(s, e), v) == WorkerAt(s, v)
  {
  }

  lemma ClaimOwns(c: L.Core, st: L.Step)
    requires Inv(c) && L.Enabled(c, st) && st.TryClaim? && Claimable(c.db, st.id)
    ensures Owns(L.Apply(c, st), st.id, st.run, st.token)
  {
    assert JobInv(c, st.id);
  }

  lemma CompleteIsHalf(c: L.Core, st: L.Step)
    requires Inv(c) && L.Enabled(c, st) && st.Complete? && Holds(c.db, st.id, st.token)
    ensures Half(L.Apply(c, st), st.id, st.token, st.at)
  {
    assert JobInv(c, st.id);
  }

  lemma QuietActorOk(s: Sys, c: L.Core, e: Event)
    requires Enabled(s, e) && Acts(e) && !Statement(e) && WorkerOk(s, c, WorkerAt(s, e.w))
    requires c.home.Keys <= s.drawn
    ensures WorkerOk(Apply(s, e), c, WorkerAt(Apply(s, e), e.w))
  {
    if e.Finish? {
      assert RetryDelay(WorkerAt(s, e.w).snap, e.delay);
    }
  }

  lemma ClaimingActorOk(s: Sys, c: L.Core, e: Event)
    requires Inv(c) && s.db == c.db && Enabled(s, e) && e.Claim? && L.Enabled(c, StepOf(s, e))
    ensures WorkerOk(Apply(s, e), L.Apply(c, StepOf(s, e)), WorkerAt(Apply(s, e), e.w))
  {
    if StepOf(s, e).TryClaim? {
      ClaimOwns(c, StepOf(s, e));
    }
  }

  lemma StatementActorOk(s: Sys, c: L.Core, e: Event, t: Sys)
    requires Inv(c) && s.db == c.db && Enabled(s, e) && Statement(e) && !e.Claim? && WorkerOk(s, c, WorkerAt(s, e.w))
    requires L.Enabled(c, StepOf(s, e)) && t == Apply(s, e)
    requires t.db == L.Apply(c, StepOf(s, e)).db && s.now <= t.now && s.drawn <= t.drawn
    ensures WorkerOk(t, L.Apply(c, StepOf(s, e)), WorkerAt(t, e.w))
  {
    if e.CompleteFirst? {
      FirstActorOk(s, c, e, t);
    } else if e.Mark? {
      WorkerStable(s, c, t, StepOf(s, e), WorkerAt(s, e.w));
    }
  }

  lemma FirstActorOk(s: Sys, c: L.Core, e: Event, t: Sys)
    requires Inv(c) && s.db == c.db && Enabled(s, e) && e.CompleteFirst? && WorkerOk(s, c, WorkerAt(s, e.w))
    requires L.Enabled(c, StepOf(s, e)) && t == Apply(s, e)
    requires t.db == L.Apply(c, StepOf(s, e)).db && s.now <= t.now && s.drawn <= t.drawn
    ensures WorkerOk(t, L.Apply(c, StepOf(s, e)), WorkerAt(t, e.w))
  {
    var k := WorkerAt(s, e.w);
    WorkerStable(s, c, t, StepOf(s, e), k);
    if Holds(s.db, k.id, k.token) {
      CompleteIsHalf(c, StepOf(s, e));
    }
  }

  lemma ActorOk(s: Sys, c: L.Core, e: Event)
    requires Rel(s, c) && Enabled(s, e) && Acts(e) && L.Enabled(c, StepOf(s, e))
    ensures WorkerOk(Apply(s, e), L.Apply(c, StepOf(s, e)), WorkerAt(Apply(s, e), e.w))
  {
    assert WorkerOk(s, c, WorkerAt(s, e.w));
    SameClock(s, c, e);
    if e.Claim? {
      ClaimingActorOk(s, c, e);
    } else if Statement(e) {
      SameTables(s, c, e);
      StatementActorOk(s, c, e, Apply(s, e));
    } else {
      QuietActor(s, c, e);
    }
  }

  lemma QuietActor(s: Sys, c: L.Core, e: Event)
    requires Enabled(s, e) && Acts(e) && !Statement(e) && WorkerOk(s, c, WorkerAt(s, e.w)) && c.home.Keys <= s.drawn
    ensures L.Enabled(c, StepOf(s, e))
    ensures WorkerOk(Apply(s, e), L.Apply(c, StepOf(s, e)), WorkerAt(Apply(s, e), e.w))
  {
    QuietActorOk(s, c, e);
    StutterStays(c);
  }

  /** Two workers never share a token, so nobody else is closing the same run. */
  lemma OneCloser(s: Sys, c: L.Core, v: Id, w: Id)
    requires Rel(s, c) && WorkerAt(s, v).Closing? && WorkerAt(s, w).Closing? && WorkerAt(s, v).id == WorkerAt(s, w).id
    ensures v == w
  {
    assert WorkerOk(s, c, WorkerAt(s, v)) && WorkerOk(s, c, WorkerAt(s, w));
    assert Apart(s, v, w);
  }

  lemma BystanderOk(s: Sys, c: L.Core, e: Event, t: Sys, v: Id)
    requires Rel(s, c) && Enabled(s, e) && L.Enabled(c, StepOf(s, e)) && !(Acts(e) && e.w == v)
    requires t.db == L.Apply(c, StepOf(s, e)).db && s.now <= t.now && s.drawn <= t.drawn
    ensures WorkerOk(t, L.Apply(c, StepOf(s, e)), WorkerAt(s, v))
  {
    var k, st := WorkerAt(s, v), StepOf(s, e);
    assert WorkerOk(s, c, k);
    StepShape(s, e);
    if st.TryClaim? {
      assert Apart(s, e.w, v);
    }
    if k.Closing? && st == L.CompleteRun(k.id) {
      OneCloser(s, c, v, e.w);
    }
    WorkerStable(s, c, t, st, k);
  }

  lemma StaysApart(s: Sys, c: L.Core, e: Event, v: Id, w: Id)
    requires Rel(s, c) && Enabled(s, e)
    ensures Apart(Apply(s, e), v, w)
  {
    assert Apart(s, v, w) && WorkerOk(s, c, WorkerAt(s, v)) && WorkerOk(s, c, WorkerAt(s, w));
    if !(Acts(e) && e.w == v) {
      Bystanders(s, e, v);
    }
    if !(Acts(e) && e.w == w) {
      Bystanders(s, e, w);
    }
  }

  lemma LedgerKeys(c: L.Core, st: L.Step)
    requires Inv(c) && L.Enabled(c, st)
    ensures var d := L.Apply(c, st);
            && (forall k :: k in d.hist && k !in c.hist ==> st.Submit? && k == st.id)
            && (forall k :: k in d.home && k !in c.home ==> st.TryClaim? && k == st.token)
            && (forall k :: k in d.owner && k !in c.owner ==> st.TryClaim? && k == st.run)
  {
    if !st.Tick? {
      assert JobInv(c, st.id);
    }
  }

  lemma KeysDrawn(s: Sys, c: L.Core, e: Event)
    requires Rel(s, c) && Enabled(s, e) && L.Enabled(c, StepOf(s, e))
    ensures var t, d := Apply(s, e), L.Apply(c, StepOf(s, e));
            d.hist.Keys <= t.drawn && d.home.Keys <= t.drawn && d.owner.Keys <= t.drawn
  {
    LedgerKeys(c, StepOf(s, e));
    SameClock(s, c, e);
    StepShape(s, e);
    if StepOf(s, e).TryClaim? {
      assert WorkerOk(s, c, WorkerAt(s, e.w));
      assert e.run in Apply(s, e).drawn;
    }
  }

  lemma BeatsOk(s: Sys, e: Event)
    requires Enabled(s, e) && forall b :: b in s.beats ==> b.base <= s.now
    ensures forall b :: b in Apply(s, e).beats ==> b.base <= Apply(s, e).now
  {
  }

  /** Every event of the cluster is one step of the Ledger on the state that represents it. */
  lemma Simulates(s: Sys, c: L.Core, e: Event)
    requires Rel(s, c) && Enabled(s, e)
    ensures L.Enabled(c, StepOf(s, e))
    ensures Rel(Apply(s, e), L.Apply(c, StepOf(s, e)))
  {
    StepEnabled(s, c, e);
    var t, d := Apply(s, e), L.Apply(c, StepOf(s, e));
    SameTables(s, c, e);
    SameClock(s, c, e);
    StepKeepsInv(c, StepOf(s, e));
    KeysDrawn(s, c, e);
    BeatsOk(s, e);
    forall v
      ensures WorkerOk(t, d, WorkerAt(t, v))
    {
      if Acts(e) && e.w == v {
        ActorOk(s, c, e);
      } else {
        BystanderOk(s, c, e, t, v);
        Bystanders(s, e, v);
      }
    }
    forall v, w
      ensures Apart(t, v, w)
    {
      StaysApart(s, c, e, v, w);
    }
  }

  // ---- whole runs ----

  lemma InitRel(s: Sys)
    requires Init(s)
    ensures Rel(s, L.Core(s.now, s.db, map[], map[], map[]))
    ensures L.Init(L.Core(s.now, s.db, map[], map[], map[]))
  {
    InitInv(L.Core(s.now, s.db, map[], map[], map[]));
  }

  /** `cs` follows the run `ss` state by state, and is itself a run of the Ledger. */
  ghost predicate Follows(ss: seq<Sys>, es: seq<Event>, cs: seq<L.Core>, sts: seq<L.Step>)
    requires IsRun(ss, es)
  {
    && |cs| == |ss| && L.IsRun(cs, sts)
    && (forall i :: 0 <= i < |ss| ==> Rel(ss[i], cs[i]))
    && (forall i :: 0 <= i < |es| ==> sts[i] == StepOf(ss[i], es[i]))
  }

  /** The Ledger state that represents state `i` of a run. */
  ghost function Shadow(ss: seq<Sys>, es: seq<Event>, c: L.Core, i: nat): (d: L.Core)
    requires IsRun(ss, es) && Rel(ss[0], c) && i < |ss|
    ensures Rel(ss[i], d)
    decreases i
  {
    if i == 0 then c
    else
      var d := Shadow(ss, es, c, i - 1);
      Simulates(ss[i - 1], d, es[i - 1]);
      L.Apply(d, StepOf(ss[i - 1], es[i - 1]))
  }

  lemma ShadowSteps(ss: seq<Sys>, es: seq<Event>, c: L.Core, i: nat)
    requires IsRun(ss, es) && Rel(ss[0], c) && i < |es|
    ensures L.Enabled(Shadow(ss, es, c, i), StepOf(ss[i], es[i]))
    ensures Shadow(ss, es, c, i + 1) == L.Apply(Shadow(ss, es, c, i), StepOf(ss[i], es[i]))
  {
    Simulates(ss[i], Shadow(ss, es, c, i), es[i]);
  }

  /** Redis is only a hint: for arbitrary list contents and losses, every run of the cluster follows
      a run of the system in which any worker may try to claim any id at any time. */
  lemma RedisIsOnlyAHint(ss: seq<Sys>, es: seq<Event>, c: L.Core) returns (cs: seq<L.Core>, sts: seq<L.Step>)
    requires IsRun(ss, es) && Rel(ss[0], c)
    ensures Follows(ss, es, cs, sts) && cs[0] == c
  {
    cs := seq(|ss|, i requires 0 <= i < |ss| => Shadow(ss, es, c, i));
    sts := seq(|es|, i requires 0 <= i < |es| => StepOf(ss[i], es[i]));
    forall i | 0 <= i < |es|
      ensures L.Enabled(cs[i], sts[i]) && cs[i + 1] == L.Apply(cs[i], sts[i])
    {
      ShadowSteps(ss, es, c, i);
    }
  }

  /** At most one worker of the whole cluster holds a job, in every state of every run. */
  lemma OneHolder(ss: seq<Sys>, es: seq<Event>, i: nat, v: Id, w: Id, id: Id)
    requires IsRun(ss, es) && Init(ss[0]) && i < |ss|
    requires TokenOf(WorkerAt(ss[i], v)).Some? && Holds(ss[i].db, id, TokenOf(WorkerAt(ss[i], v)).value)
    requires TokenOf(WorkerAt(ss[i], w)).Some? && Holds(ss[i].db, id, TokenOf(WorkerAt(ss[i], w)).value)
    ensures v == w
  {
    InitRel(ss[0]);
    var cs, sts := RedisIsOnlyAHint(ss, es, L.Core(ss[0].now, ss[0].db, map[], map[], map[]));
    assert Rel(ss[i], cs[i]);
    assert Apart(ss[i], v, w);
  }

  /** The snapshot read after TryClaim still agrees with the row if FailJob finds the token, so a job
      FailJob leaves retryable always gets the retry time the worker computed. */
  lemma SnapshotAgreement(ss: seq<Sys>, es: seq<Event>, i: nat, w: Id)
    requires IsRun(ss, es) && Init(ss[0]) && i < |ss| && WorkerAt(ss[i], w).Failing?
    requires Holds(ss[i].db, WorkerAt(ss[i], w).id, WorkerAt(ss[i], w).token)
    ensures var k := WorkerAt(ss[i], w);
            var j, j' := ss[i].db.jobs[k.id], AfterFailure(ss[i], w).db.jobs[k.id];
            && k.snap.attempt == j.attempt && k.snap.maxRetries == j.maxRetries && k.snap.backoff == j.backoff
            && j'.attempt == j.attempt + 1
            && (j'.state.Failed? ==> k.next.Some? && j'.runAt == k.next.value)
  {
    InitRel(ss[0]);
    var cs, sts := RedisIsOnlyAHint(ss, es, L.Core(ss[0].now, ss[0].db, map[], map[], map[]));
    assert Rel(ss[i], cs[i]);
    assert WorkerOk(ss[i], cs[i], WorkerAt(ss[i], w));
  }
}
