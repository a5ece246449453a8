/** What a healthy scheduler and one healthy worker can bring about from any reachable state. */
module Progress {
  import opened Types
  import opened Storage
  import opened Backoff
  import opened Cluster
  import opened Refinement
  import opened Queue
  import Accounting
  import Shuffle
  import LedgerInvariants
  import L = Ledger

  /** One worker that neither crashes nor meets locked rows, the active tenants, and what executing
      a job at a given attempt leads to. */
  datatype Setting = Setting(w: Id, active: seq<Id>, verdict: (Id, int) -> bool)

  /** `keys` is what one cycle of Dequeue visits, for some order of the active tenants. */
  ghost predicate IsCycle(active: seq<Id>, keys: seq<Key>) {
    exists order: seq<Id> :: SameIds(order, active) && keys == Visits(order)
  }

  /** Time passing, scheduler passes without errors, and the healthy worker going about its work. */
  ghost predicate Healthy(s: Sys, e: Event, h: Setting) {
    match e
    case Advance(_) => true
    case StartPass(_, _, _) => true
    case Act(_) => true
    case PushOne(_) => true
    case EndPass(p) => p in s.passes && s.passes[p].todo == [] && s.passes[p].push.None?
    case Cycle(w, keys) => w == h.w && IsCycle(h.active, keys)
    case Pop(w) => w == h.w
    case Begin(w, _) => w == h.w
    case Claim(w, _, locked) => w == h.w && !locked
    case Fetch(w) => w == h.w
    case Mark(w, lost) => w == h.w && !lost
    case Finish(w, ok, _, _) =>
      w == h.w && WorkerAt(s, w).Executing? && ok == h.verdict(WorkerAt(s, w).id, WorkerAt(s, w).snap.attempt)
    case CompleteFirst(w) => w == h.w
    case CompleteSecond(w) => w == h.w
    case RecordFailure(w) => w == h.w
    case Release(w) => w == h.w
    case _ => false
  }

  ghost predicate IsHealthyRun(ss: seq<Sys>, es: seq<Event>, h: Setting) {
    IsRun(ss, es) && forall i :: 0 <= i < |es| ==> Healthy(ss[i], es[i], h)
  }

  /** A healthy run leads from `s` to `t`. */
  ghost predicate Reaches(s: Sys, t: Sys, h: Setting) {
    exists ss: seq<Sys>, es: seq<Event> :: IsHealthyRun(ss, es, h) && ss[0] == s && ss[|es|] == t
  }

  lemma Stay(s: Sys, h: Setting)
    ensures Reaches(s, s, h)
  {
    assert IsHealthyRun([s], [], h);
  }

  lemma Step(s: Sys, e: Event, h: Setting)
    requires Enabled(s, e) && Healthy(s, e, h)
    ensures Reaches(s, Apply(s, e), h)
  {
    assert IsHealthyRun([s, Apply(s, e)], [e], h);
  }

  lemma Then(s: Sys, t: Sys, u: Sys, h: Setting)
    requires Reaches(s, t, h) && Reaches(t, u, h)
    ensures Reaches(s, u, h)
  {
    var ss, es :| IsHealthyRun(ss, es, h) && ss[0] == s && ss[|es|] == t;
    var ts, fs :| IsHealthyRun(ts, fs, h) && ts[0] == t && ts[|fs|] == u;
    Joined(ss, es, ts, fs, h);
  }

  /** A run that ends where another begins goes on with it. */
  lemma RunsJoin(ss: seq<Sys>, es: seq<Event>, ts: seq<Sys>, fs: seq<Event>)
    requires IsRun(ss, es) && IsRun(ts, fs) && ss[|es|] == ts[0]
    ensures IsRun(ss + ts[1..], es + fs)
    ensures (ss + ts[1..])[0] == ss[0] && (ss + ts[1..])[|es + fs|] == ts[|fs|]
    ensures forall i :: 0 <= i < |fs| ==> (ss + ts[1..])[|es| + i] == ts[i]
  {
    var us, gs := ss + ts[1..], es + fs;
    forall i | 0 <= i < |gs|
      ensures Enabled(us[i], gs[i]) && us[i + 1] == Apply(us[i], gs[i])
    {
      if i < |es| {
        assert us[i] == ss[i] && us[i + 1] == ss[i + 1];
      } else {
        assert us[i] == ts[i - |es|] && us[i + 1] == ts[i - |es| + 1];
      }
    }
  }

  lemma Joined(ss: seq<Sys>, es: seq<Event>, ts: seq<Sys>, fs: seq<Event>, h: Setting)
    requires IsHealthyRun(ss, es, h) && IsHealthyRun(ts, fs, h) && ss[|es|] == ts[0]
    ensures Reaches(ss[0], ts[|fs|], h)
  {
    var us, gs := ss + ts[1..], es + fs;
    RunsJoin(ss, es, ts, fs);
    forall i | 0 <= i < |gs|
      ensures Healthy(us[i], gs[i], h)
    {
      assert if i < |es| then us[i] == ss[i] else us[i] == ts[i - |es|];
    }
    assert IsHealthyRun(us, gs, h);
  }

  // ---- any run at all ----

  /** Some run leads from `s` to `t`. */
  ghost predicate Leads(s: Sys, t: Sys) {
    exists ss: seq<Sys>, es: seq<Event> :: IsRun(ss, es) && ss[0] == s && ss[|es|] == t
  }

  lemma LeadsOn(s: Sys, t: Sys, u: Sys)
    requires Leads(s, t) && Leads(t, u)
    ensures Leads(s, u)
  {
    var ss, es :| IsRun(ss, es) && ss[0] == s && ss[|es|] == t;
    var ts, fs :| IsRun(ts, fs) && ts[0] == t && ts[|fs|] == u;
    RunsJoin(ss, es, ts, fs);
  }

  lemma LeadsOnce(s: Sys, e: Event)
    requires Enabled(s, e)
    ensures Leads(s, Apply(s, e))
  {
    assert IsRun([s, Apply(s, e)], [e]);
  }

  lemma FirstThen(s: Sys, e: Event, t: Sys)
    requires Enabled(s, e) && Leads(Apply(s, e), t)
    ensures Leads(s, t)
  {
    LeadsOnce(s, e);
    LeadsOn(s, Apply(s, e), t);
  }

  lemma HealthyLeads(s: Sys, t: Sys, h: Setting)
    requires Reaches(s, t, h)
    ensures Leads(s, t)
  {
    var ss, es :| IsHealthyRun(ss, es, h) && ss[0] == s && ss[|es|] == t;
  }

  // ---- reachable states stay reachable ----

  /** Some Ledger state represents `s`; every state of every run is sound. */
  ghost predicate Sound(s: Sys) { exists c :: Rel(s, c) }

  lemma ReachableIsSound(ss: seq<Sys>, es: seq<Event>, i: nat)
    requires IsRun(ss, es) && Init(ss[0]) && i < |ss|
    ensures Sound(ss[i])
  {
    InitRel(ss[0]);
    var c := Shadow(ss, es, L.Core(ss[0].now, ss[0].db, map[], map[], map[]), i);
  }

  lemma SoundReaches(s: Sys, t: Sys, h: Setting)
    requires Sound(s) && Reaches(s, t, h)
    ensures Sound(t)
  {
    var c :| Rel(s, c);
    var ss, es :| IsHealthyRun(ss, es, h) && ss[0] == s && ss[|es|] == t;
    var d := Shadow(ss, es, c, |es|);
  }

  lemma RowFacts(s: Sys, id: Id)
    requires Sound(s) && id in s.db.jobs
    ensures var j := s.db.jobs[id];
            && (j.state.InFlight() ==> j.deadline.Some?)
            && Accounting.Measure(j) >= 0 && j.attempt >= 0
  {
    var c :| Rel(s, c);
    assert LedgerInvariants.JobInv(c, id);
    Accounting.MeasureIsNatural(c, id);
  }

  // ---- the worker processes one id ----

  ghost predicate SamePolicy(j: Job, k: Job) {
    k.maxRetries == j.maxRetries && k.tenant == j.tenant && k.priority == j.priority && k.backoff == j.backoff
  }

  /** From `s` to `t` no row but that of `x` changed, and nothing that others wait for moved. */
  ghost predicate OnlyRow(s: Sys, t: Sys, x: Id) {
    && t.now == s.now && t.passes == s.passes && t.lists.queued == s.lists.queued
    && t.db.jobs.Keys == s.db.jobs.Keys
    && forall y :: y in s.db.jobs && y != x ==> t.db.jobs[y] == s.db.jobs[y]
  }

  lemma {:induction false} Bound(ids: set<Id>) returns (b: Id)
    ensures forall x :: x in ids ==> x < b
    decreases ids
  {
    if ids == {} {
      b := 0;
    } else {
      var x :| x in ids;
      var c := Bound(ids - {x});
      b := if c < x + 1 then x + 1 else c;
      assert forall y :: y in ids ==> y == x || y in ids - {x};
    }
  }

  lemma DoBegin(s: Sys, h: Setting) returns (t: Sys)
    requires WorkerAt(s, h.w).Got?
    ensures Reaches(s, t, h) && OnlyRow(s, t, WorkerAt(s, h.w).id) && t.db == s.db
    ensures WorkerAt(t, h.w).Claiming? && WorkerAt(t, h.w).id == WorkerAt(s, h.w).id && WorkerAt(t, h.w).base == s.now
  {
    var token := Bound(s.drawn);
    Step(s, Begin(h.w, token), h);
    t := Apply(s, Begin(h.w, token));
  }

  lemma DoClaim(s: Sys, h: Setting) returns (t: Sys)
    requires WorkerAt(s, h.w).Claiming?
    ensures Reaches(s, t, h) && OnlyRow(s, t, WorkerAt(s, h.w).id)
    ensures var x := WorkerAt(s, h.w).id;
            if Claimable(s.db, x)
            then
              && WorkerAt(t, h.w).Fetching? && WorkerAt(t, h.w).id == x
              && Holds(t.db, x, WorkerAt(t, h.w).token) && t.db.jobs[x].state.Claimed?
              && t.db.jobs[x].deadline == Some(WorkerAt(s, h.w).base + 60000) && t.db.jobs[x].claimedBy == Some(h.w)
              && t.db.jobs[x].attempt == s.db.jobs[x].attempt && SamePolicy(s.db.jobs[x], t.db.jobs[x])
            else WorkerAt(t, h.w) == Removing(x) && t.db == s.db
  {
    var run := Bound(s.drawn);
    Step(s, Claim(h.w, run, false), h);
    t := Apply(s, Claim(h.w, run, false));
  }

  /** Fetching the row and marking it running. */
  lemma DoStart(s: Sys, h: Setting) returns (t: Sys)
    requires WorkerAt(s, h.w).Fetching? && Holds(s.db, WorkerAt(s, h.w).id, WorkerAt(s, h.w).token)
    ensures Reaches(s, t, h) && OnlyRow(s, t, WorkerAt(s, h.w).id)
    ensures var x := WorkerAt(s, h.w).id;
            && WorkerAt(t, h.w).Executing? && WorkerAt(t, h.w).id == x && Holds(t.db, x, WorkerAt(t, h.w).token)
            && t.db.jobs[x].attempt == s.db.jobs[x].attempt && SamePolicy(s.db.jobs[x], t.db.jobs[x])
            && WorkerAt(t, h.w).snap == s.db.jobs[x]
  {
    var f := Apply(s, Fetch(h.w));
    Step(s, Fetch(h.w), h);
    Step(f, Mark(h.w, false), h);
    t := Apply(f, Mark(h.w, false));
    Then(s, f, t, h);
  }

  lemma SomeDelay(snap: Job) returns (delay: int)
    ensures RetryDelay(snap, delay)
    ensures snap.backoff >= 1 ==> delay >= 1
  {
    if snap.backoff >= 0 {
      var a := if snap.attempt + 1 < 0 then 0 else snap.attempt + 1;
      delay := Delay(a, snap.backoff);
      Grows(snap.backoff, 0, a);
    } else {
      delay := 0;
    }
  }

  lemma DoSucceed(s: Sys, h: Setting) returns (t: Sys)
    requires WorkerAt(s, h.w).Completing? && Holds(s.db, WorkerAt(s, h.w).id, WorkerAt(s, h.w).token)
    ensures Reaches(s, t, h) && OnlyRow(s, t, WorkerAt(s, h.w).id)
    ensures var x := WorkerAt(s, h.w).id;
            && WorkerAt(t, h.w) == Removing(x)
            && t.db.jobs[x].state.Succeeded? && t.db.jobs[x].attempt == s.db.jobs[x].attempt
            && SamePolicy(s.db.jobs[x], t.db.jobs[x])
  {
    var g := Apply(s, CompleteFirst(h.w));
    Step(s, CompleteFirst(h.w), h);
    Step(g, CompleteSecond(h.w), h);
    t := Apply(g, CompleteSecond(h.w));
    Then(s, g, t, h);
  }

  lemma DoFail(s: Sys, h: Setting) returns (t: Sys)
    requires WorkerAt(s, h.w).Failing? && Holds(s.db, WorkerAt(s, h.w).id, WorkerAt(s, h.w).token)
    ensures Reaches(s, t, h) && OnlyRow(s, t, WorkerAt(s, h.w).id)
    ensures var x := WorkerAt(s, h.w).id;
            && WorkerAt(t, h.w) == Removing(x)
            && t.db.jobs[x].attempt == s.db.jobs[x].attempt + 1 && SamePolicy(s.db.jobs[x], t.db.jobs[x])
            && t.db.jobs[x].state == Retried(s.db.jobs[x], Failed)
            && (t.db.jobs[x].state.Failed? && WorkerAt(s, h.w).next.Some? ==>
                  t.db.jobs[x].runAt == WorkerAt(s, h.w).next.value)
  {
    Step(s, RecordFailure(h.w), h);
    t := Apply(s, RecordFailure(h.w));
  }

  /** Executing, with the verdict of the setting. */
  lemma DoFinish(s: Sys, h: Setting) returns (t: Sys)
    requires WorkerAt(s, h.w).Executing?
    ensures Reaches(s, t, h) && OnlyRow(s, t, WorkerAt(s, h.w).id) && t.db == s.db
    ensures WorkerAt(t, h.w).Completing? || WorkerAt(t, h.w).Failing?
    ensures WorkerAt(t, h.w).id == WorkerAt(s, h.w).id && WorkerAt(t, h.w).token == WorkerAt(s, h.w).token
    ensures var snap := WorkerAt(s, h.w).snap;
            && (WorkerAt(t, h.w).Completing? <==> h.verdict(WorkerAt(s, h.w).id, snap.attempt))
            && (WorkerAt(t, h.w).Failing? && ShouldRetry(snap.attempt, snap.maxRetries) ==>
                  WorkerAt(t, h.w).next.Some? && (snap.backoff >= 1 ==> WorkerAt(t, h.w).next.value > s.now))
  {
    var k := WorkerAt(s, h.w);
    var delay := SomeDelay(k.snap);
    var e := Finish(h.w, h.verdict(k.id, k.snap.attempt), delay, "error");
    Step(s, e, h);
    t := Apply(s, e);
  }

  lemma DoRelease(s: Sys, h: Setting) returns (t: Sys)
    requires WorkerAt(s, h.w).Removing?
    ensures Reaches(s, t, h) && OnlyRow(s, t, WorkerAt(s, h.w).id) && t.db == s.db
    ensures WorkerAt(t, h.w).Idle? && Some(WorkerAt(s, h.w).id) !in Held(t.lists, h.w)
  {
    Step(s, Release(h.w), h);
    t := Apply(s, Release(h.w));
    RemoveClears(s.lists, h.w, WorkerAt(s, h.w).id);
  }

  /** A pending job that was executed at `now`: it succeeded if the execution was `good`, and otherwise
      used up an attempt and, where attempts remain, waits for a retry time that lies ahead. */
  ghost predicate Executed(j: Job, k: Job, good: bool, now: Time) {
    && j.state.Pending? && SamePolicy(j, k)
    && if good then k.state.Succeeded? && k.attempt == j.attempt
       else
         && k.attempt == j.attempt + 1 && k.state == Retried(j, Failed)
         && (k.state.Failed? && j.backoff >= 1 ==> k.runAt > now)
  }

  ghost predicate Ran(s: Sys, t: Sys, h: Setting, x: Id) {
    && x in s.db.jobs && x in t.db.jobs
    && Executed(s.db.jobs[x], t.db.jobs[x], h.verdict(x, s.db.jobs[x].attempt), s.now)
  }

  /** From a successful claim to the recorded result. */
  lemma DoRun(s: Sys, h: Setting) returns (t: Sys)
    requires WorkerAt(s, h.w).Fetching? && Holds(s.db, WorkerAt(s, h.w).id, WorkerAt(s, h.w).token)
    ensures Reaches(s, t, h) && OnlyRow(s, t, WorkerAt(s, h.w).id) && WorkerAt(t, h.w) == Removing(WorkerAt(s, h.w).id)
    ensures var x := WorkerAt(s, h.w).id;
            Executed(s.db.jobs[x].(state := Pending), t.db.jobs[x], h.verdict(x, s.db.jobs[x].attempt), s.now)
  {
    var a := DoStart(s, h);
    var b := DoFinish(a, h);
    Then(s, a, b, h);
    if WorkerAt(b, h.w).Completing? {
      t := DoSucceed(b, h);
    } else {
      t := DoFail(b, h);
    }
    Then(s, b, t, h);
  }

  /** Handed any id, the worker executes it if it is pending and drops it otherwise. */
  lemma Process(s: Sys, h: Setting) returns (t: Sys)
    requires WorkerAt(s, h.w).Got?
    ensures Reaches(s, t, h) && OnlyRow(s, t, WorkerAt(s, h.w).id) && WorkerAt(t, h.w).Idle?
    ensures Some(WorkerAt(s, h.w).id) !in Held(t.lists, h.w)
    ensures var x := WorkerAt(s, h.w).id;
            if Claimable(s.db, x) then Ran(s, t, h, x) else t.db.jobs == s.db.jobs
  {
    var x := WorkerAt(s, h.w).id;
    var a := DoBegin(s, h);
    var b := DoClaim(a, h);
    Then(s, a, b, h);
    if Claimable(s.db, x) {
      var c := DoRun(b, h);
      Then(s, b, c, h);
      t := DoRelease(c, h);
      Then(s, c, t, h);
    } else {
      t := DoRelease(b, h);
      Then(s, b, t, h);
    }
  }

  // ---- the worker works through a tenant's lists ----

  ghost predicate NoOtherChange(s: Sys, t: Sys) {
    t.now == s.now && t.passes == s.passes && t.db.jobs.Keys == s.db.jobs.Keys
  }

  /** Some pending jobs were executed; everything else about the rows is as before. */
  ghost predicate SomeExecuted(s: Sys, t: Sys, h: Setting) {
    && NoOtherChange(s, t)
    && forall y :: y in s.db.jobs ==> t.db.jobs[y] == s.db.jobs[y] || Ran(s, t, h, y)
  }

  lemma SomeExecutedThen(s: Sys, t: Sys, u: Sys, h: Setting)
    requires SomeExecuted(s, t, h) && SomeExecuted(t, u, h)
    ensures SomeExecuted(s, u, h)
  {
  }

  function Backlog(l: Lists, tenant: Id): nat {
    |Queued(l, Key(tenant, High))| + |Queued(l, Key(tenant, Normal))| + |Queued(l, Key(tenant, Low))|
  }

  lemma TenantFirst(active: seq<Id>, tenant: Id) returns (order: seq<Id>)
    requires tenant in active
    ensures SameIds(order, active) && |order| > 0 && order[0] == tenant
  {
    var i :| 0 <= i < |active| && active[i] == tenant;
    Shuffle.Extract(active, i);
    order := [tenant] + (active[..i] + active[i + 1..]);
  }

  lemma MostUrgent(l: Lists, tenant: Id) returns (b: nat)
    requires Backlog(l, tenant) > 0
    ensures b < 3 && Queued(l, Key(tenant, BUCKETS[b])) != []
    ensures forall y :: 0 <= y < b ==> Queued(l, Key(tenant, BUCKETS[y])) == []
  {
    b := if Queued(l, Key(tenant, High)) != [] then 0 else if Queued(l, Key(tenant, Normal)) != [] then 1 else 2;
  }

  /** The worker does what the poll of its remaining keys says. */
  ghost predicate Visited(s: Sys, t: Sys, h: Setting, keys: seq<Key>) {
    && t.db == s.db && NoOtherChange(s, t)
    && t.lists == Poll(s.lists, keys, h.w).lists
    && WorkerAt(t, h.w) == if Poll(s.lists, keys, h.w).found.Some? then Got(Poll(s.lists, keys, h.w).found.value) else Idle
  }

  lemma {:induction false} DoVisits(s: Sys, h: Setting) returns (t: Sys)
    requires WorkerAt(s, h.w).Polling? && WorkerAt(s, h.w).keys != []
    ensures Reaches(s, t, h) && Visited(s, t, h, WorkerAt(s, h.w).keys)
    decreases |WorkerAt(s, h.w).keys|
  {
    var keys := WorkerAt(s, h.w).keys;
    var a := Apply(s, Pop(h.w));
    Step(s, Pop(h.w), h);
    if WorkerAt(a, h.w).Polling? {
      t := DoVisits(a, h);
      Then(s, a, t, h);
    } else {
      t := a;
      assert |keys| == 1 ==> keys[1..] == [];
    }
  }

  /** A whole cycle of Dequeue. */
  lemma DoCycle(s: Sys, h: Setting, order: seq<Id>) returns (t: Sys)
    requires WorkerAt(s, h.w).Idle? && SameIds(order, h.active) && order != []
    ensures Reaches(s, t, h) && Visited(s, t, h, Visits(order))
  {
    var e := Cycle(h.w, Visits(order));
    assert IsCycle(h.active, Visits(order));
    Step(s, e, h);
    t := DoVisits(Apply(s, e), h);
    Then(s, Apply(s, e), t, h);
  }

  /** A cycle that visits a tenant first takes something out of its lists. */
  lemma CycleShortens(l: Lists, order: seq<Id>, worker: Id)
    requires order != [] && Backlog(l, order[0]) > 0
    ensures Backlog(Poll(l, Visits(order), worker).lists, order[0]) < Backlog(l, order[0])
  {
    var keys := Visits(order);
    var b := MostUrgent(l, order[0]);
    forall m | 0 <= m < 3
      ensures keys[m] == Key(order[0], BUCKETS[m])
    {
      VisitAt(order, m);
    }
    PollTakes(l, keys, worker, b);
    PollShrinks(l, keys, worker, Key(order[0], High));
    PollShrinks(l, keys, worker, Key(order[0], Normal));
    PollShrinks(l, keys, worker, Key(order[0], Low));
  }

  ghost predicate InLists(l: Lists, tenant: Id, id: Id) {
    exists k: Key {:trigger Queued(l, k)} :: k.tenant == tenant && Some(id) in Queued(l, k)
  }

  lemma InListsBacklog(l: Lists, tenant: Id, id: Id)
    requires InLists(l, tenant, id)
    ensures Backlog(l, tenant) > 0
  {
    var k: Key :| k.tenant == tenant && Some(id) in Queued(l, k);
    match k.bucket
    case High => assert k == Key(tenant, High);
    case Normal => assert k == Key(tenant, Normal);
    case Low => assert k == Key(tenant, Low);
  }

  lemma StillInLists(l: Lists, keys: seq<Key>, worker: Id, tenant: Id, id: Id)
    requires InLists(l, tenant, id) && Poll(l, keys, worker).found != Some(id)
    ensures InLists(Poll(l, keys, worker).lists, tenant, id)
  {
    var k: Key :| k.tenant == tenant && Some(id) in Queued(l, k);
    PollKeeps(l, keys, worker, k, Some(id));
  }

  /** One cycle that visits `tenant` first, and the processing of what it finds unless that is `id`. */
  lemma DoRound(s: Sys, h: Setting, tenant: Id, id: Id) returns (t: Sys)
    requires WorkerAt(s, h.w).Idle? && tenant in h.active && InLists(s.lists, tenant, id)
    ensures Reaches(s, t, h) && SomeExecuted(s, t, h)
    ensures id in s.db.jobs ==> t.db.jobs[id] == s.db.jobs[id]
    ensures WorkerAt(t, h.w) == Got(id)
            || (WorkerAt(t, h.w).Idle? && InLists(t.lists, tenant, id) && Backlog(t.lists, tenant) < Backlog(s.lists, tenant))
  {
    var order := TenantFirst(h.active, tenant);
    InListsBacklog(s.lists, tenant, id);
    CycleShortens(s.lists, order, h.w);
    t := DoCycle(s, h, order);
    if WorkerAt(t, h.w) != Got(id) {
      StillInLists(s.lists, Visits(order), h.w, tenant, id);
      if WorkerAt(t, h.w).Got? {
        var a := t;
        t := Process(a, h);
        Then(s, a, t, h);
        SameQueues(a.lists, t.lists, tenant, id);
      }
    }
  }

  lemma SameQueues(l: Lists, m: Lists, tenant: Id, id: Id)
    requires m.queued == l.queued
    ensures InLists(m, tenant, id) <==> InLists(l, tenant, id)
    ensures Backlog(m, tenant) == Backlog(l, tenant)
  {
    assert forall k :: Queued(m, k) == Queued(l, k);
    if InLists(l, tenant, id) {
      var k: Key :| k.tenant == tenant && Some(id) in Queued(l, k);
      assert Some(id) in Queued(m, k);
    }
  }

  /** A pending job in one of its tenant's lists gets to the worker, after whatever is ahead of it. */
  lemma {:induction false} Deliver(s: Sys, h: Setting, id: Id) returns (t: Sys)
    requires WorkerAt(s, h.w).Idle? && Claimable(s.db, id)
    requires s.db.jobs[id].tenant in h.active && InLists(s.lists, s.db.jobs[id].tenant, id)
    ensures Reaches(s, t, h) && SomeExecuted(s, t, h) && WorkerAt(t, h.w) == Got(id) && t.db.jobs[id] == s.db.jobs[id]
    decreases Backlog(s.lists, s.db.jobs[id].tenant)
  {
    t := DoRound(s, h, s.db.jobs[id].tenant, id);
    if WorkerAt(t, h.w).Idle? {
      var a := t;
      t := Deliver(a, h, id);
      Then(s, a, t, h);
      SomeExecutedThen(s, a, t, h);
    }
  }

  /** It is then about to claim it ... */
  lemma DeliverToClaim(s: Sys, h: Setting, id: Id) returns (t: Sys, run: Id)
    requires WorkerAt(s, h.w).Idle? && Claimable(s.db, id)
    requires s.db.jobs[id].tenant in h.active && InLists(s.lists, s.db.jobs[id].tenant, id)
    ensures Reaches(s, t, h) && t.now == s.now && id in t.db.jobs && t.db.jobs[id] == s.db.jobs[id]
    ensures WorkerAt(t, h.w).Claiming? && WorkerAt(t, h.w).id == id && Enabled(t, Claim(h.w, run, false))
  {
    var a := Deliver(s, h, id);
    t := DoBegin(a, h);
    Then(s, a, t, h);
    run := Bound(t.drawn);
  }

  /** ... and executes it. */
  lemma Serve(s: Sys, h: Setting, id: Id) returns (t: Sys)
    requires WorkerAt(s, h.w).Idle? && Claimable(s.db, id)
    requires s.db.jobs[id].tenant in h.active && InLists(s.lists, s.db.jobs[id].tenant, id)
    ensures Reaches(s, t, h) && SomeExecuted(s, t, h) && WorkerAt(t, h.w).Idle?
    ensures Ran(s, t, h, id)
  {
    var a := Deliver(s, h, id);
    t := Process(a, h);
    Then(s, a, t, h);
    SomeExecutedThen(s, a, t, h);
  }
}
