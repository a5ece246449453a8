/** The other side of NoStuckJob: when a pending job of an active tenant starves. */
module Starvation {
  import opened Types
  import opened Storage
  import opened Cluster
  import opened Queue
  import opened Progress
  import opened NoStuckJob
  import L = Ledger

  /** A batch worth of due pending jobs strictly ahead of `id` hides it from a reconcile list. */
  lemma FullBatchHides(db: Db, now: Time, ahead: set<Id>, id: Id, items: seq<Item>)
    requires id in db.jobs && |ahead| >= BATCH
    requires forall x :: x in ahead ==>
               && x in db.jobs && Due(Reconcile, db.jobs[x], now)
               && !NotAfter(ItemOf(id, db.jobs[id]), ItemOf(x, db.jobs[x]))
    requires IsBatch(db, Reconcile, now, items)
    ensures !Listed(items, id)
  {
    if Listed(items, id) {
      var k :| 0 <= k < |items| && items[k].id == id;
      forall x | x in ahead
        ensures x in IdsOf(items)
      {
        assert Listed(items, x);
      }
      DistinctCount(items);
      assert id !in ahead && id in IdsOf(items);
      Smaller(ahead, IdsOf(items));
    }
  }

  // ---- out of the worker's reach ----

  /** A set of rows: `id`, and the jobs `front` that stand before it. */
  datatype Line = Line(id: Id, front: set<Id>, rows: map<Id, Job>) {
    predicate Has(x: Id) { x == id || x in front }
  }

  /** An item a pass may push without bringing one of the line to the worker. */
  predicate HarmlessItem(q: Line, active: seq<Id>, item: Item) {
    item.id != q.id && (item.id in q.front ==> item.tenant !in active)
  }

  ghost predicate HarmlessPass(s: Sys, q: Line, active: seq<Id>, p: Id) {
    p in s.passes ==>
      && (forall i :: 0 <= i < |s.passes[p].todo| ==> HarmlessItem(q, active, s.passes[p].todo[i]))
      && (s.passes[p].push.Some? ==> HarmlessItem(q, active, s.passes[p].push.value))
  }

  /** No list the worker polls holds a job of the line. */
  ghost predicate HarmlessKey(s: Sys, q: Line, active: seq<Id>, k: Key) {
    k.tenant in active ==> forall e :: e in Queued(s.lists, k) && e.Some? ==> !q.Has(e.value)
  }

  /** The worker is not working on one, and polls only its own tenants' keys. */
  ghost predicate HarmlessWorker(w: Worker, q: Line, active: seq<Id>) {
    match w
    case Idle => true
    case Polling(keys) => forall i :: 0 <= i < |keys| ==> keys[i].tenant in active
    case _ => !q.Has(w.id)
  }

  ghost predicate Aside(s: Sys, h: Setting, q: Line) {
    && HarmlessWorker(WorkerAt(s, h.w), q, h.active)
    && (forall k :: HarmlessKey(s, q, h.active, k))
    && (forall p :: HarmlessPass(s, q, h.active, p))
  }

  /** The rows are as they were, all pending; those in front belong to tenants no worker serves and are due
      whenever `id` is. */
  ghost predicate Rows(s: Sys, active: seq<Id>, q: Line) {
    && (forall x :: q.Has(x) ==> x in q.rows && x in s.db.jobs && s.db.jobs[x] == q.rows[x] && q.rows[x].state.Pending?)
    && (forall x :: x in q.front ==>
          && q.rows[x].tenant !in active && q.rows[x].runAt <= Max(s.now - 60 * SECOND, q.rows[q.id].runAt)
          && !NotAfter(ItemOf(q.id, q.rows[q.id]), ItemOf(x, q.rows[x])))
    && |q.front| >= BATCH
  }

  lemma RowsStay(s: Sys, e: Event, h: Setting, q: Line)
    requires Enabled(s, e) && Healthy(s, e, h) && Aside(s, h, q) && Rows(s, h.active, q)
    ensures Rows(Apply(s, e), h.active, q)
  {
    forall x | q.Has(x)
      ensures x in Apply(s, e).db.jobs && Apply(s, e).db.jobs[x] == s.db.jobs[x]
    {
      PendingRowStays(s, e, h, x);
    }
    Forward(s, e);
  }

  lemma Forward(s: Sys, e: Event)
    requires Enabled(s, e)
    ensures s.now <= Apply(s, e).now
  {
  }

  /** Healthy events touch a pending row only through the worker that has its id. */
  lemma PendingRowStays(s: Sys, e: Event, h: Setting, x: Id)
    requires Enabled(s, e) && Healthy(s, e, h) && Claimable(s.db, x)
    requires WorkerAt(s, h.w).Idle? || WorkerAt(s, h.w).Polling? || WorkerAt(s, h.w).id != x
    ensures x in Apply(s, e).db.jobs && Apply(s, e).db.jobs[x] == s.db.jobs[x]
  {
  }

  lemma WorkerStays(s: Sys, e: Event, h: Setting, q: Line)
    requires Enabled(s, e) && Healthy(s, e, h) && Aside(s, h, q)
    ensures HarmlessWorker(WorkerAt(Apply(s, e), h.w), q, h.active)
  {
    if e.Pop? {
      var keys := WorkerAt(s, h.w).keys;
      assert HarmlessKey(s, q, h.active, keys[0]);
      var l := Queued(s.lists, keys[0]);
      assert l != [] ==> l[|l| - 1] in l;
    } else if e.Cycle? {
      var order :| SameIds(order, h.active) && e.keys == Visits(order);
      forall i | 0 <= i < |e.keys|
        ensures e.keys[i].tenant in h.active
      {
        VisitsTenants(order, e.keys[i]);
        SameTenants(order, h.active, e.keys[i].tenant);
      }
    }
  }

  lemma KeyStays(s: Sys, e: Event, h: Setting, q: Line, k: Key)
    requires Enabled(s, e) && Healthy(s, e, h) && Aside(s, h, q)
    ensures HarmlessKey(Apply(s, e), q, h.active, k)
  {
    assert HarmlessKey(s, q, h.active, k);
    if e.PushOne? {
      assert HarmlessPass(s, q, h.active, e.p);
    }
  }

  lemma PassStays(s: Sys, e: Event, h: Setting, q: Line, p: Id)
    requires Enabled(s, e) && Healthy(s, e, h) && Aside(s, h, q) && Rows(s, h.active, q)
    ensures HarmlessPass(Apply(s, e), q, h.active, p)
  {
    assert HarmlessPass(s, q, h.active, p);
    if e.StartPass? && e.p == p {
      forall i | 0 <= i < |e.items|
        ensures HarmlessItem(q, h.active, e.items[i])
      {
        Unlisted(s, h.active, q, e.kind, e.items, i);
      }
    }
  }

  /** No list read now names `id`. */
  lemma Unlisted(s: Sys, active: seq<Id>, q: Line, kind: Kind, items: seq<Item>, i: nat)
    requires Rows(s, active, q) && IsBatch(s.db, kind, s.now, items) && i < |items|
    ensures HarmlessItem(q, active, items[i])
  {
    if items[i].id == q.id {
      assert Due(kind, q.rows[q.id], s.now);
      FullBatchHides(s.db, s.now, q.front, q.id, items);
    }
  }

  lemma AsideStays(s: Sys, e: Event, h: Setting, q: Line)
    requires Enabled(s, e) && Healthy(s, e, h) && Aside(s, h, q) && Rows(s, h.active, q)
    ensures Aside(Apply(s, e), h, q)
  {
    WorkerStays(s, e, h, q);
    forall k
      ensures HarmlessKey(Apply(s, e), q, h.active, k)
    {
      KeyStays(s, e, h, q, k);
    }
    forall p
      ensures HarmlessPass(Apply(s, e), q, h.active, p)
    {
      PassStays(s, e, h, q, p);
    }
  }

  /** The rows of `id` and of the jobs in front of it. */
  function LineOf(s: Sys, id: Id, front: set<Id>): Line
    requires id in s.db.jobs && front <= s.db.jobs.Keys
  {
    Line(id, front, map x | x in front + {id} :: s.db.jobs[x])
  }

  lemma LineStands(s: Sys, active: seq<Id>, id: Id)
    requires Claimable(s.db, id) && |InFront(s, active, id)| >= BATCH
    ensures Rows(s, active, LineOf(s, id, InFront(s, active, id)))
  {
  }

  lemma {:induction false} LineStays(ss: seq<Sys>, es: seq<Event>, h: Setting, q: Line, i: nat)
    requires IsHealthyRun(ss, es, h) && i < |ss| && Aside(ss[0], h, q) && Rows(ss[0], h.active, q)
    ensures Aside(ss[i], h, q) && Rows(ss[i], h.active, q)
  {
    if i > 0 {
      LineStays(ss, es, h, q, i - 1);
      RowsStay(ss[i - 1], es[i - 1], h, q);
      AsideStays(ss[i - 1], es[i - 1], h, q);
    }
  }

  /** A pending job of an active tenant that is not on its way to the worker, with a whole batch of jobs of
      inactive tenants in front of it, stays pending for ever, however long the scheduler and the worker go on. */
  lemma Starves(ss: seq<Sys>, es: seq<Event>, h: Setting, id: Id, i: nat)
    requires IsHealthyRun(ss, es, h) && i < |ss| && Claimable(ss[0].db, id)
    requires |InFront(ss[0], h.active, id)| >= 500 && Aside(ss[0], h, LineOf(ss[0], id, InFront(ss[0], h.active, id)))
    ensures id in ss[i].db.jobs && ss[i].db.jobs[id] == ss[0].db.jobs[id]
  {
    var q := LineOf(ss[0], id, InFront(ss[0], h.active, id));
    LineStands(ss[0], h.active, id);
    LineStays(ss, es, h, q, i);
    assert q.Has(id);
  }

  /** The jobs in front, in terms of the rows: pending, of tenants no worker serves, before `id` by priority and then
      `run_at`, and a minute past their `run_at` by the time `id` is or now. */
  lemma FrontRows(s: Sys, active: seq<Id>, id: Id, x: Id)
    requires id in s.db.jobs
    ensures x in InFront(s, active, id) <==>
              && x in s.db.jobs && s.db.jobs[x].state == Pending && s.db.jobs[x].tenant !in active
              && (|| s.db.jobs[x].priority < s.db.jobs[id].priority
                  || (s.db.jobs[x].priority == s.db.jobs[id].priority && s.db.jobs[x].runAt < s.db.jobs[id].runAt))
              && (s.db.jobs[x].runAt <= s.db.jobs[id].runAt || s.db.jobs[x].runAt <= s.now - 60000)
  {
  }

  /** Exactly when a pending job of an active tenant that is not on its way to the worker can be executed. */
  lemma ExecutedIff(s: Sys, h: Setting, id: Id)
    requires Ready(s, h) && Claimable(s.db, id) && s.db.jobs[id].tenant in h.active
    requires Aside(s, h, LineOf(s, id, InFront(s, h.active, id)))
    ensures (exists t :: Reaches(s, t, h) && id in t.db.jobs && !t.db.jobs[id].state.Pending?)
            <==> |InFront(s, h.active, id)| < 500
  {
    if |InFront(s, h.active, id)| < BATCH {
      var t := FromPending(s, h, id);
    } else if t :| Reaches(s, t, h) && id in t.db.jobs && !t.db.jobs[id].state.Pending? {
      var ss, es :| IsHealthyRun(ss, es, h) && ss[0] == s && ss[|es|] == t;
      Starves(ss, es, h, id, |es|);
    }
  }

  /** Exactly when a job of an active tenant can finish at all, in whatever state it is: unless it is pending with
      a whole batch of jobs of inactive tenants in front of it. If it is pending, it is one not on its way already. */
  lemma FinishedIff(s: Sys, h: Setting, id: Id)
    requires Ready(s, h) && id in s.db.jobs && s.db.jobs[id].tenant in h.active
    requires s.db.jobs[id].state.Pending? ==> Aside(s, h, LineOf(s, id, InFront(s, h.active, id)))
    ensures (exists t :: Reaches(s, t, h) && id in t.db.jobs && t.db.jobs[id].state.Terminal())
            <==> !(s.db.jobs[id].state.Pending? && |InFront(s, h.active, id)| >= 500)
  {
    if s.db.jobs[id].state.Pending? && |InFront(s, h.active, id)| >= BATCH {
      ExecutedIff(s, h, id);
    } else {
      var t := NoStuckJob.NoStuckJob(s, h, id);
    }
  }

  // ---- such a state can be reached ----

  /** A fresh row that is due at once. */
  function Urgent(tenant: Id, priority: int, now: Time): Job {
    Job(tenant, priority, Pending, now, None, None, None, None, 0, 3, 30, None, None, now, None)
  }

  /** From `s` to `t` the jobs `ids`, all like `row`, were submitted and nothing else happened. */
  ghost predicate Added(s: Sys, t: Sys, ids: set<Id>, row: Job) {
    && t == s.(db := s.db.(jobs := t.db.jobs), drawn := t.drawn) && t.db.jobs.Keys <= t.drawn
    && (forall x :: x in ids ==> x !in s.db.jobs && x in t.db.jobs && t.db.jobs[x] == row)
    && (forall x :: x in s.db.jobs ==> x in t.db.jobs && t.db.jobs[x] == s.db.jobs[x])
  }

  lemma SubmitOne(s: Sys, row: Job) returns (id: Id)
    requires s.db.jobs.Keys <= s.drawn && L.FreshRow(row, s.now) && row.key.None?
    ensures Enabled(s, Submitted(id, row)) && Added(s, Apply(s, Submitted(id, row)), {id}, row)
  {
    id := Bound(s.drawn);
  }

  lemma AddedMore(s: Sys, a: Sys, t: Sys, id: Id, rest: set<Id>, row: Job)
    requires Added(s, a, {id}, row) && Added(a, t, rest, row)
    ensures Added(s, t, rest + {id}, row) && id !in rest
  {
  }

  /** Any number of such jobs can be submitted. */
  lemma {:induction false} SubmitMany(s: Sys, row: Job, n: nat) returns (t: Sys, ids: set<Id>)
    requires s.db.jobs.Keys <= s.drawn && L.FreshRow(row, s.now) && row.key.None?
    ensures Leads(s, t) && |ids| == n && Added(s, t, ids, row)
    decreases n
  {
    if n == 0 {
      t, ids := s, {};
      Stay(s, Setting(0, [], (x, a) => true));
      HealthyLeads(s, t, Setting(0, [], (x, a) => true));
    } else {
      var id := SubmitOne(s, row);
      var e := Submitted(id, row);
      var rest;
      t, rest := SubmitMany(Apply(s, e), row, n - 1);
      AddedMore(s, Apply(s, e), t, id, rest, row);
      ids := rest + {id};
      FirstThen(s, e, t);
    }
  }

  /** With empty lists, no passes and an idle worker nothing is on its way. */
  lemma NothingUnderway(s: Sys, h: Setting, q: Line)
    requires s.lists == Lists(map[], map[]) && s.passes == map[] && WorkerAt(s, h.w).Idle?
    ensures Aside(s, h, q)
  {
  }

  lemma AllInFront(s: Sys, active: seq<Id>, ids: set<Id>, id: Id)
    requires id in s.db.jobs && s.db.jobs[id].priority > 1 && 1 !in active
    requires forall x :: x in ids ==> x in s.db.jobs && s.db.jobs[x] == Urgent(1, 1, s.db.jobs[id].runAt)
    ensures |InFront(s, active, id)| >= |ids|
  {
    Smaller(ids, InFront(s, active, id));
  }

  lemma LeadsToReady(s: Sys, t: Sys, h: Setting)
    requires Init(s) && Leads(s, t) && WorkerAt(t, h.w).Idle?
    ensures Ready(t, h)
  {
    var ss, es :| IsRun(ss, es) && ss[0] == s && ss[|es|] == t;
    ReachableIsSound(ss, es, |es|);
  }

  /** From every initial state some run leads to a job that starves. */
  lemma StarvationHappens(s: Sys) returns (t: Sys, h: Setting, id: Id)
    requires Init(s)
    ensures Leads(s, t) && Ready(t, h) && Claimable(t.db, id) && t.db.jobs[id].tenant in h.active
    ensures |InFront(t, h.active, id)| >= 500 && Aside(t, h, LineOf(t, id, InFront(t, h.active, id)))
  {
    h := Setting(0, [0], (x, a) => true);
    id := SubmitOne(s, Urgent(0, 5, s.now));
    var e, f := Submitted(id, Urgent(0, 5, s.now)), Redis(Lists(map[], map[]));
    var ids;
    t, ids := SubmitMany(Apply(Apply(s, e), f), Urgent(1, 1, s.now), BATCH);
    FirstThen(Apply(s, e), f, t);
    FirstThen(s, e, t);
    LeadsToReady(s, t, h);
    assert id in {id};
    AllInFront(t, h.active, ids, id);
    NothingUnderway(t, h, LineOf(t, id, InFront(t, h.active, id)));
  }
}
