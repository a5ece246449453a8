/** No job of an active tenant is ever stuck. */
module NoStuckJob {
  import opened Types
  import opened Storage
  import opened Cluster
  import opened Queue
  import opened Batches
  import opened Progress
  import opened Accounting

  // ---- a pass runs to its end ----

  /** The row a pass leaves behind for a listed job. */
  function Acted(kind: Kind, j: Job, now: Time): Job {
    match kind
    case DuePoll => if j.state.Scheduled? then j.(state := Pending) else j
    case RetryPoll => if j.state.Failed? then j.(state := Pending, runAt := now) else j
    case StaleReap =>
      if !Stale(j, now) then j else
        j.(state := Retried(j, Pending), attempt := j.attempt + 1, token := None, claimedAt := None, claimedBy := None,
           deadline := None, lastError := Some(HEARTBEAT_EXPIRED))
    case Reconcile => j
  }

  /** Whether a pass goes on to push the job. */
  predicate Pushes(kind: Kind, j: Job, now: Time) {
    !(kind.StaleReap? && Stale(j, now) && Retried(j, Pending).Dead?)
  }

  ghost predicate Grown(l: Lists, m: Lists) {
    forall k, e {:trigger e in Queued(m, k)} :: e in Queued(l, k) ==> e in Queued(m, k)
  }

  ghost predicate RowsActed(s: Sys, t: Sys, kind: Kind, items: seq<Item>) {
    && t.db.jobs.Keys == s.db.jobs.Keys
    && forall y :: y in s.db.jobs ==>
         t.db.jobs[y] == if Listed(items, y) then Acted(kind, s.db.jobs[y], s.now) else s.db.jobs[y]
  }

  ghost predicate AllPushed(s: Sys, t: Sys, kind: Kind, items: seq<Item>) {
    forall i :: 0 <= i < |items| && (items[i].id in s.db.jobs ==> Pushes(kind, s.db.jobs[items[i].id], s.now)) ==>
      Some(items[i].id) in Queued(t.lists, ItemKey(items[i]))
  }

  /** What a pass over `items` from `s` to `t` achieves. */
  ghost predicate PassDone(s: Sys, t: Sys, kind: Kind, items: seq<Item>) {
    && t.now == s.now && t.workers == s.workers
    && Grown(s.lists, t.lists)
    && RowsActed(s, t, kind, items) && AllPushed(s, t, kind, items)
  }

  lemma ListedAlone(item: Item, id: Id)
    ensures Listed([item], id) <==> id == item.id
  {
    assert [item] + [] == [item];
    ListedInFront(item, [], id);
  }

  /** The database half of one iteration. */
  lemma DoAct(s: Sys, h: Setting, p: Id) returns (t: Sys)
    requires p in s.passes && s.passes[p].push.None? && s.passes[p].todo != []
    ensures Reaches(s, t, h) && t.lists == s.lists && t.workers == s.workers && t.now == s.now
    ensures RowsActed(s, t, s.passes[p].kind, [s.passes[p].todo[0]])
    ensures var kind, item := s.passes[p].kind, s.passes[p].todo[0];
            var push := item.id in s.db.jobs ==> Pushes(kind, s.db.jobs[item.id], s.now);
            t.passes == s.passes[p := Pass(kind, s.passes[p].todo[1..], if push then Some(item) else None)]
  {
    t := Apply(s, Act(p));
    Step(s, Act(p), h);
    forall y
      ensures Listed([s.passes[p].todo[0]], y) <==> y == s.passes[p].todo[0].id
    {
      ListedAlone(s.passes[p].todo[0], y);
    }
  }

  /** The Redis half. */
  lemma DoPush(s: Sys, h: Setting, p: Id) returns (t: Sys)
    requires p in s.passes && s.passes[p].push.Some?
    ensures Reaches(s, t, h) && t.db == s.db && t.workers == s.workers && t.now == s.now
    ensures t.passes == s.passes[p := s.passes[p].(push := None)]
    ensures Grown(s.lists, t.lists)
    ensures Some(s.passes[p].push.value.id) in Queued(t.lists, ItemKey(s.passes[p].push.value))
  {
    t := Apply(s, PushOne(p));
    Step(s, PushOne(p), h);
    var item := s.passes[p].push.value;
    assert Queued(t.lists, ItemKey(item))[0] == Some(item.id);
  }

  /** One iteration of a pass. */
  lemma DoItem(s: Sys, h: Setting, p: Id) returns (t: Sys)
    requires p in s.passes && s.passes[p].push.None? && s.passes[p].todo != []
    ensures Reaches(s, t, h) && PassDone(s, t, s.passes[p].kind, [s.passes[p].todo[0]])
    ensures t.passes == s.passes[p := Pass(s.passes[p].kind, s.passes[p].todo[1..], None)]
  {
    var a := DoAct(s, h, p);
    if a.passes[p].push.Some? {
      t := DoPush(a, h, p);
      Then(s, a, t, h);
    } else {
      t := a;
    }
  }

  lemma PassDoneThen(s: Sys, a: Sys, t: Sys, kind: Kind, item: Item, rest: seq<Item>)
    requires PassDone(s, a, kind, [item]) && PassDone(a, t, kind, rest) && !Listed(rest, item.id)
    ensures PassDone(s, t, kind, [item] + rest)
  {
    var items := [item] + rest;
    forall y | y in s.db.jobs
      ensures t.db.jobs[y] == if Listed(items, y) then Acted(kind, s.db.jobs[y], s.now) else s.db.jobs[y]
    {
      ListedInFront(item, rest, y);
      ListedAlone(item, y);
    }
    forall i | 0 <= i < |items| && (items[i].id in s.db.jobs ==> Pushes(kind, s.db.jobs[items[i].id], s.now))
      ensures Some(items[i].id) in Queued(t.lists, ItemKey(items[i]))
    {
      if i == 0 {
        assert [item][0] == item;
        assert Some(item.id) in Queued(a.lists, ItemKey(item));
      } else {
        assert items[i] == rest[i - 1];
        ListedAlone(item, items[i].id);
      }
    }
    forall k, e | e in Queued(s.lists, k)
      ensures e in Queued(t.lists, k)
    {
      assert e in Queued(a.lists, k);
    }
  }

  ghost predicate DistinctItems(items: seq<Item>) {
    forall i, k :: 0 <= i < k < |items| ==> items[i].id != items[k].id
  }

  lemma {:induction false} RunPass(s: Sys, h: Setting, p: Id) returns (t: Sys)
    requires p in s.passes && s.passes[p].push.None? && DistinctItems(s.passes[p].todo)
    ensures Reaches(s, t, h) && PassDone(s, t, s.passes[p].kind, s.passes[p].todo)
    ensures t.passes == s.passes[p := Pass(s.passes[p].kind, [], None)]
    decreases |s.passes[p].todo|
  {
    var kind, todo := s.passes[p].kind, s.passes[p].todo;
    if todo == [] {
      t := s;
      Stay(s, h);
    } else {
      var a := DoItem(s, h, p);
      t := RunPass(a, h, p);
      Then(s, a, t, h);
      assert todo == [todo[0]] + todo[1..];
      PassDoneThen(s, a, t, kind, todo[0], todo[1..]);
    }
  }

  lemma DoOpen(s: Sys, h: Setting, kind: Kind, items: seq<Item>) returns (t: Sys, p: Id)
    requires IsBatch(s.db, kind, s.now, items)
    ensures Reaches(s, t, h) && p !in s.passes && t == s.(passes := s.passes[p := Pass(kind, items, None)])
  {
    p := Bound(s.passes.Keys);
    Step(s, StartPass(p, kind, items), h);
    t := Apply(s, StartPass(p, kind, items));
  }

  lemma DoClose(s: Sys, h: Setting, p: Id) returns (t: Sys)
    requires p in s.passes && s.passes[p].todo == [] && s.passes[p].push.None?
    ensures Reaches(s, t, h) && t == s.(passes := s.passes - {p})
  {
    Step(s, EndPass(p), h);
    t := Apply(s, EndPass(p));
  }

  /** A whole pass, from reading its list to its end. */
  lemma FullPass(s: Sys, h: Setting, kind: Kind, items: seq<Item>) returns (t: Sys)
    requires IsBatch(s.db, kind, s.now, items)
    ensures Reaches(s, t, h) && PassDone(s, t, kind, items) && t.passes == s.passes
  {
    var a, p := DoOpen(s, h, kind, items);
    assert DistinctItems(a.passes[p].todo);
    var b := RunPass(a, h, p);
    Then(s, a, b, h);
    t := DoClose(b, h, p);
    Then(s, b, t, h);
    assert t.passes == s.passes;
  }

  lemma WaitUntil(s: Sys, h: Setting, at: Time) returns (t: Sys)
    ensures Reaches(s, t, h) && t == s.(now := Max(s.now, at))
  {
    var e := Advance(if at > s.now then at - s.now else 0);
    Step(s, e, h);
    t := Apply(s, e);
  }

  // ---- progress of one job ----

  /** A state some run can reach, with the healthy worker free. */
  ghost predicate Ready(s: Sys, h: Setting) { Sound(s) && WorkerAt(s, h.w).Idle? }

  ghost predicate OnwardRow(j: Job, k: Job) {
    k.tenant == j.tenant && k.priority == j.priority && (j.state.Terminal() ==> k.state.Terminal())
  }

  /** No row is lost or changes tenant or priority, and finished jobs stay finished. */
  ghost predicate Onward(s: Sys, t: Sys) {
    t.db.jobs.Keys == s.db.jobs.Keys && forall y :: y in s.db.jobs ==> OnwardRow(s.db.jobs[y], t.db.jobs[y])
  }

  lemma Smaller(a: set<Id>, b: set<Id>)
    requires a <= b
    ensures |a| <= |b|
    ensures a != b ==> |a| < |b|
  {
    assert b == a + (b - a);
  }

  /** From `s` to `t` the system moved on and job `id` came closer to its end. */
  ghost predicate Improved(s: Sys, t: Sys, id: Id)
    requires id in s.db.jobs
  {
    Onward(s, t) && id in t.db.jobs && Measure(t.db.jobs[id]) < Measure(s.db.jobs[id])
  }

  lemma ActedFacts(kind: Kind, j: Job, now: Time)
    requires Due(kind, j, now)
    ensures OnwardRow(j, Acted(kind, j, now))
    ensures !kind.Reconcile? ==> Measure(Acted(kind, j, now)) < Measure(j)
  {
  }

  /** A whole pass leaves the worker free and improves every job it lists. */
  lemma ReadyPass(s: Sys, h: Setting, kind: Kind, items: seq<Item>) returns (t: Sys)
    requires Ready(s, h) && IsBatch(s.db, kind, s.now, items)
    ensures Reaches(s, t, h) && PassDone(s, t, kind, items) && Ready(t, h) && Onward(s, t)
    ensures !kind.Reconcile? ==> forall y :: y in s.db.jobs && Listed(items, y) ==> Improved(s, t, y)
  {
    t := FullPass(s, h, kind, items);
    SoundReaches(s, t, h);
    PassIsOnward(s, t, kind, items);
  }

  lemma PassIsOnward(s: Sys, t: Sys, kind: Kind, items: seq<Item>)
    requires IsBatch(s.db, kind, s.now, items) && RowsActed(s, t, kind, items)
    ensures Onward(s, t)
    ensures !kind.Reconcile? ==> forall y :: y in s.db.jobs && Listed(items, y) ==> Improved(s, t, y)
  {
    forall y | y in s.db.jobs && Listed(items, y)
      ensures OnwardRow(s.db.jobs[y], t.db.jobs[y])
      ensures !kind.Reconcile? ==> Measure(t.db.jobs[y]) < Measure(s.db.jobs[y])
    {
      var i :| 0 <= i < |items| && items[i].id == y;
      ActedFacts(kind, s.db.jobs[y], s.now);
    }
  }

  lemma ReadyWait(s: Sys, h: Setting, at: Time) returns (t: Sys)
    requires Ready(s, h)
    ensures Reaches(s, t, h) && Ready(t, h) && t == s.(now := Max(s.now, at))
  {
    t := WaitUntil(s, h, at);
    SoundReaches(s, t, h);
  }

  predicate Waits(kind: Kind, j: Job) {
    (kind.DuePoll? && j.state.Scheduled?) || (kind.RetryPoll? && j.state.Failed?)
  }

  ghost function WaitSet(s: Sys, kind: Kind): set<Id> {
    set x | x in s.db.jobs && Waits(kind, s.db.jobs[x])
  }

  lemma WaitSetShrinks(s: Sys, t: Sys, kind: Kind, items: seq<Item>)
    requires IsBatch(s.db, kind, s.now, items) && PassDone(s, t, kind, items) && items != []
    requires kind.DuePoll? || kind.RetryPoll?
    ensures |WaitSet(t, kind)| < |WaitSet(s, kind)|
  {
    assert Listed(items, items[0].id);
    assert items[0].id in WaitSet(s, kind) && items[0].id !in WaitSet(t, kind);
    Smaller(WaitSet(t, kind), WaitSet(s, kind));
  }

  /** A job that a pass listed and left pending is in one of its tenant's lists. */
  lemma ListedIsQueued(s: Sys, t: Sys, kind: Kind, items: seq<Item>, id: Id)
    requires IsBatch(s.db, kind, s.now, items) && PassDone(s, t, kind, items)
    requires id in s.db.jobs && Listed(items, id) && t.db.jobs[id].state.Pending?
    ensures InLists(t.lists, s.db.jobs[id].tenant, id)
  {
    var i :| 0 <= i < |items| && items[i].id == id;
    assert Some(items[i].id) in Queued(t.lists, ItemKey(items[i]));
  }

  /** A scheduled or failed job is promoted and queued once it is due, after however many full batches. */
  lemma {:induction false} FromWaiting(s: Sys, h: Setting, id: Id, kind: Kind) returns (t: Sys)
    requires Ready(s, h) && id in s.db.jobs && Waits(kind, s.db.jobs[id])
    ensures Reaches(s, t, h) && Ready(t, h) && Improved(s, t, id)
    ensures t.db.jobs[id].state.Pending? && InLists(t.lists, t.db.jobs[id].tenant, id)
    ensures t.now == Max(s.now, s.db.jobs[id].runAt)
    decreases |WaitSet(s, kind)|
  {
    var a := ReadyWait(s, h, s.db.jobs[id].runAt);
    var items := SomeBatch(a.db, kind, a.now);
    var b := ReadyPass(a, h, kind, items);
    Then(s, a, b, h);
    if Listed(items, id) {
      t := b;
      ListedIsQueued(a, b, kind, items, id);
    } else {
      WaitSetShrinks(a, b, kind, items);
      assert WaitSet(a, kind) == WaitSet(s, kind);
      t := FromWaiting(b, h, id, kind);
      Then(s, b, t, h);
    }
  }

  /** A job in flight whose worker is gone is reaped when its deadline has passed, and queued unless dead. */
  lemma FromInFlight(s: Sys, h: Setting, id: Id) returns (t: Sys)
    requires Ready(s, h) && id in s.db.jobs && s.db.jobs[id].state.InFlight()
    ensures Reaches(s, t, h) && Ready(t, h) && Improved(s, t, id)
    ensures t.db.jobs[id].state == Retried(s.db.jobs[id], Pending)
    ensures t.db.jobs[id].state.Pending? ==> InLists(t.lists, t.db.jobs[id].tenant, id)
    ensures s.db.jobs[id].deadline.Some? && t.now == Max(s.now, s.db.jobs[id].deadline.value + 1)
  {
    RowFacts(s, id);
    var a := ReadyWait(s, h, s.db.jobs[id].deadline.value + 1);
    var items := SomeBatch(a.db, StaleReap, a.now);
    t := ReadyPass(a, h, StaleReap, items);
    Then(s, a, t, h);
    if t.db.jobs[id].state.Pending? {
      ListedIsQueued(a, t, StaleReap, items, id);
    }
  }

  ghost function PendingSet(s: Sys): set<Id> {
    set x | x in s.db.jobs && s.db.jobs[x].state.Pending?
  }

  lemma ServedIsOnward(s: Sys, t: Sys, h: Setting, id: Id)
    requires SomeExecuted(s, t, h) && Claimable(s.db, id) && Ran(s, t, h, id)
    ensures Onward(s, t) && |PendingSet(t)| < |PendingSet(s)|
  {
    assert id in PendingSet(s) && id !in PendingSet(t);
    Smaller(PendingSet(t), PendingSet(s));
  }

  lemma ReadyServe(s: Sys, h: Setting, id: Id) returns (t: Sys)
    requires Ready(s, h) && Claimable(s.db, id)
    requires s.db.jobs[id].tenant in h.active && InLists(s.lists, s.db.jobs[id].tenant, id)
    ensures Reaches(s, t, h) && Ready(t, h) && SomeExecuted(s, t, h) && Ran(s, t, h, id)
    ensures Onward(s, t) && |PendingSet(t)| < |PendingSet(s)|
  {
    t := Serve(s, h, id);
    ServedIsOnward(s, t, h, id);
    SoundReaches(s, t, h);
  }

  ghost function IdsOf(items: seq<Item>): set<Id> {
    set i | 0 <= i < |items| :: items[i].id
  }

  lemma IdsOfLast(items: seq<Item>)
    requires items != []
    ensures IdsOf(items) == IdsOf(items[..|items| - 1]) + {items[|items| - 1].id}
  {
    var rest := items[..|items| - 1];
    forall x
      ensures x in IdsOf(items) <==> x in IdsOf(rest) || x == items[|items| - 1].id
    {
      if x in IdsOf(items) {
        var i :| 0 <= i < |items| && items[i].id == x;
        assert i < |rest| ==> rest[i].id == x;
      }
      if x in IdsOf(rest) {
        var i :| 0 <= i < |rest| && rest[i].id == x;
        assert items[i].id == x;
      }
    }
  }

  lemma {:induction false} DistinctCount(items: seq<Item>)
    requires DistinctItems(items)
    ensures |IdsOf(items)| == |items|
  {
    if items != [] {
      var rest, id := items[..|items| - 1], items[|items| - 1].id;
      DistinctCount(rest);
      IdsOfLast(items);
      assert id !in IdsOf(rest);
    }
  }

  /** When `id` will be old enough for the reconciler, or now if it is. */
  function DueTime(s: Sys, id: Id): Time
    requires id in s.db.jobs
  {
    Max(s.now, s.db.jobs[id].runAt + 60 * SECOND)
  }

  /** Pending jobs of tenants no worker serves that stand strictly before `id` in the reconciler's order
      as soon as `id` is listed at all. */
  ghost function InFront(s: Sys, active: seq<Id>, id: Id): set<Id>
    requires id in s.db.jobs
  {
    set x | && x in s.db.jobs && s.db.jobs[x].tenant !in active
            && Due(Reconcile, s.db.jobs[x], DueTime(s, id))
            && !NotAfter(ItemOf(id, s.db.jobs[id]), ItemOf(x, s.db.jobs[x]))
  }

  /** A batch that leaves `id` out for lack of room consists of jobs strictly before it. */
  lemma FullOfBefore(s: Sys, id: Id, items: seq<Item>, i: nat)
    requires IsBatch(s.db, Reconcile, s.now, items) && id in s.db.jobs && i < |items|
    requires |Before(s.db, DueSet(s.db, Reconcile, s.now), id)| >= BATCH
    ensures items[i].id in Before(s.db, DueSet(s.db, Reconcile, s.now), id)
  {
    var front := Before(s.db, DueSet(s.db, Reconcile, s.now), id);
    if items[i].id !in front {
      DistinctCount(items);
      forall x | x in front
        ensures x in IdsOf(items)
      {
        if Listed(items, x) {
          var k :| 0 <= k < |items| && items[k].id == x;
        }
      }
      assert items[i].id in IdsOf(items);
      Smaller(front, IdsOf(items));
    }
  }

  /** Unless a whole batch of inactive tenants' jobs is in front of `id`, a batch that leaves it out lists
      a job some worker serves. */
  lemma SomeoneServable(s: Sys, h: Setting, id: Id, items: seq<Item>) returns (i: nat)
    requires IsBatch(s.db, Reconcile, s.now, items) && id in s.db.jobs && Due(Reconcile, s.db.jobs[id], s.now)
    requires |Before(s.db, DueSet(s.db, Reconcile, s.now), id)| >= BATCH && !Listed(items, id)
    requires |InFront(s, h.active, id)| < BATCH
    ensures i < |items| && items[i].tenant in h.active
  {
    i := 0;
    while i < |items| && items[i].tenant !in h.active
      invariant i <= |items| && forall k :: 0 <= k < i ==> items[k].tenant !in h.active
    {
      i := i + 1;
    }
    if i == |items| {
      DistinctCount(items);
      forall x | x in IdsOf(items)
        ensures x in InFront(s, h.active, id)
      {
        var k :| 0 <= k < |items| && items[k].id == x;
        FullOfBefore(s, id, items, k);
      }
      Smaller(IdsOf(items), InFront(s, h.active, id));
    }
  }

  /** A reconcile pass puts a servable pending job into Redis: `id` itself, or one before it. */
  lemma ReconcileOne(s: Sys, h: Setting, id: Id) returns (t: Sys, x: Id)
    requires Ready(s, h) && id in s.db.jobs && Due(Reconcile, s.db.jobs[id], s.now) && s.db.jobs[id].tenant in h.active
    requires |InFront(s, h.active, id)| < BATCH
    ensures Reaches(s, t, h) && Ready(t, h) && t.db.jobs == s.db.jobs && t.now == s.now
    ensures Claimable(t.db, x) && t.db.jobs[x].tenant in h.active && InLists(t.lists, t.db.jobs[x].tenant, x)
  {
    var items := BatchFor(s.db, Reconcile, s.now, id);
    var i: nat;
    if Listed(items, id) {
      i :| 0 <= i < |items| && items[i].id == id;
    } else {
      i := SomeoneServable(s, h, id, items);
    }
    x := items[i].id;
    t := ReadyPass(s, h, Reconcile, items);
    Reconciled(s, t, items, i);
  }

  lemma Reconciled(s: Sys, t: Sys, items: seq<Item>, i: nat)
    requires IsBatch(s.db, Reconcile, s.now, items) && PassDone(s, t, Reconcile, items) && i < |items|
    ensures t.db.jobs == s.db.jobs && Claimable(t.db, items[i].id)
    ensures t.db.jobs[items[i].id].tenant == items[i].tenant && InLists(t.lists, items[i].tenant, items[i].id)
  {
    assert Some(items[i].id) in Queued(t.lists, ItemKey(items[i]));
  }

  /** Executions only take jobs out of the way. */
  lemma FrontStays(s: Sys, t: Sys, h: Setting, id: Id)
    requires SomeExecuted(s, t, h) && id in s.db.jobs && t.db.jobs[id] == s.db.jobs[id]
    ensures |InFront(t, h.active, id)| <= |InFront(s, h.active, id)|
  {
    Smaller(InFront(t, h.active, id), InFront(s, h.active, id));
  }

  /** One round: some servable pending job is reconciled, dequeued and executed. */
  lemma OneRound(s: Sys, h: Setting, id: Id) returns (t: Sys)
    requires Ready(s, h) && Claimable(s.db, id) && s.db.jobs[id].tenant in h.active && |InFront(s, h.active, id)| < BATCH
    ensures Reaches(s, t, h) && Ready(t, h) && Onward(s, t) && |PendingSet(t)| < |PendingSet(s)|
    ensures t.now == Max(s.now, s.db.jobs[id].runAt + 60000)
    ensures if t.db.jobs[id] == s.db.jobs[id] then |InFront(t, h.active, id)| < BATCH
            else Executed(s.db.jobs[id], t.db.jobs[id], h.verdict(id, s.db.jobs[id].attempt), t.now)
  {
    var a := ReadyWait(s, h, s.db.jobs[id].runAt + 60 * SECOND);
    assert InFront(a, h.active, id) == InFront(s, h.active, id);
    var b, x := ReconcileOne(a, h, id);
    assert InFront(b, h.active, id) == InFront(s, h.active, id) && PendingSet(b) == PendingSet(s);
    Then(s, a, b, h);
    t := ReadyServe(b, h, x);
    Then(s, b, t, h);
    if t.db.jobs[id] == s.db.jobs[id] {
      FrontStays(b, t, h, id);
    }
  }

  /** A job the worker can get at: if it is pending, it is queued for its tenant, or fewer than a batch of jobs
      of tenants that no worker serves keep it from the reconciler. */
  ghost predicate Servable(s: Sys, h: Setting, id: Id)
    requires id in s.db.jobs
  {
    s.db.jobs[id].state.Pending? ==>
      InLists(s.lists, s.db.jobs[id].tenant, id) || |InFront(s, h.active, id)| < 500
  }

  /** A pending job is executed, however many are ahead of it. */
  lemma {:induction false} FromPending(s: Sys, h: Setting, id: Id) returns (t: Sys)
    requires Ready(s, h) && Claimable(s.db, id) && s.db.jobs[id].tenant in h.active && Servable(s, h, id)
    ensures Reaches(s, t, h) && Ready(t, h) && Improved(s, t, id) && !t.db.jobs[id].state.Pending?
    ensures t.now == if InLists(s.lists, s.db.jobs[id].tenant, id) then s.now else Max(s.now, s.db.jobs[id].runAt + 60000)
    ensures h.verdict(id, s.db.jobs[id].attempt) ==> t.db.jobs[id].state.Succeeded?
    decreases |PendingSet(s)|
  {
    if InLists(s.lists, s.db.jobs[id].tenant, id) {
      t := ReadyServe(s, h, id);
    } else {
      var a := OneRound(s, h, id);
      if a.db.jobs[id] == s.db.jobs[id] {
        t := FromPending(a, h, id);
        Then(s, a, t, h);
      } else {
        t := a;
      }
    }
  }

  /** One stage of a job's life. */
  lemma OneStage(s: Sys, h: Setting, id: Id) returns (t: Sys)
    requires Ready(s, h) && id in s.db.jobs && s.db.jobs[id].tenant in h.active && !s.db.jobs[id].state.Terminal()
    requires Servable(s, h, id)
    ensures Reaches(s, t, h) && Ready(t, h) && Improved(s, t, id) && Servable(t, h, id)
    ensures Hopeful(s.db.jobs[id]) && h.verdict(id, s.db.jobs[id].attempt) ==> Hopeful(t.db.jobs[id])
  {
    match s.db.jobs[id].state {
      case Scheduled => t := FromWaiting(s, h, id, DuePoll);
      case Failed => t := FromWaiting(s, h, id, RetryPoll);
      case Pending => t := FromPending(s, h, id);
      case Claimed => t := FromInFlight(s, h, id);
      case Running => t := FromInFlight(s, h, id);
    }
  }

  /** Not dead, nor in flight on the last attempt with its worker gone. */
  predicate Hopeful(j: Job) {
    !j.state.Dead? && (j.state.InFlight() ==> j.attempt + 1 < j.maxRetries)
  }

  /** From every reachable state, whatever workers died and whatever Redis holds or has lost, every job of an
      active tenant that is servable can be brought to succeeded or dead by the scheduler's passes and one
      healthy worker, whatever its executions turn out to be; and to succeeded if they turn out well, unless
      it was dead or lost its worker on its last attempt. */
  lemma {:induction false} NoStuckJob(s: Sys, h: Setting, id: Id) returns (t: Sys)
    requires Ready(s, h) && id in s.db.jobs && s.db.jobs[id].tenant in h.active && Servable(s, h, id)
    ensures Reaches(s, t, h) && id in t.db.jobs && t.db.jobs[id].state.Terminal()
    ensures (forall a :: h.verdict(id, a)) && Hopeful(s.db.jobs[id]) ==> t.db.jobs[id].state.Succeeded?
    decreases Measure(s.db.jobs[id])
  {
    RowFacts(s, id);
    if s.db.jobs[id].state.Terminal() {
      t := s;
      Stay(s, h);
    } else {
      var a := OneStage(s, h, id);
      RowFacts(a, id);
      t := NoStuckJob(a, h, id);
      Then(s, a, t, h);
    }
  }

  /** The same from any state of any run of the cluster. */
  lemma EveryJobCanFinish(ss: seq<Sys>, es: seq<Event>, i: nat, h: Setting, id: Id) returns (t: Sys)
    requires IsRun(ss, es) && Init(ss[0]) && i < |ss| && WorkerAt(ss[i], h.w).Idle?
    requires id in ss[i].db.jobs && ss[i].db.jobs[id].tenant in h.active && Servable(ss[i], h, id)
    ensures Reaches(ss[i], t, h) && id in t.db.jobs && t.db.jobs[id].state.Terminal()
    ensures (forall a :: h.verdict(id, a)) && Hopeful(ss[i].db.jobs[id]) ==> t.db.jobs[id].state.Succeeded?
  {
    ReachableIsSound(ss, es, i);
    t := NoStuckJob(ss[i], h, id);
  }
}
