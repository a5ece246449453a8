/** Cron expansion (`expandCron`, `fireSchedule`): one expander at a time, and an abstract `Next` that returns
    the least tick after a time. */
module Cron {
  import opened Types
  import opened Storage
  import opened LedgerInvariants
  import opened Store
  import opened Queue
  import L = Ledger

  /** `next(t)` is the first tick strictly after `t`. */
  ghost predicate IsNext(tick: Time -> bool, next: Time -> Time) {
    forall t :: next(t) > t && tick(next(t)) && forall m :: t < m < next(t) ==> !tick(m)
  }

  /** Number of ticks in (a, b]. */
  function Ticks(tick: Time -> bool, a: Time, b: Time): nat
    decreases b - a
  {
    if b <= a then 0 else Ticks(tick, a, b - 1) + (if tick(b) then 1 else 0)
  }

  datatype Schedule = Schedule(tenant: Id, enabled: bool, lastRunAt: Option<Time>, nextRunAt: Time)

  /** Number of firings in (a, b]. */
  function Fired(log: seq<Time>, a: Time, b: Time): nat {
    if log == [] then 0
    else Fired(log[..|log| - 1], a, b) + (if a < log[|log| - 1] <= b then 1 else 0)
  }

  /** `next_run_at` after the firings `log` of a schedule created with `first`. */
  function NextAfter(next: Time -> Time, first: Time, log: seq<Time>): Time {
    if log == [] then first else next(log[|log| - 1])
  }

  /** Each firing happened no sooner than the `next_run_at` in force. */
  ghost predicate LogOk(next: Time -> Time, first: Time, log: seq<Time>) {
    forall i :: 0 <= i < |log| ==> NextAfter(next, first, log[..i]) <= log[i]
  }

  /** A schedule row with its history: the `next_run_at` it was created with, the creation times of the jobs it
      inserted, and those of jobs whose schedule update then failed. */
  datatype Record = Record(row: Schedule, first: Time, log: seq<Time>, extra: seq<Time>) {
    ghost predicate Ok(next: Time -> Time) {
      && LogOk(next, first, log)
      && row.nextRunAt == NextAfter(next, first, log)
      && row.lastRunAt == if log == [] then None else Some(log[|log| - 1])
    }

    /** fireSchedule at `now`: one job, whatever was missed. */
    function Fire(now: Time, nextRunAt: Time): Record {
      Record(row.(lastRunAt := Some(now), nextRunAt := nextRunAt), first, log + [now], extra)
    }

    /** The same when the row could not be updated: the schedule stays due. */
    function FireUnrecorded(now: Time): Record { this.(extra := extra + [now]) }
  }

  lemma FireOk(next: Time -> Time, r: Record, now: Time)
    requires r.Ok(next) && r.row.nextRunAt <= now
    ensures r.Fire(now, next(now)).Ok(next)
  {
    var more := r.log + [now];
    forall i | 0 <= i < |more|
      ensures NextAfter(next, r.first, more[..i]) <= more[i]
    {
      assert more[..i] == r.log[..i];
      if i == |r.log| {
        assert r.log[..i] == r.log;
      }
    }
  }

  // ---- the expander ----

  /** The parts of a job template that matter to the protocol. */
  datatype Template = Template(priority: Option<int>, maxRetries: Option<int>, backoff: Option<int>)

  /** The row a firing at `now` inserts: pending and due, with the defaults of a submission and no key. */
  function CronRow(tenant: Id, t: Template, now: Time): Job {
    Job(tenant, t.priority.Or(5), Pending, now, None, None, None, None, 0, t.maxRetries.Or(3), t.backoff.Or(30),
        None, None, now, None)
  }

  /** Which statements of a firing succeed. */
  datatype Luck = Luck(insert: bool, enqueue: bool, update: bool)

  /** A schedule in the list a pass has read: how long after the one before it gets its turn, its template (None
      if the expression or the template does not parse), what succeeds, and the id drawn for its job. */
  datatype Listed = Listed(id: Id, delay: nat, template: Option<Template>, luck: Luck, job: Id) {
    predicate Creates() { template.Some? && luck.insert }
  }

  datatype Firing = Firing(id: Id, now: Time, recorded: bool)

  ghost predicate DistinctIds(due: seq<Firing>) {
    forall i, k :: 0 <= i < k < |due| ==> due[i].id != due[k].id
  }

  function FireOne(next: Time -> Time, r: Record, f: Firing): Record {
    if f.recorded then r.Fire(f.now, next(f.now)) else r.FireUnrecorded(f.now)
  }

  function FireAll(next: Time -> Time, records: map<Id, Record>, due: seq<Firing>): map<Id, Record> {
    if due == [] then records
    else
      var f, m := due[|due| - 1], FireAll(next, records, due[..|due| - 1]);
      if f.id in m then m[f.id := FireOne(next, m[f.id], f)] else m
  }

  /** What a firing at `now` leaves of the schedule: if the update succeeded, it has run now, is next due at the
      first tick after now, and the job is on its log; if not, row and log are as they were. */
  ghost predicate Recorded(next: Time -> Time, r: Record, r': Record, now: Time, updated: bool) {
    && r'.first == r.first && r'.row.tenant == r.row.tenant && r'.row.enabled == r.row.enabled
    && if updated
       then
         && r'.row.lastRunAt == Some(now) && r'.row.nextRunAt == next(now)
         && r'.log == r.log + [now] && r'.extra == r.extra
       else r'.row == r.row && r'.log == r.log && r'.extra == r.extra + [now]
  }

  /** A pass fires each of these schedules exactly once and leaves the others alone. */
  lemma {:induction false} FireAllAt(next: Time -> Time, records: map<Id, Record>, due: seq<Firing>, id: Id)
    requires DistinctIds(due)
    ensures var m := FireAll(next, records, due);
            && (id in m <==> id in records)
            && (id in records && (forall i :: 0 <= i < |due| ==> due[i].id != id) ==> m[id] == records[id])
            && (forall i :: 0 <= i < |due| && due[i].id == id && id in records ==>
                  m[id] == FireOne(next, records[id], due[i]) && Recorded(next, records[id], m[id], due[i].now, due[i].recorded))
  {
    if due != [] {
      FireAllAt(next, records, due[..|due| - 1], id);
    }
  }

  /** When the last schedule of the list has had its turn. */
  function TurnOf(list: seq<Listed>, start: Time): Time {
    if list == [] then start else TurnOf(list[..|list| - 1], start) + list[|list| - 1].delay
  }

  /** The firings of a pass: every listed schedule whose job is created, at its turn. */
  function Firings(list: seq<Listed>, start: Time): seq<Firing> {
    if list == [] then []
    else
      var last, rest := list[|list| - 1], Firings(list[..|list| - 1], start);
      if last.Creates() then rest + [Firing(last.id, TurnOf(list, start), last.luck.update)] else rest
  }

  ghost predicate DistinctList(list: seq<Listed>) {
    && (forall i, k :: 0 <= i < k < |list| ==> list[i].id != list[k].id)
    && (forall i, k :: 0 <= i < k < |list| ==> list[i].job != list[k].job)
  }

  ghost predicate HasId(list: seq<Listed>, id: Id) { exists k :: 0 <= k < |list| && list[k].id == id }

  lemma {:induction false} FiringsDistinct(list: seq<Listed>, start: Time)
    requires DistinctList(list)
    ensures DistinctIds(Firings(list, start))
    ensures forall i :: 0 <= i < |Firings(list, start)| ==> HasId(list, Firings(list, start)[i].id)
  {
    if list != [] {
      var init := list[..|list| - 1];
      FiringsDistinct(init, start);
      forall i | 0 <= i < |Firings(init, start)|
        ensures HasId(list, Firings(init, start)[i].id) && Firings(init, start)[i].id != list[|list| - 1].id
      {
        var k :| 0 <= k < |init| && init[k].id == Firings(init, start)[i].id;
        assert list[k].id == Firings(init, start)[i].id;
      }
    }
  }

  /** A schedule whose turn has not come is as it was. */
  lemma NotYetFired(next: Time -> Time, records: map<Id, Record>, list: seq<Listed>, k: nat, start: Time)
    requires DistinctList(list) && k < |list| && list[k].id in records
    ensures list[k].id in FireAll(next, records, Firings(list[..k], start))
    ensures FireAll(next, records, Firings(list[..k], start))[list[k].id] == records[list[k].id]
  {
    FiringsDistinct(list[..k], start);
    FireAllAt(next, records, Firings(list[..k], start), list[k].id);
  }

  /** One more turn. */
  lemma FiredNext(next: Time -> Time, records: map<Id, Record>, list: seq<Listed>, k: nat, start: Time)
    requires k < |list|
    ensures TurnOf(list[..k + 1], start) == TurnOf(list[..k], start) + list[k].delay
    ensures var m, f := FireAll(next, records, Firings(list[..k], start)),
                        Firing(list[k].id, TurnOf(list[..k + 1], start), list[k].luck.update);
            FireAll(next, records, Firings(list[..k + 1], start))
            == if list[k].Creates() && f.id in m then m[f.id := FireOne(next, m[f.id], f)] else m
  {
    assert list[..k + 1][..k] == list[..k];
    var rest := Firings(list[..k], start);
    assert forall f :: (rest + [f])[..|rest|] == rest;
  }

  /** What a pass makes of its i-th schedule: fired at its turn if its job could be created, else as it was. */
  ghost predicate Treated(next: Time -> Time, records: map<Id, Record>, after: map<Id, Record>, list: seq<Listed>, i: nat, start: Time)
    requires i < |list|
  {
    var id := list[i].id;
    && id in records && id in after
    && if list[i].Creates()
       then Recorded(next, records[id], after[id], TurnOf(list[..i + 1], start), list[i].luck.update)
       else after[id] == records[id]
  }

  /** The i-th schedule fires at its turn exactly if its job can be created. */
  lemma {:induction false} FiringOf(list: seq<Listed>, start: Time, i: nat) returns (k: nat)
    requires DistinctList(list) && i < |list|
    ensures list[i].Creates() ==>
              k < |Firings(list, start)|
              && Firings(list, start)[k] == Firing(list[i].id, TurnOf(list[..i + 1], start), list[i].luck.update)
    ensures !list[i].Creates() ==> forall n :: 0 <= n < |Firings(list, start)| ==> Firings(list, start)[n].id != list[i].id
  {
    var init := list[..|list| - 1];
    if i == |list| - 1 {
      k := |Firings(init, start)|;
      assert list[..i + 1] == list;
      FiringsDistinct(init, start);
      forall n | 0 <= n < |Firings(init, start)|
        ensures Firings(init, start)[n].id != list[i].id
      {
        var m :| 0 <= m < |init| && init[m].id == Firings(init, start)[n].id;
      }
    } else {
      k := FiringOf(init, start, i);
      assert init[..i + 1] == list[..i + 1] && init[i] == list[i];
    }
  }

  lemma ListedTreated(next: Time -> Time, records: map<Id, Record>, list: seq<Listed>, i: nat, start: Time)
    requires DistinctList(list) && i < |list| && list[i].id in records
    ensures Treated(next, records, FireAll(next, records, Firings(list, start)), list, i, start)
  {
    FiringsDistinct(list, start);
    FireAllAt(next, records, Firings(list, start), list[i].id);
    var k := FiringOf(list, start, i);
  }

  lemma UnlistedStays(next: Time -> Time, records: map<Id, Record>, list: seq<Listed>, id: Id, start: Time)
    requires DistinctList(list) && id in records && !HasId(list, id)
    ensures var m := FireAll(next, records, Firings(list, start)); id in m && m[id] == records[id]
  {
    FiringsDistinct(list, start);
    FireAllAt(next, records, Firings(list, start), id);
  }

  // ---- the jobs of a pass ----

  /** The row of a listed schedule's job, inserted at `now`. */
  function RowOf(records: map<Id, Record>, l: Listed, now: Time): Job
    requires l.id in records && l.Creates()
  {
    CronRow(records[l.id].row.tenant, l.template.value, now)
  }

  /** After the first `k` turns the table holds what it held and the rows of the jobs created, each from its own
      template at its own turn, and nothing else. */
  ghost predicate RowsLeft(records: map<Id, Record>, list: seq<Listed>, k: nat, start: Time, jobs: map<Id, Job>, after: map<Id, Job>)
    requires k <= |list| && forall i :: 0 <= i < |list| ==> list[i].id in records
  {
    && (forall x :: x in jobs ==> x in after && after[x] == jobs[x])
    && (forall i :: 0 <= i < k && list[i].Creates() ==>
          list[i].job in after && after[list[i].job] == RowOf(records, list[i], TurnOf(list[..i + 1], start)))
    && (forall x :: x in after && x !in jobs ==> exists i :: 0 <= i < k && list[i].Creates() && list[i].job == x)
  }

  lemma RowsNext(records: map<Id, Record>, list: seq<Listed>, k: nat, start: Time, jobs: map<Id, Job>, after: map<Id, Job>)
    requires DistinctList(list) && k < |list| && forall i :: 0 <= i < |list| ==> list[i].id in records
    requires RowsLeft(records, list, k, start, jobs, after) && list[k].job !in after
    ensures RowsLeft(records, list, k + 1, start, jobs,
                     if list[k].Creates() then after[list[k].job := RowOf(records, list[k], TurnOf(list[..k + 1], start))] else after)
  {
  }

  /** What the pass pushes to `key`, in its order. */
  function Queues(records: map<Id, Record>, list: seq<Listed>, key: Key): seq<Entry>
    requires forall i :: 0 <= i < |list| ==> list[i].id in records
  {
    if list == [] then []
    else
      var l, rest := list[|list| - 1], Queues(records, list[..|list| - 1], key);
      if l.Creates() && l.luck.enqueue && KeyOf(records, l) == key then rest + [Some(l.job)] else rest
  }

  function KeyOf(records: map<Id, Record>, l: Listed): Key
    requires l.id in records && l.Creates()
  {
    Key(records[l.id].row.tenant, BucketFor(l.template.value.priority.Or(5)))
  }

  /** Every queue list is as it was, with what the pass pushed there in front, last first. */
  ghost predicate QueuesLeft(records: map<Id, Record>, list: seq<Listed>, before: Lists, after: Lists)
    requires forall i :: 0 <= i < |list| ==> list[i].id in records
  {
    && after.processing == before.processing
    && forall key :: Queued(after, key) == Reverse(Queues(records, list, key)) + Queued(before, key)
  }

  lemma QueuesNext(records: map<Id, Record>, list: seq<Listed>, k: nat, before: Lists, after: Lists)
    requires k < |list| && forall i :: 0 <= i < |list| ==> list[i].id in records
    requires QueuesLeft(records, list[..k], before, after)
    ensures QueuesLeft(records, list[..k + 1], before,
                       if list[k].Creates() && list[k].luck.enqueue
                       then AfterPush(after, KeyOf(records, list[k]), Some(list[k].job)) else after)
  {
    var l := list[k];
    assert list[..k + 1][..k] == list[..k];
    if l.Creates() && l.luck.enqueue {
      var after' := AfterPush(after, KeyOf(records, l), Some(l.job));
      forall key
        ensures Queued(after', key) == Reverse(Queues(records, list[..k + 1], key)) + Queued(before, key)
      {
        PushedInFront(after, KeyOf(records, l), Some(l.job), key, Queues(records, list[..k], key), Queued(before, key));
      }
    } else {
      forall key
        ensures Queues(records, list[..k + 1], key) == Queues(records, list[..k], key)
      {
      }
    }
  }

  /** Of the jobs drawn for the list, those of the first `k` schedules that were created exist. */
  ghost predicate Inserted(list: seq<Listed>, k: nat, ids: set<Id>) {
    forall i :: 0 <= i < |list| ==> (list[i].job in ids <==> i < k && list[i].Creates())
  }

  lemma InsertedNext(list: seq<Listed>, k: nat, ids: set<Id>)
    requires DistinctList(list) && k < |list| && Inserted(list, k, ids)
    ensures list[k].job !in ids && Inserted(list, k + 1, ids + if list[k].Creates() then {list[k].job} else {})
  {
  }

  lemma NewIsFree(db: Postgres, job: Id)
    requires db.Valid() && job !in db.Core().hist
    ensures job !in db.jobs
  {
    db.Alive();
    assert JobInv(db.Core(), job);
  }

  /** The schedules of one tick set. */
  class Expander {
    /** `expr.Next` */
    const next: Time -> Time
    const db: Postgres
    const queue: Client
    var records: map<Id, Record>

    ghost predicate Valid()
      reads this
    {
      forall id :: id in records ==> records[id].Ok(next)
    }

    constructor (next: Time -> Time, db: Postgres, queue: Client)
      ensures Valid() && this.next == next && this.db == db && this.queue == queue && records == map[]
    {
      this.next, this.db, this.queue := next, db, queue;
      records := map[];
    }

    /** handleCreateSchedule */
    method Create(id: Id, tenant: Id, nextRunAt: Time)
      requires Valid() && id !in records
      modifies this
      ensures Valid() && records == old(records)[id := Record(Schedule(tenant, true, None, nextRunAt), nextRunAt, [], [])]
    {
      records := records[id := Record(Schedule(tenant, true, None, nextRunAt), nextRunAt, [], [])];
    }

    /** A pending row with a new id and no key can always be inserted. */
    method InsertCron(job: Id, row: Job)
      requires db.Valid() && job !in db.Core().hist && L.FreshRow(row, db.clock) && row.key.None?
      modifies db
      ensures db.Valid() && old(db.past) <= db.past && db.clock == old(db.clock)
      ensures db.jobs == old(db.jobs)[job := row] && db.Core().hist.Keys == old(db.Core().hist.Keys) + {job}
    {
      NewIsFree(db, job);
      ghost var past, steps := db.past, db.steps;
      var inserted := db.InsertJob(job, row);
      LastStep(past, steps, db.past, db.steps, L.Submit(job, row));
    }

    /** fireSchedule. Unless the expression or the template does not parse or the insert fails, one claimable job is
        inserted; it is queued in front of its tenant's bucket unless that fails, which is only logged; and the
        schedule moves past the present unless its update fails, which leaves it due. */
    method FireSchedule(l: Listed) returns (ok: bool)
      requires Valid() && db.Valid() && l.id in records && records[l.id].row.nextRunAt <= db.clock && l.job !in db.Core().hist
      modifies this, db, queue
      ensures Valid() && db.Valid() && old(db.past) <= db.past && db.clock == old(db.clock)
      ensures ok <==> l.Creates() && l.luck.update
      ensures l.Creates() ==>
                && records == old(records)[l.id := FireOne(next, old(records)[l.id], Firing(l.id, db.clock, l.luck.update))]
                && l.id in records && Recorded(next, old(records)[l.id], records[l.id], db.clock, l.luck.update)
                && Claimable(db.Value(), l.job) && db.jobs == old(db.jobs)[l.job := RowOf(old(records), l, db.clock)]
                && var j := db.jobs[l.job];
                && j.tenant == old(records)[l.id].row.tenant && j.runAt == db.clock && j.attempt == 0 && j.key.None?
                && j.priority == l.template.value.priority.Or(5) && j.maxRetries == l.template.value.maxRetries.Or(3)
                && j.backoff == l.template.value.backoff.Or(30)
                && queue.lists == if l.luck.enqueue then AfterPush(old(queue.lists), KeyOf(old(records), l), Some(l.job))
                                  else old(queue.lists)
      ensures !l.Creates() ==> records == old(records) && db.Value() == old(db.Value()) && queue.lists == old(queue.lists)
      ensures db.Core().hist.Keys == old(db.Core().hist.Keys) + if l.Creates() then {l.job} else {}
    {
      if l.template.None? || !l.luck.insert {
        return false;
      }
      var row := CronRow(records[l.id].row.tenant, l.template.value, db.clock);
      InsertCron(l.job, row);
      if l.luck.enqueue {
        queue.Enqueue(row.tenant, l.job, row.priority);
      }
      UpdateSchedule(l.id, db.clock, l.luck.update);
      return l.luck.update;
    }

    /** UpdateScheduleAfterRun, if it succeeds; the job has been created either way. */
    method UpdateSchedule(id: Id, now: Time, ok: bool)
      requires Valid() && id in records && records[id].row.nextRunAt <= now
      modifies this
      ensures Valid() && records == old(records)[id := FireOne(next, old(records)[id], Firing(id, now, ok))]
    {
      var r := records[id];
      if ok {
        FireOk(next, r, now);
        records := records[id := r.(row := r.row.(lastRunAt := Some(now), nextRunAt := next(now)), log := r.log + [now])];
      } else {
        records := records[id := r.(extra := r.extra + [now])];
      }
    }

    /** The turn of one listed schedule; an error is logged and the loop goes on. */
    method TakeTurn(l: Listed)
      requires Valid() && db.Valid() && l.id in records && records[l.id].row.nextRunAt <= db.clock && l.job !in db.Core().hist
      modifies this, db, queue
      ensures Valid() && db.Valid() && old(db.past) <= db.past && db.clock == old(db.clock) + l.delay
      ensures records == if l.Creates()
                         then old(records)[l.id := FireOne(next, old(records)[l.id], Firing(l.id, db.clock, l.luck.update))]
                         else old(records)
      ensures db.jobs == if l.Creates() then old(db.jobs)[l.job := RowOf(old(records), l, db.clock)] else old(db.jobs)
      ensures queue.lists == if l.Creates() && l.luck.enqueue
                             then AfterPush(old(queue.lists), KeyOf(old(records), l), Some(l.job)) else old(queue.lists)
      ensures db.Core().hist.Keys == old(db.Core().hist.Keys) + if l.Creates() then {l.job} else {}
    {
      ghost var past, steps := db.past, db.steps;
      db.Wait(l.delay);
      LastStep(past, steps, db.past, db.steps, L.Tick(l.delay));
      var ok := FireSchedule(l);
    }

    /** expandCron over a list that has been read: each schedule whose job can be created fires once, at its turn,
        and the pass leaves exactly the rows and queue entries of those jobs. */
    method ExpandCron(list: seq<Listed>)
      requires Valid() && db.Valid() && DistinctList(list)
      requires forall i :: 0 <= i < |list| ==>
                 && list[i].id in records && records[list[i].id].row.enabled && records[list[i].id].row.nextRunAt <= db.clock
                 && list[i].job !in db.Core().hist
      modifies this, db, queue
      ensures Valid() && db.Valid() && old(db.past) <= db.past && db.clock == TurnOf(list, old(db.clock))
      ensures records == FireAll(next, old(records), Firings(list, old(db.clock)))
      ensures forall i :: 0 <= i < |list| ==> Treated(next, old(records), records, list, i, old(db.clock))
      ensures forall id :: id in old(records) && !HasId(list, id) ==> id in records && records[id] == old(records)[id]
      ensures RowsLeft(old(records), list, |list|, old(db.clock), old(db.jobs), db.jobs)
      ensures QueuesLeft(old(records), list, old(queue.lists), queue.lists)
    {
      assert Inserted(list, 0, db.Core().hist.Keys);
      for k := 0 to |list|
        invariant Valid() && db.Valid() && old(db.past) <= db.past
        invariant old(db.clock) <= db.clock == TurnOf(list[..k], old(db.clock))
        invariant records == FireAll(next, old(records), Firings(list[..k], old(db.clock)))
        invariant Inserted(list, k, db.Core().hist.Keys)
        invariant RowsLeft(old(records), list, k, old(db.clock), old(db.jobs), db.jobs)
        invariant QueuesLeft(old(records), list[..k], old(queue.lists), queue.lists)
      {
        NotYetFired(next, old(records), list, k, old(db.clock));
        InsertedNext(list, k, db.Core().hist.Keys);
        NewIsFree(db, list[k].job);
        RowsNext(old(records), list, k, old(db.clock), old(db.jobs), db.jobs);
        QueuesNext(old(records), list, k, old(queue.lists), queue.lists);
        FiredNext(next, old(records), list, k, old(db.clock));
        TakeTurn(list[k]);
      }
      assert list[..|list|] == list;
      forall i | 0 <= i < |list|
        ensures Treated(next, old(records), records, list, i, old(db.clock))
      {
        ListedTreated(next, old(records), list, i, old(db.clock));
      }
      forall id | id in old(records) && !HasId(list, id)
        ensures id in records && records[id] == old(records)[id]
      {
        UnlistedStays(next, old(records), list, id, old(db.clock));
      }
    }
  }

  // ---- how often a schedule fires ----

  lemma {:induction false} TicksSplit(tick: Time -> bool, a: Time, m: Time, b: Time)
    requires a <= m <= b
    ensures Ticks(tick, a, b) == Ticks(tick, a, m) + Ticks(tick, m, b)
    decreases b - m
  {
    if m < b {
      TicksSplit(tick, a, m, b - 1);
    }
  }

  lemma {:induction false} TickCounts(tick: Time -> bool, a: Time, t: Time, b: Time)
    requires a < t <= b && tick(t)
    ensures Ticks(tick, a, b) >= 1
    decreases b - t
  {
    if t < b {
      TickCounts(tick, a, t, b - 1);
    }
  }

  /** `next_run_at` moves strictly past the firing time, so firings strictly increase. */
  lemma LogIncreases(tick: Time -> bool, next: Time -> Time, first: Time, log: seq<Time>, i: nat)
    requires IsNext(tick, next) && LogOk(next, first, log) && i + 1 < |log|
    ensures log[i] < next(log[i]) <= log[i + 1]
  {
    assert log[..i + 1][i] == log[i];
    assert NextAfter(next, first, log[..i + 1]) <= log[i + 1];
  }

  /** Missed ticks coalesce: however many ticks lie between two firings, there is at least one, and
      exactly one job is created for all of them. */
  lemma TickBetween(tick: Time -> bool, next: Time -> Time, first: Time, log: seq<Time>, i: nat)
    requires IsNext(tick, next) && LogOk(next, first, log) && i + 1 < |log|
    ensures Ticks(tick, log[i], log[i + 1]) >= 1
  {
    LogIncreases(tick, next, first, log, i);
    TickCounts(tick, log[i], next(log[i]), log[i + 1]);
  }

  lemma LogOkPrefix(next: Time -> Time, first: Time, log: seq<Time>, n: nat)
    requires LogOk(next, first, log) && n <= |log|
    ensures LogOk(next, first, log[..n])
  {
    assert forall i :: 0 <= i < n ==> log[..n][..i] == log[..i];
  }

  ghost predicate Increasing(log: seq<Time>) {
    forall i, k :: 0 <= i < k < |log| ==> log[i] < log[k]
  }

  ghost predicate RisesAt(log: seq<Time>, i: nat) { i + 1 < |log| ==> log[i] < log[i + 1] }

  lemma {:induction false} Climbs(log: seq<Time>, i: nat, k: nat)
    requires i < k < |log| && forall n: nat :: RisesAt(log, n)
    ensures log[i] < log[k]
    decreases k
  {
    assert RisesAt(log, k - 1);
    if i < k - 1 {
      Climbs(log, i, k - 1);
    }
  }

  lemma LogSorted(tick: Time -> bool, next: Time -> Time, first: Time, log: seq<Time>)
    requires IsNext(tick, next) && LogOk(next, first, log)
    ensures Increasing(log)
  {
    forall n: nat
      ensures RisesAt(log, n)
    {
      if n + 1 < |log| {
        LogIncreases(tick, next, first, log, n);
      }
    }
    forall i, k | 0 <= i < k < |log|
      ensures log[i] < log[k]
    {
      Climbs(log, i, k);
    }
  }

  lemma {:induction false} FiredNone(log: seq<Time>, a: Time, b: Time)
    requires Increasing(log) && (log != [] ==> log[|log| - 1] <= a)
    ensures Fired(log, a, b) == 0
  {
    if log != [] {
      FiredNone(log[..|log| - 1], a, b);
    }
  }

  /** The firings at or before `a`. */
  function UpTo(log: seq<Time>, a: Time): seq<Time> {
    if log == [] || log[|log| - 1] <= a then log else UpTo(log[..|log| - 1], a)
  }

  /** A tick is overdue at `a`: the schedule is waiting for an expander. */
  predicate Overdue(next: Time -> Time, first: Time, log: seq<Time>, a: Time) {
    NextAfter(next, first, UpTo(log, a)) <= a
  }

  /** Firings beyond the last one do not exist. */
  lemma {:induction false} FiredWithin(log: seq<Time>, a: Time, m: Time, b: Time)
    requires Increasing(log) && m <= b && (log != [] ==> log[|log| - 1] <= m)
    ensures Fired(log, a, b) == Fired(log, a, m)
  {
    if log != [] {
      FiredWithin(log[..|log| - 1], a, m, b);
    }
  }

  /** A span whose only firing is the last one of the log. */
  lemma FirstInside(tick: Time -> bool, next: Time -> Time, first: Time, log: seq<Time>, a: Time, b: Time)
    requires IsNext(tick, next) && tick(first) && LogOk(next, first, log) && log != [] && a < log[|log| - 1] <= b
    requires |log| > 1 ==> log[|log| - 2] <= a
    ensures Fired(log, a, b) <= Ticks(tick, a, b) + (if Overdue(next, first, log, a) then 1 else 0)
  {
    var init := log[..|log| - 1];
    LogOkPrefix(next, first, log, |log| - 1);
    LogSorted(tick, next, first, init);
    FiredNone(init, a, b);
    assert UpTo(log, a) == init;
    var due := NextAfter(next, first, init);
    assert due <= log[|log| - 1];
    if due > a {
      TickCounts(tick, a, due, b);
    }
  }

  /** One firing more needs one tick more. */
  lemma OneMoreFiring(tick: Time -> bool, next: Time -> Time, first: Time, log: seq<Time>, a: Time, b: Time)
    requires IsNext(tick, next) && LogOk(next, first, log) && |log| > 1 && a < log[|log| - 2] && log[|log| - 1] <= b
    ensures Fired(log, a, b) == Fired(log[..|log| - 1], a, log[|log| - 2]) + 1
    ensures Ticks(tick, a, b) >= Ticks(tick, a, log[|log| - 2]) + 1
  {
    var n := |log| - 1;
    LogIncreases(tick, next, first, log, n - 1);
    LogOkPrefix(next, first, log, n);
    LogSorted(tick, next, first, log[..n]);
    FiredWithin(log[..n], a, log[n - 1], b);
    TicksSplit(tick, a, log[n - 1], b);
    TickCounts(tick, log[n - 1], next(log[n - 1]), b);
  }

  /** Over any span a schedule creates and records at most as many jobs as the span has ticks, plus one only if
      a tick was already overdue when the span began. */
  lemma {:induction false} FiringsBounded(tick: Time -> bool, next: Time -> Time, first: Time, log: seq<Time>, a: Time, b: Time)
    requires IsNext(tick, next) && tick(first) && LogOk(next, first, log) && a <= b
    ensures Fired(log, a, b) <= Ticks(tick, a, b) + (if Overdue(next, first, log, a) then 1 else 0)
    decreases |log|
  {
    if log != [] {
      var n := |log| - 1;
      LogOkPrefix(next, first, log, n);
      if log[n] <= a {
        LogSorted(tick, next, first, log);
        FiredNone(log, a, b);
      } else if log[n] > b {
        FiringsBounded(tick, next, first, log[..n], a, b);
      } else if n == 0 || log[n - 1] <= a {
        FirstInside(tick, next, first, log, a, b);
      } else {
        FiringsBounded(tick, next, first, log[..n], a, log[n - 1]);
        OneMoreFiring(tick, next, first, log, a, b);
      }
    }
  }

  /** The extra one is needed: whenever a tick is overdue at `a`, whatever the schedule has fired before, the
      expander may fire it at `b` inside a span that has no tick of its own. */
  lemma OverdueFiresOnce(tick: Time -> bool, next: Time -> Time, first: Time, log: seq<Time>, a: Time, b: Time)
    requires IsNext(tick, next) && LogOk(next, first, log) && (log != [] ==> log[|log| - 1] <= a)
    requires Overdue(next, first, log, a) && a < b && Ticks(tick, a, b) == 0
    ensures LogOk(next, first, log + [b]) && Overdue(next, first, log + [b], a)
    ensures Fired(log + [b], a, b) == 1 && Ticks(tick, a, b) < Fired(log + [b], a, b)
  {
    var more := log + [b];
    assert more[..|log|] == log && UpTo(log, a) == log;
    forall i | 0 <= i < |more|
      ensures NextAfter(next, first, more[..i]) <= more[i]
    {
      assert i < |log| ==> more[..i] == log[..i];
    }
    LogSorted(tick, next, first, log);
    FiredNone(log, a, b);
  }
}
