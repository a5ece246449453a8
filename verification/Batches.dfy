/** The lists the scheduler's queries return: they always exist. */
module Batches {
  import opened Types
  import opened Storage
  import opened Cluster

  lemma {:induction false} Smallest(db: Db, ids: set<Id>) returns (m: Id)
    requires ids != {} && ids <= db.jobs.Keys
    ensures m in ids && forall id :: id in ids ==> NotAfter(ItemOf(m, db.jobs[m]), ItemOf(id, db.jobs[id]))
    decreases ids
  {
    m :| m in ids;
    if ids != {m} {
      var k := Smallest(db, ids - {m});
      assert forall id :: id in ids ==> id == m || id in ids - {m};
      if NotAfter(ItemOf(k, db.jobs[k]), ItemOf(m, db.jobs[m])) {
        m := k;
      }
    } else {
      assert forall id :: id in ids ==> id == m;
    }
  }

  /** Rows of `ids`, each once and in order, up to `n` of the smallest. */
  ghost predicate IsPrefix(db: Db, ids: set<Id>, n: nat, items: seq<Item>)
    requires ids <= db.jobs.Keys
  {
    && |items| <= n
    && (forall i :: 0 <= i < |items| ==>
          items[i].id in ids && items[i] == ItemOf(items[i].id, db.jobs[items[i].id]))
    && (forall i, k :: 0 <= i < k < |items| ==> items[i].id != items[k].id)
    && (forall i, k :: 0 <= i < k < |items| ==> NotAfter(items[i], items[k]))
    && (forall id :: id in ids && !Listed(items, id) ==>
          |items| == n && forall i :: 0 <= i < |items| ==> NotAfter(items[i], ItemOf(id, db.jobs[id])))
  }

  lemma ListedInFront(item: Item, rest: seq<Item>, id: Id)
    ensures Listed([item] + rest, id) <==> item.id == id || Listed(rest, id)
  {
    var items := [item] + rest;
    assert items[0] == item && items[1..] == rest;
    if i :| 0 <= i < |rest| && rest[i].id == id {
      assert items[i + 1].id == id;
    }
    if i :| 0 < i < |items| && items[i].id == id {
      assert rest[i - 1].id == id;
    }
  }

  /** The rows of `ids` that every ordered list puts before `fav`. */
  ghost function Before(db: Db, ids: set<Id>, fav: Id): set<Id>
    requires ids <= db.jobs.Keys && fav in db.jobs
  {
    set x | x in ids && !NotAfter(ItemOf(fav, db.jobs[fav]), ItemOf(x, db.jobs[x]))
  }

  /** The smallest row, which is `fav` if nothing comes before it. */
  lemma SmallestFor(db: Db, ids: set<Id>, fav: Id) returns (m: Id)
    requires ids != {} && ids <= db.jobs.Keys && fav in db.jobs
    ensures m in ids && forall id :: id in ids ==> NotAfter(ItemOf(m, db.jobs[m]), ItemOf(id, db.jobs[id]))
    ensures fav in ids && m != fav ==> m in Before(db, ids, fav)
  {
    m := Smallest(db, ids);
    if fav in ids && Before(db, ids, fav) == {} {
      forall id | id in ids
        ensures NotAfter(ItemOf(fav, db.jobs[fav]), ItemOf(id, db.jobs[id]))
      {
        assert id !in Before(db, ids, fav);
      }
      m := fav;
    } else if fav in ids {
      var x :| x in Before(db, ids, fav);
      assert NotAfter(ItemOf(m, db.jobs[m]), ItemOf(x, db.jobs[x]));
    }
  }

  lemma FrontShrinks(db: Db, ids: set<Id>, fav: Id, m: Id)
    requires ids <= db.jobs.Keys && fav in db.jobs && m in Before(db, ids, fav)
    ensures |Before(db, ids - {m}, fav)| == |Before(db, ids, fav)| - 1
  {
    assert Before(db, ids - {m}, fav) == Before(db, ids, fav) - {m};
  }

  lemma {:induction false} TakeSmallest(db: Db, ids: set<Id>, n: nat, fav: Id) returns (items: seq<Item>)
    requires ids <= db.jobs.Keys && fav in db.jobs
    ensures IsPrefix(db, ids, n, items)
    ensures fav in ids && |Before(db, ids, fav)| < n ==> Listed(items, fav)
    decreases n
  {
    items := [];
    if n > 0 && ids != {} {
      var m := SmallestFor(db, ids, fav);
      var rest := TakeSmallest(db, ids - {m}, n - 1, fav);
      items := [ItemOf(m, db.jobs[m])] + rest;
      ListedInFront(items[0], rest, fav);
      if fav in ids && m != fav {
        FrontShrinks(db, ids, fav, m);
      }
      PrefixGrows(db, ids, n, m, rest);
    }
  }

  lemma PrefixGrows(db: Db, ids: set<Id>, n: nat, m: Id, rest: seq<Item>)
    requires n > 0 && ids <= db.jobs.Keys && m in ids && IsPrefix(db, ids - {m}, n - 1, rest)
    requires forall id :: id in ids ==> NotAfter(ItemOf(m, db.jobs[m]), ItemOf(id, db.jobs[id]))
    ensures IsPrefix(db, ids, n, [ItemOf(m, db.jobs[m])] + rest)
  {
    var items := [ItemOf(m, db.jobs[m])] + rest;
    forall id | id in ids && !Listed(items, id)
      ensures |items| == n && forall i :: 0 <= i < |items| ==> NotAfter(items[i], ItemOf(id, db.jobs[id]))
    {
      ListedInFront(items[0], rest, id);
      assert id in ids - {m} && !Listed(rest, id);
    }
  }

  lemma {:induction false} TakeAll(db: Db, ids: set<Id>) returns (items: seq<Item>)
    requires ids <= db.jobs.Keys
    ensures forall i :: 0 <= i < |items| ==> items[i].id in ids && items[i] == ItemOf(items[i].id, db.jobs[items[i].id])
    ensures forall i, k :: 0 <= i < k < |items| ==> items[i].id != items[k].id
    ensures forall id :: id in ids ==> Listed(items, id)
    decreases ids
  {
    items := [];
    if ids != {} {
      var m :| m in ids;
      var rest := TakeAll(db, ids - {m});
      items := [ItemOf(m, db.jobs[m])] + rest;
      forall id | id in ids
        ensures Listed(items, id)
      {
        ListedInFront(items[0], rest, id);
        assert id == m || id in ids - {m};
      }
    }
  }

  ghost function DueSet(db: Db, kind: Kind, now: Time): set<Id> {
    set x | x in db.jobs && Due(kind, db.jobs[x], now)
  }

  /** Every query has a result; among rows that tie, it may be one that lists a given due row unless a
      whole batch of due rows comes strictly before it. */
  lemma BatchFor(db: Db, kind: Kind, now: Time, fav: Id) returns (items: seq<Item>)
    requires fav in db.jobs
    ensures IsBatch(db, kind, now, items)
    ensures Due(kind, db.jobs[fav], now) && |Before(db, DueSet(db, kind, now), fav)| < BATCH ==> Listed(items, fav)
  {
    var due := DueSet(db, kind, now);
    if kind.StaleReap? {
      items := TakeAll(db, due);
    } else {
      items := TakeSmallest(db, due, BATCH, fav);
    }
  }

  lemma SomeBatch(db: Db, kind: Kind, now: Time) returns (items: seq<Item>)
    ensures IsBatch(db, kind, now, items)
  {
    if db.jobs == map[] {
      items := [];
    } else {
      var fav :| fav in db.jobs;
      items := BatchFor(db, kind, now, fav);
    }
  }

  // ---- what the lists hold, in terms of the rows ----

  /** A row that a scheduler query asks for at `now`: a scheduled or failed one whose time has come, a pending one
      whose time came a minute ago, one in flight past its deadline. */
  predicate Wanted(kind: Kind, j: Job, now: Time) {
    || (kind == DuePoll && j.state == Scheduled && j.runAt <= now)
    || (kind == RetryPoll && j.state == Failed && j.runAt <= now)
    || (kind == Reconcile && j.state == Pending && j.runAt <= now - 60000)
    || (kind == StaleReap && j.state in {Claimed, Running} && j.deadline.Some? && j.deadline.value < now)
  }

  /** Nothing else is listed, no row twice, and each with its tenant, priority and `run_at`. */
  lemma ListedIsWanted(db: Db, kind: Kind, now: Time, items: seq<Item>, i: nat, k: nat)
    requires IsBatch(db, kind, now, items) && i < |items| && k < |items|
    ensures items[i].id in db.jobs && Wanted(kind, db.jobs[items[i].id], now)
    ensures var j := db.jobs[items[i].id];
            items[i].tenant == j.tenant && items[i].priority == j.priority && items[i].runAt == j.runAt
    ensures i != k ==> items[i].id != items[k].id
    ensures i < k && kind != StaleReap ==>
              items[i].priority < items[k].priority
              || (items[i].priority == items[k].priority && items[i].runAt <= items[k].runAt)
  {
    if k < i {
      assert items[k].id != items[i].id;
    }
  }

  /** A row that is wanted is listed, or 500 rows are, none of them after it by priority and then `run_at`; every
      stale claim is listed. */
  lemma WantedIsListed(db: Db, kind: Kind, now: Time, items: seq<Item>, id: Id)
    requires IsBatch(db, kind, now, items) && id in db.jobs && Wanted(kind, db.jobs[id], now)
    ensures (exists i :: 0 <= i < |items| && items[i].id == id)
            || (&& kind != StaleReap && |items| == 500
                && forall i :: 0 <= i < |items| ==>
                     items[i].priority < db.jobs[id].priority
                     || (items[i].priority == db.jobs[id].priority && items[i].runAt <= db.jobs[id].runAt))
  {
    if Listed(items, id) {
      var i :| 0 <= i < |items| && items[i].id == id;
    }
  }
}
