/** The loops of `internal/scheduler/scheduler.go` over the lists they read, run without interference
    or errors, and how repeated passes drain a backlog. */
module Scheduler {
  import opened Types
  import opened Storage
  import opened Queue
  import opened Store
  import opened Cluster
  import opened Batches
  import opened NoStuckJob
  import L = Ledger

  /** The database half of one iteration. */
  function AfterOne(db: Db, kind: Kind, now: Time, id: Id): Db {
    match kind
    case DuePoll => AfterPromoteScheduled(db, id)
    case RetryPoll => AfterPromoteFailed(db, id, now)
    case StaleReap => AfterRequeue(db, id, now)
    case Reconcile => db
  }

  function AfterItems(db: Db, kind: Kind, now: Time, items: seq<Item>): Db {
    if items == [] then db
    else AfterOne(AfterItems(db, kind, now, items[..|items| - 1]), kind, now, items[|items| - 1].id)
  }

  /** Redis after the pass: every listed id is pushed, except those the reaper found out of attempts. */
  function ListsAfter(db: Db, l: Lists, kind: Kind, now: Time, items: seq<Item>): Lists {
    if items == [] then l
    else
      var init, item := items[..|items| - 1], items[|items| - 1];
      var before, m := AfterItems(db, kind, now, init), ListsAfter(db, l, kind, now, init);
      if item.id in before.jobs && !Pushes(kind, before.jobs[item.id], now) then m
      else AfterPush(m, ItemKey(item), Some(item.id))
  }

  class Leader {
    const db: Postgres
    const queue: Client

    constructor (db: Postgres, queue: Client)
      ensures this.db == db && this.queue == queue
    {
      this.db, this.queue := db, queue;
    }

    method PollScheduledJobs(items: seq<Item>)
      requires db.Valid()
      modifies db, queue
      ensures db.Valid() && old(db.past) <= db.past && db.clock == old(db.clock)
      ensures db.Value() == AfterItems(old(db.Value()), DuePoll, db.clock, items)
      ensures queue.lists == ListsAfter(old(db.Value()), old(queue.lists), DuePoll, db.clock, items)
    {
      for i := 0 to |items|
        invariant db.Valid() && old(db.past) <= db.past && db.clock == old(db.clock)
        invariant db.Value() == AfterItems(old(db.Value()), DuePoll, db.clock, items[..i])
        invariant queue.lists == ListsAfter(old(db.Value()), old(queue.lists), DuePoll, db.clock, items[..i])
      {
        assert items[..i + 1][..i] == items[..i];
        ghost var past, steps := db.past, db.steps;
        db.PromoteScheduledToPending(items[i].id);
        LastStep(past, steps, db.past, db.steps, L.PromoteScheduled(items[i].id));
        queue.Enqueue(items[i].tenant, items[i].id, items[i].priority);
      }
      assert items[..|items|] == items;
    }

    method PollFailedJobs(items: seq<Item>)
      requires db.Valid()
      modifies db, queue
      ensures db.Valid() && old(db.past) <= db.past && db.clock == old(db.clock)
      ensures db.Value() == AfterItems(old(db.Value()), RetryPoll, db.clock, items)
      ensures queue.lists == ListsAfter(old(db.Value()), old(queue.lists), RetryPoll, db.clock, items)
    {
      for i := 0 to |items|
        invariant db.Valid() && old(db.past) <= db.past && db.clock == old(db.clock)
        invariant db.Value() == AfterItems(old(db.Value()), RetryPoll, db.clock, items[..i])
        invariant queue.lists == ListsAfter(old(db.Value()), old(queue.lists), RetryPoll, db.clock, items[..i])
      {
        assert items[..i + 1][..i] == items[..i];
        ghost var past, steps := db.past, db.steps;
        db.PromoteFailedToPending(items[i].id);
        LastStep(past, steps, db.past, db.steps, L.PromoteFailed(items[i].id));
        queue.Enqueue(items[i].tenant, items[i].id, items[i].priority);
      }
      assert items[..|items|] == items;
    }

    method ReapStaleClaims(items: seq<Item>)
      requires db.Valid()
      modifies db, queue
      ensures db.Valid() && old(db.past) <= db.past && db.clock == old(db.clock)
      ensures db.Value() == AfterItems(old(db.Value()), StaleReap, db.clock, items)
      ensures queue.lists == ListsAfter(old(db.Value()), old(queue.lists), StaleReap, db.clock, items)
    {
      for i := 0 to |items|
        invariant db.Valid() && old(db.past) <= db.past && db.clock == old(db.clock)
        invariant db.Value() == AfterItems(old(db.Value()), StaleReap, db.clock, items[..i])
        invariant queue.lists == ListsAfter(old(db.Value()), old(queue.lists), StaleReap, db.clock, items[..i])
      {
        assert items[..i + 1][..i] == items[..i];
        ghost var past, steps := db.past, db.steps;
        var dead := db.RequeueStaleJob(items[i].id);
        LastStep(past, steps, db.past, db.steps, L.Reap(items[i].id));
        if !dead {
          queue.Enqueue(items[i].tenant, items[i].id, items[i].priority);
        }
      }
      assert items[..|items|] == items;
    }

    method ReconcilePending(items: seq<Item>)
      modifies queue
      ensures queue.lists == ListsAfter(db.Value(), old(queue.lists), Reconcile, db.clock, items)
    {
      for i := 0 to |items|
        invariant queue.lists == ListsAfter(db.Value(), old(queue.lists), Reconcile, db.clock, items[..i])
      {
        assert items[..i + 1][..i] == items[..i];
        queue.Enqueue(items[i].tenant, items[i].id, items[i].priority);
      }
      assert items[..|items|] == items;
    }
  }

  // ---- draining a backlog ----

  lemma ListedAtEnd(items: seq<Item>, id: Id)
    requires items != []
    ensures Listed(items, id) <==> items[|items| - 1].id == id || Listed(items[..|items| - 1], id)
  {
    var init := items[..|items| - 1];
    if i :| 0 <= i < |init| && init[i].id == id {
      assert items[i].id == id;
    }
    if i :| 0 <= i < |items| && items[i].id == id && i < |init| {
      assert init[i].id == id;
    }
  }

  /** A pass treats each listed row once and no other row. */
  lemma {:induction false} ItemsRows(db: Db, kind: Kind, now: Time, items: seq<Item>, y: Id)
    requires DistinctItems(items)
    ensures var d := AfterItems(db, kind, now, items);
            && (y in d.jobs <==> y in db.jobs)
            && (y in db.jobs ==> d.jobs[y] == if Listed(items, y) then Acted(kind, db.jobs[y], now) else db.jobs[y])
  {
    if items != [] {
      ItemsRows(db, kind, now, items[..|items| - 1], y);
      ListedAtEnd(items, y);
    }
  }

  /** What a pass pushes to `key`, in its order: every listed id that belongs there, except those the reaper
      found out of attempts. */
  function Sent(db: Db, kind: Kind, now: Time, items: seq<Item>, key: Key): seq<Entry> {
    if items == [] then []
    else
      var item, sent := items[|items| - 1], Sent(db, kind, now, items[..|items| - 1], key);
      if ItemKey(item) == key && (item.id in db.jobs ==> Pushes(kind, db.jobs[item.id], now)) then sent + [Some(item.id)]
      else sent
  }

  /** Whether the last item is pushed does not depend on the items before it. */
  lemma SamePush(db: Db, kind: Kind, now: Time, items: seq<Item>)
    requires DistinctItems(items) && items != []
    ensures var before, id := AfterItems(db, kind, now, items[..|items| - 1]), items[|items| - 1].id;
            (id in before.jobs ==> Pushes(kind, before.jobs[id], now)) <==> (id in db.jobs ==> Pushes(kind, db.jobs[id], now))
  {
    var init, id := items[..|items| - 1], items[|items| - 1].id;
    ItemsRows(db, kind, now, init, id);
    assert !Listed(init, id);
  }

  /** A pass leaves every queue list as it was, with what it pushed there in front, last first. */
  lemma {:induction false} ListsExact(db: Db, l: Lists, kind: Kind, now: Time, items: seq<Item>, key: Key)
    requires DistinctItems(items)
    ensures Queued(ListsAfter(db, l, kind, now, items), key) == Reverse(Sent(db, kind, now, items, key)) + Queued(l, key)
    ensures ListsAfter(db, l, kind, now, items).processing == l.processing
  {
    if items == [] {
      assert Reverse([]) + Queued(l, key) == Queued(l, key);
    } else {
      var init, item := items[..|items| - 1], items[|items| - 1];
      ListsExact(db, l, kind, now, init, key);
      SamePush(db, kind, now, items);
      PushedInFront(ListsAfter(db, l, kind, now, init), ItemKey(item), Some(item.id), key,
                    Sent(db, kind, now, init, key), Queued(l, key));
    }
  }

  lemma IdsListed(items: seq<Item>, id: Id)
    ensures id in IdsOf(items) <==> Listed(items, id)
  {
  }

  lemma PassRemovesItsList(db: Db, kind: Kind, now: Time, items: seq<Item>)
    requires IsBatch(db, kind, now, items) && (kind.DuePoll? || kind.RetryPoll?)
    ensures DueSet(AfterItems(db, kind, now, items), kind, now) == DueSet(db, kind, now) - IdsOf(items)
  {
    var d := AfterItems(db, kind, now, items);
    forall y
      ensures y in DueSet(d, kind, now) <==> y in DueSet(db, kind, now) - IdsOf(items)
    {
      ItemsRows(db, kind, now, items, y);
      IdsListed(items, y);
    }
  }

  /** A list is as long as the backlog, up to the batch size. */
  lemma ListLength(db: Db, kind: Kind, now: Time, items: seq<Item>)
    requires IsBatch(db, kind, now, items) && (kind.DuePoll? || kind.RetryPoll?)
    ensures |items| == Min(BATCH, |DueSet(db, kind, now)|) && IdsOf(items) <= DueSet(db, kind, now)
  {
    var due := DueSet(db, kind, now);
    DistinctCount(items);
    assert IdsOf(items) <= due;
    Smaller(IdsOf(items), due);
    if |items| < BATCH {
      forall y | y in due
        ensures y in IdsOf(items)
      {
        assert Listed(items, y);
      }
      assert IdsOf(items) == due;
    }
  }

  /** A list and the time at which it was read and worked through. */
  datatype Read = Read(at: Time, items: seq<Item>)

  /** Successive passes, each reading its list after the one before, as time goes on without any row falling due
      since `now`. */
  ghost predicate Chain(db: Db, kind: Kind, now: Time, rounds: seq<Read>)
    decreases |rounds|
  {
    rounds != [] ==>
      && now <= rounds[0].at && DueSet(db, kind, rounds[0].at) == DueSet(db, kind, now)
      && IsBatch(db, kind, rounds[0].at, rounds[0].items)
      && Chain(AfterItems(db, kind, rounds[0].at, rounds[0].items), kind, rounds[0].at, rounds[1..])
  }

  function AfterReads(db: Db, kind: Kind, rounds: seq<Read>): Db
    decreases |rounds|
  {
    if rounds == [] then db else AfterReads(AfterItems(db, kind, rounds[0].at, rounds[0].items), kind, rounds[1..])
  }

  function LastAt(now: Time, rounds: seq<Read>): Time {
    if rounds == [] then now else rounds[|rounds| - 1].at
  }

  function Flatten(rounds: seq<Read>): seq<Item> {
    if rounds == [] then [] else rounds[0].items + Flatten(rounds[1..])
  }

  /** The scheduled, or for retries the failed, jobs whose `run_at` has come. */
  ghost function Backlog(db: Db, kind: Kind, now: Time): set<Id> {
    set x | x in db.jobs && db.jobs[x].state == (if kind == DuePoll then Scheduled else Failed) && db.jobs[x].runAt <= now
  }

  lemma BacklogIsDue(db: Db, kind: Kind, now: Time)
    requires kind.DuePoll? || kind.RetryPoll?
    ensures Backlog(db, kind, now) == DueSet(db, kind, now)
  {
  }

  lemma Without(due: set<Id>, ids: set<Id>)
    requires ids <= due
    ensures |due - ids| == |due| - |ids|
  {
    assert due == (due - ids) + ids;
  }

  /** One pass. */
  lemma PassDrains(db: Db, kind: Kind, at: Time, items: seq<Item>)
    requires (kind.DuePoll? || kind.RetryPoll?) && IsBatch(db, kind, at, items)
    ensures |DueSet(AfterItems(db, kind, at, items), kind, at)| == Max(0, |DueSet(db, kind, at)| - 500)
  {
    ListLength(db, kind, at, items);
    PassRemovesItsList(db, kind, at, items);
    DistinctCount(items);
    Without(DueSet(db, kind, at), IdsOf(items));
  }

  lemma {:induction false} PassesDrainDue(db: Db, kind: Kind, now: Time, rounds: seq<Read>)
    requires (kind.DuePoll? || kind.RetryPoll?) && Chain(db, kind, now, rounds)
    ensures |DueSet(AfterReads(db, kind, rounds), kind, LastAt(now, rounds))|
            == Max(0, |DueSet(db, kind, now)| - 500 * |rounds|)
    decreases |rounds|
  {
    if rounds != [] {
      var at, items := rounds[0].at, rounds[0].items;
      PassDrains(db, kind, at, items);
      PassesDrainDue(AfterItems(db, kind, at, items), kind, at, rounds[1..]);
    }
  }

  /** With k jobs due and none falling due meanwhile, n passes leave k - 500 n of them: the backlog is gone
      exactly when n is at least k / 500, rounded up. */
  lemma PassesDrain(db: Db, kind: Kind, now: Time, rounds: seq<Read>)
    requires (kind.DuePoll? || kind.RetryPoll?) && Chain(db, kind, now, rounds)
    ensures |Backlog(AfterReads(db, kind, rounds), kind, LastAt(now, rounds))|
            == Max(0, |Backlog(db, kind, now)| - 500 * |rounds|)
  {
    PassesDrainDue(db, kind, now, rounds);
    BacklogIsDue(db, kind, now);
    BacklogIsDue(AfterReads(db, kind, rounds), kind, LastAt(now, rounds));
  }

  /** Every id of every list was due from the start, and listed with the row it had then. */
  lemma {:induction false} ListsAreDue(db: Db, kind: Kind, now: Time, rounds: seq<Read>, i: nat)
    requires (kind.DuePoll? || kind.RetryPoll?) && Chain(db, kind, now, rounds) && i < |Flatten(rounds)|
    ensures var item := Flatten(rounds)[i];
            item.id in DueSet(db, kind, now) && item == ItemOf(item.id, db.jobs[item.id])
    decreases |rounds|
  {
    var at, items := rounds[0].at, rounds[0].items;
    if i >= |items| {
      ListsAreDue(AfterItems(db, kind, at, items), kind, at, rounds[1..], i - |items|);
      PassRemovesItsList(db, kind, at, items);
      var item := Flatten(rounds)[i];
      assert item == Flatten(rounds[1..])[i - |items|];
      ItemsRows(db, kind, at, items, item.id);
      IdsListed(items, item.id);
    } else {
      assert Flatten(rounds)[i].id in DueSet(db, kind, at);
    }
  }

  /** A row that is due and still due after the pass comes after what the pass listed. */
  lemma ListedFirst(db: Db, kind: Kind, at: Time, items: seq<Item>, i: nat, item: Item)
    requires (kind.DuePoll? || kind.RetryPoll?) && IsBatch(db, kind, at, items) && i < |items|
    requires item.id in DueSet(db, kind, at) && item == ItemOf(item.id, db.jobs[item.id])
    requires item.id in DueSet(AfterItems(db, kind, at, items), kind, at)
    ensures items[i].id != item.id && NotAfter(items[i], item)
  {
    PassRemovesItsList(db, kind, at, items);
    IdsListed(items, item.id);
    assert items[i].id in IdsOf(items);
  }

  /** Over all passes jobs are promoted in (priority, run_at) order and each at most once. */
  lemma {:induction false} PassesInOrder(db: Db, kind: Kind, now: Time, rounds: seq<Read>, i: nat, k: nat)
    requires (kind.DuePoll? || kind.RetryPoll?) && Chain(db, kind, now, rounds) && i < k < |Flatten(rounds)|
    ensures var a, b := Flatten(rounds)[i], Flatten(rounds)[k];
            a.id != b.id && (a.priority < b.priority || (a.priority == b.priority && a.runAt <= b.runAt))
    decreases |rounds|
  {
    var at, items := rounds[0].at, rounds[0].items;
    var n := |items|;
    if k >= n {
      var d := AfterItems(db, kind, at, items);
      var item := Flatten(rounds)[k];
      assert item == Flatten(rounds[1..])[k - n];
      if i >= n {
        assert Flatten(rounds)[i] == Flatten(rounds[1..])[i - n];
        PassesInOrder(d, kind, at, rounds[1..], i - n, k - n);
      } else {
        ListsAreDue(db, kind, now, rounds, k);
        ListsAreDue(d, kind, at, rounds[1..], k - n);
        ListedFirst(db, kind, at, items, i, item);
      }
    }
  }
}
