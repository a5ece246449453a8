/** `internal/queue/queue.go`: tenant-scoped priority lists and per-worker processing lists in Redis.
    An entry is a string; `None` is one that does not parse as a UUID. */
module Queue {
  import opened Types
  import opened Shuffle

  datatype Bucket = High | Normal | Low

  /** `bucketForPriority`, most urgent bucket first: "queue:1", "queue:5", "queue:10". */
  function BucketFor(priority: int): Bucket {
    if priority <= 1 then High else if priority <= 5 then Normal else Low
  }

  datatype Key = Key(tenant: Id, bucket: Bucket)

  type Entry = Option<Id>

  datatype Lists = Lists(queued: map<Key, seq<Entry>>, processing: map<Id, seq<Entry>>)

  /** A missing key is an empty list. */
  function At<K>(m: map<K, seq<Entry>>, k: K): seq<Entry> {
    if k in m then m[k] else []
  }

  function Queued(l: Lists, key: Key): seq<Entry> { At(l.queued, key) }

  function Held(l: Lists, worker: Id): seq<Entry> { At(l.processing, worker) }

  // ---- the Redis commands ----

  /** LPUSH */
  function AfterPush(l: Lists, key: Key, e: Entry): Lists {
    l.(queued := l.queued[key := [e] + Queued(l, key)])
  }

  /** LMOVE key processing RIGHT LEFT */
  function AfterMove(l: Lists, key: Key, worker: Id): Lists {
    var q := Queued(l, key);
    if q == [] then l else
      Lists(l.queued[key := q[..|q| - 1]], l.processing[worker := [q[|q| - 1]] + Held(l, worker)])
  }

  function Except(s: seq<Entry>, e: Entry): seq<Entry> {
    if s == [] then [] else (if s[0] == e then [] else [s[0]]) + Except(s[1..], e)
  }

  /** LREM processing 0 */
  function AfterRemove(l: Lists, worker: Id, id: Id): Lists {
    l.(processing := l.processing[worker := Except(Held(l, worker), Some(id))])
  }

  /** DEL */
  function AfterDelete(l: Lists, key: Key): Lists {
    l.(queued := l.queued[key := []])
  }

  // ---- one poll cycle ----

  const BUCKETS: seq<Bucket> := [High, Normal, Low]

  /** The keys of one cycle, tenant by tenant, most urgent bucket first. */
  function Visits(order: seq<Id>): (keys: seq<Key>)
    ensures |keys| == 3 * |order|
    ensures forall a, b :: 0 <= a < |order| && 0 <= b < 3 ==> keys[3 * a + b] == Key(order[a], BUCKETS[b])
  {
    if order == [] then []
    else
      var n := |order| - 1;
      Visits(order[..n]) + [Key(order[n], High), Key(order[n], Normal), Key(order[n], Low)]
  }

  datatype Polled = Polled(found: Option<Id>, lists: Lists)

  /** Tries the keys in turn; an entry that does not parse is moved away and the cycle goes on. */
  function Poll(l: Lists, keys: seq<Key>, worker: Id): Polled
    decreases |keys|
  {
    if keys == [] then Polled(None, l)
    else
      var q := Queued(l, keys[0]);
      if q == [] then Poll(l, keys[1..], worker)
      else
        var e := q[|q| - 1];
        if e.Some? then Polled(e, AfterMove(l, keys[0], worker))
        else Poll(AfterMove(l, keys[0], worker), keys[1..], worker)
  }

  /** A visit to `key` would return a job: its oldest entry parses. */
  predicate Parses(l: Lists, key: Key) {
    var q := Queued(l, key);
    q != [] && q[|q| - 1].Some?
  }

  function Oldest(l: Lists, key: Key): Option<Id>
    requires Parses(l, key)
  {
    Queued(l, key)[|Queued(l, key)| - 1]
  }

  /** All but the `n` oldest entries. */
  function Drop(q: seq<Entry>, n: nat): seq<Entry> { if n < |q| then q[..|q| - n] else [] }

  ghost predicate Distinct<K>(s: seq<K>) {
    forall i, k :: 0 <= i < k < |s| ==> s[i] != s[k]
  }

  lemma MoveDrops(l: Lists, key: Key, worker: Id, k: Key)
    ensures Queued(AfterMove(l, key, worker), k) == if k == key then Drop(Queued(l, k), 1) else Queued(l, k)
  {
  }

  lemma FrontKeys(keys: seq<Key>, n: nat, key: Key)
    requires keys != [] && n <= |keys|
    ensures n > 0 ==> (key in keys[..Min(n + 1, |keys|)] <==> key == keys[0] || key in keys[1..][..Min(n, |keys| - 1)])
    ensures n == 0 ==> (key in keys[..Min(n + 1, |keys|)] <==> key == keys[0])
  {
    if n > 0 {
      assert keys[..Min(n + 1, |keys|)] == [keys[0]] + keys[1..][..Min(n, |keys| - 1)];
    } else {
      assert keys[..Min(n + 1, |keys|)] == [keys[0]];
    }
  }

  /** The first `n` keys have no job to give, and key `n`, if there is one, has. */
  ghost predicate FirstAt(l: Lists, keys: seq<Key>, n: nat) {
    n <= |keys| && (forall m :: 0 <= m < n ==> !Parses(l, keys[m])) && (n < |keys| ==> Parses(l, keys[n]))
  }

  /** Passing over the first key leaves the others as they were. */
  lemma PassOver(l: Lists, keys: seq<Key>, worker: Id, n: nat)
    requires Distinct(keys) && n > 0 && FirstAt(l, keys, n)
    ensures Distinct(keys[1..]) && FirstAt(AfterMove(l, keys[0], worker), keys[1..], n - 1)
    ensures n < |keys| ==> Oldest(AfterMove(l, keys[0], worker), keys[n]) == Oldest(l, keys[n])
    ensures Poll(l, keys, worker) == Poll(AfterMove(l, keys[0], worker), keys[1..], worker)
  {
    var l' := AfterMove(l, keys[0], worker);
    assert !Parses(l, keys[0]);
    forall m | 0 < m < |keys|
      ensures Queued(l', keys[m]) == Queued(l, keys[m])
    {
      MoveDrops(l, keys[0], worker, keys[m]);
    }
  }

  /** Exactly what an uninterrupted cycle does: it returns the oldest entry of the first key whose oldest
      entry parses, that key and those before it lose their oldest entry, and no other list changes. */
  lemma {:induction false} PollExact(l: Lists, keys: seq<Key>, worker: Id, n: nat, key: Key)
    requires Distinct(keys) && FirstAt(l, keys, n)
    ensures Poll(l, keys, worker).found == if n < |keys| then Oldest(l, keys[n]) else None
    ensures Queued(Poll(l, keys, worker).lists, key)
            == if key in keys[..Min(n + 1, |keys|)] then Drop(Queued(l, key), 1) else Queued(l, key)
    decreases n
  {
    if keys != [] {
      FrontKeys(keys, n, key);
      MoveDrops(l, keys[0], worker, key);
      if n > 0 {
        PassOver(l, keys, worker, n);
        PollExact(AfterMove(l, keys[0], worker), keys[1..], worker, n - 1, key);
      }
    }
  }

  /** The first key, if any, whose oldest entry parses. */
  lemma FirstParsing(l: Lists, keys: seq<Key>) returns (n: nat)
    ensures FirstAt(l, keys, n)
  {
    n := 0;
    while n < |keys| && !Parses(l, keys[n])
      invariant n <= |keys| && forall m :: 0 <= m < n ==> !Parses(l, keys[m])
    {
      n := n + 1;
    }
  }

  lemma VisitAt(order: seq<Id>, m: nat)
    requires m < 3 * |order|
    ensures Visits(order)[m] == Key(order[m / 3], BUCKETS[m % 3])
  {
    assert m == 3 * (m / 3) + m % 3;
    assert Visits(order)[3 * (m / 3) + m % 3] == Key(order[m / 3], BUCKETS[m % 3]);
  }

  lemma VisitsDistinct(order: seq<Id>)
    requires Distinct(order)
    ensures Distinct(Visits(order))
  {
    forall i, k | 0 <= i < k < |Visits(order)|
      ensures Visits(order)[i] != Visits(order)[k]
    {
      VisitAt(order, i);
      VisitAt(order, k);
    }
  }

  lemma VisitsTenants(order: seq<Id>, key: Key)
    ensures key in Visits(order) <==> key.tenant in order
  {
    if key in Visits(order) {
      var m :| 0 <= m < |Visits(order)| && Visits(order)[m] == key;
      VisitAt(order, m);
    }
    if key.tenant in order {
      var a :| 0 <= a < |order| && order[a] == key.tenant;
      var b := if key.bucket.High? then 0 else if key.bucket.Normal? then 1 else 2;
      assert Visits(order)[3 * a + b] == Key(order[a], BUCKETS[b]);
    }
  }

  /** A cycle over `order` is served by bucket `b` of tenant `a`: the first visited key whose oldest entry
      parses, tenants in order and each tenant's buckets from the most urgent down. */
  ghost predicate Serves(l: Lists, order: seq<Id>, a: nat, b: nat)
    requires a < |order| && b < 3
  {
    && Parses(l, Key(order[a], BUCKETS[b]))
    && (forall y :: 0 <= y < b ==> !Parses(l, Key(order[a], BUCKETS[y])))
    && (forall x, y :: 0 <= x < a && 0 <= y < 3 ==> !Parses(l, Key(order[x], BUCKETS[y])))
  }

  /** The key that serves a cycle is the one the poll returns the oldest entry of. */
  lemma CycleServes(l: Lists, order: seq<Id>, worker: Id, a: nat, b: nat)
    requires Distinct(order) && a < |order| && b < 3 && Serves(l, order, a, b)
    ensures Poll(l, Visits(order), worker).found == Oldest(l, Key(order[a], BUCKETS[b]))
  {
    var keys := Visits(order);
    VisitsDistinct(order);
    assert keys[3 * a + b] == Key(order[a], BUCKETS[b]);
    forall m | 0 <= m < 3 * a + b
      ensures !Parses(l, keys[m])
    {
      VisitAt(order, m);
    }
    PollExact(l, keys, worker, 3 * a + b, keys[3 * a + b]);
  }

  ghost predicate AnyParses(l: Lists, ids: seq<Id>) {
    exists key: Key {:trigger Parses(l, key)} :: key.tenant in ids && Parses(l, key)
  }

  /** A cycle returns a job iff some listed tenant has a list whose oldest entry parses; if it returns
      none, exactly one entry is gone from the front of every non-empty list it visited. */
  lemma CycleFinds(l: Lists, order: seq<Id>, worker: Id, key: Key)
    requires Distinct(order)
    ensures Poll(l, Visits(order), worker).found.Some? <==> AnyParses(l, order)
    ensures Poll(l, Visits(order), worker).found.None? ==>
              Queued(Poll(l, Visits(order), worker).lists, key)
              == if key.tenant in order then Drop(Queued(l, key), 1) else Queued(l, key)
  {
    var keys := Visits(order);
    VisitsDistinct(order);
    var n := FirstParsing(l, keys);
    PollExact(l, keys, worker, n, key);
    VisitsTenants(order, key);
    assert n == |keys| ==> keys[..Min(n + 1, |keys|)] == keys;
    if n < |keys| {
      VisitsTenants(order, keys[n]);
    } else if AnyParses(l, order) {
      var k: Key :| k.tenant in order && Parses(l, k);
      VisitsTenants(order, k);
    }
  }

  // ---- urgency ----

  /** Priorities up to 1, from 2 to 5 and above 5 share a list each. */
  lemma BucketsSplit(p: int, q: int)
    ensures BucketFor(p) == BucketFor(q) <==> ((p <= 1 <==> q <= 1) && (p <= 5 <==> q <= 5))
  {
  }

  /** Where the list of a priority comes in a tenant's turn. */
  lemma BucketPlace(p: int) returns (b: nat)
    ensures b < 3 && BUCKETS[b] == BucketFor(p) && (b == 0 <==> p <= 1) && (b <= 1 <==> p <= 5)
  {
    b := if p <= 1 then 0 else if p <= 5 then 1 else 2;
  }

  /** When a tenant's turn comes and its list for priority p has a job to give, its list for a less urgent priority
      q, with p <= 1 < q or p <= 5 < q, is left alone; and the job found is the oldest of priority p's list unless a
      more urgent list of that tenant has one. */
  lemma UrgentFirst(l: Lists, order: seq<Id>, worker: Id, a: nat, p: int, q: int)
    requires Distinct(order) && a < |order| && (p <= 1 < q || p <= 5 < q) && Parses(l, Key(order[a], BucketFor(p)))
    requires forall x, y :: 0 <= x < a && 0 <= y < 3 ==> !Parses(l, Key(order[x], BUCKETS[y]))
    ensures Queued(Poll(l, Visits(order), worker).lists, Key(order[a], BucketFor(q))) == Queued(l, Key(order[a], BucketFor(q)))
    ensures (forall o :: BucketFor(o) != BucketFor(p) && o < p ==> !Parses(l, Key(order[a], BucketFor(o)))) ==>
              Poll(l, Visits(order), worker).found == Oldest(l, Key(order[a], BucketFor(p)))
  {
    var b := BucketPlace(p);
    var c := BucketPlace(q);
    var keys := Visits(order);
    VisitsDistinct(order);
    var n := FirstParsing(l, keys);
    assert keys[3 * a + b] == Key(order[a], BUCKETS[b]) && keys[3 * a + c] == Key(order[a], BUCKETS[c]);
    assert n <= 3 * a + b < 3 * a + c;
    PollExact(l, keys, worker, n, keys[3 * a + c]);
    if forall o :: BucketFor(o) != BucketFor(p) && o < p ==> !Parses(l, Key(order[a], BucketFor(o))) {
      assert BucketFor(1) == High && BucketFor(5) == Normal;
      ServedAt(l, order, a, b);
      CycleServes(l, order, worker, a, b);
    }
  }

  lemma ServedAt(l: Lists, order: seq<Id>, a: nat, b: nat)
    requires a < |order| && b < 3 && Parses(l, Key(order[a], BUCKETS[b]))
    requires b > 0 ==> !Parses(l, Key(order[a], High))
    requires b > 1 ==> !Parses(l, Key(order[a], Normal))
    requires forall x, y :: 0 <= x < a && 0 <= y < 3 ==> !Parses(l, Key(order[x], BUCKETS[y]))
    ensures Serves(l, order, a, b)
  {
  }

  /** Everything a cycle takes goes to the front of that worker's processing list, the job found last ... */
  lemma {:induction false} PollHolds(l: Lists, keys: seq<Key>, worker: Id) returns (taken: seq<Entry>)
    ensures Held(Poll(l, keys, worker).lists, worker) == taken + Held(l, worker)
    ensures Poll(l, keys, worker).found.Some? ==> taken != [] && taken[0] == Poll(l, keys, worker).found
    decreases |keys|
  {
    if keys == [] || Queued(l, keys[0]) == [] {
      taken := [];
      if keys != [] {
        taken := PollHolds(l, keys[1..], worker);
      }
    } else {
      var q := Queued(l, keys[0]);
      taken := [q[|q| - 1]];
      if !Parses(l, keys[0]) {
        var more := PollHolds(AfterMove(l, keys[0], worker), keys[1..], worker);
        taken := more + taken;
        assert more + ([q[|q| - 1]] + Held(l, worker)) == taken + Held(l, worker);
      }
    }
  }

  /** ... and no other processing list changes. */
  lemma {:induction false} PollSpares(l: Lists, keys: seq<Key>, worker: Id, w: Id)
    requires w != worker
    ensures Held(Poll(l, keys, worker).lists, w) == Held(l, w)
    decreases |keys|
  {
    if keys != [] && !Parses(l, keys[0]) {
      PollSpares(AfterMove(l, keys[0], worker), keys[1..], worker, w);
    }
  }

  // ---- what a cycle leaves alone, whatever the keys ----

  /** Lists only lose entries from their old end. */
  lemma {:induction false} PollShrinks(l: Lists, keys: seq<Key>, worker: Id, key: Key)
    ensures Queued(Poll(l, keys, worker).lists, key) <= Queued(l, key)
    decreases |keys|
  {
    if keys != [] && !Parses(l, keys[0]) {
      PollShrinks(AfterMove(l, keys[0], worker), keys[1..], worker, key);
    }
  }

  /** A queued id is returned or still queued. */
  lemma {:induction false} PollKeeps(l: Lists, keys: seq<Key>, worker: Id, key: Key, e: Entry)
    requires e.Some? && e in Queued(l, key)
    ensures Poll(l, keys, worker).found == e || e in Queued(Poll(l, keys, worker).lists, key)
    decreases |keys|
  {
    if keys != [] {
      var q := Queued(l, key);
      if keys[0] == key && q[|q| - 1] != e {
        var i :| 0 <= i < |q| && q[i] == e;
        assert q[..|q| - 1][i] == e;
      }
      if !Parses(l, keys[0]) {
        PollKeeps(AfterMove(l, keys[0], worker), keys[1..], worker, key, e);
      }
    }
  }

  /** The first non-empty list loses an entry. */
  lemma {:induction false} PollTakes(l: Lists, keys: seq<Key>, worker: Id, n: nat)
    requires n < |keys| && Queued(l, keys[n]) != [] && forall m :: 0 <= m < n ==> Queued(l, keys[m]) == []
    ensures |Queued(Poll(l, keys, worker).lists, keys[n])| < |Queued(l, keys[n])|
    decreases n
  {
    if n > 0 {
      assert Queued(l, keys[0]) == [];
      PollTakes(l, keys[1..], worker, n - 1);
    } else if !Parses(l, keys[0]) {
      PollShrinks(AfterMove(l, keys[0], worker), keys[1..], worker, keys[0]);
    }
  }

  // ---- interleaved commands of any number of clients ----

  datatype Op =
    | Push(key: Key, entry: Entry)
    | Move(key: Key, worker: Id)
    | Remove(worker: Id, id: Id)
    | Delete(key: Key)

  function AfterOp(l: Lists, op: Op): Lists {
    match op
    case Push(key, e) => AfterPush(l, key, e)
    case Move(key, worker) => AfterMove(l, key, worker)
    case Remove(worker, id) => AfterRemove(l, worker, id)
    case Delete(key) => AfterDelete(l, key)
  }

  function AfterOps(l: Lists, ops: seq<Op>): Lists {
    if ops == [] then l else AfterOp(AfterOps(l, ops[..|ops| - 1]), ops[|ops| - 1])
  }

  function Reverse(s: seq<Entry>): seq<Entry> {
    if s == [] then [] else Reverse(s[1..]) + [s[0]]
  }

  /** What one command takes out of the list at `key`, oldest first. */
  function TakenBy(l: Lists, op: Op, key: Key): seq<Entry> {
    var q := Queued(l, key);
    match op
    case Move(k, _) => if k == key && q != [] then [q[|q| - 1]] else []
    case Delete(k) => if k == key then Reverse(q) else []
    case _ => []
  }

  function Taken(l: Lists, ops: seq<Op>, key: Key): seq<Entry> {
    if ops == [] then []
    else Taken(l, ops[..|ops| - 1], key) + TakenBy(AfterOps(l, ops[..|ops| - 1]), ops[|ops| - 1], key)
  }

  function PushedBy(op: Op, key: Key): seq<Entry> {
    if op.Push? && op.key == key then [op.entry] else []
  }

  function Pushed(ops: seq<Op>, key: Key): seq<Entry> {
    if ops == [] then [] else Pushed(ops[..|ops| - 1], key) + PushedBy(ops[|ops| - 1], key)
  }

  lemma {:induction false} ReverseSnoc(s: seq<Entry>)
    requires s != []
    ensures Reverse(s) == [s[|s| - 1]] + Reverse(s[..|s| - 1])
  {
    if |s| > 1 {
      ReverseSnoc(s[1..]);
      assert s[..|s| - 1][1..] == s[1..][..|s| - 2];
    }
  }

  lemma ReverseCons(e: Entry, s: seq<Entry>)
    ensures Reverse([e] + s) == Reverse(s) + [e]
  {
    assert ([e] + s)[1..] == s;
  }

  /** Pushing to a list that shows `sent`, newest first, before `q`. */
  lemma PushedInFront(m: Lists, k: Key, e: Entry, key: Key, sent: seq<Entry>, q: seq<Entry>)
    requires Queued(m, key) == Reverse(sent) + q
    ensures Queued(AfterPush(m, k, e), key) == Reverse(if k == key then sent + [e] else sent) + q
  {
    ReverseSnoc(sent + [e]);
    assert (sent + [e])[..|sent|] == sent;
    assert ([e] + Reverse(sent)) + q == [e] + (Reverse(sent) + q);
  }

  lemma FifoStep(l: Lists, op: Op, key: Key)
    ensures Reverse(Queued(l, key)) + PushedBy(op, key) == TakenBy(l, op, key) + Reverse(Queued(AfterOp(l, op), key))
  {
    var q := Queued(l, key);
    if op.Push? && op.key == key {
      ReverseCons(op.entry, q);
    } else if op.Move? && op.key == key && q != [] {
      ReverseSnoc(q);
    } else if op.Delete? && op.key == key {
      assert Reverse(q) + [] == Reverse(q);
    } else {
      assert Queued(AfterOp(l, op), key) == q;
    }
  }

  lemma Chain(a: seq<Entry>, p: seq<Entry>, t: seq<Entry>, b: seq<Entry>,
              q: seq<Entry>, u: seq<Entry>, c: seq<Entry>)
    requires a + p == t + b && b + q == u + c
    ensures a + (p + q) == (t + u) + c
  {
    assert a + (p + q) == (a + p) + q;
    assert (t + b) + q == t + (b + q);
    assert t + (u + c) == (t + u) + c;
  }

  /** Under any interleaving each (tenant, bucket) list is first in, first out: entries leave in the
      order they arrived, and what has not left is still queued in that order. */
  lemma {:induction false} Fifo(l: Lists, ops: seq<Op>, key: Key)
    ensures Reverse(Queued(l, key)) + Pushed(ops, key)
            == Taken(l, ops, key) + Reverse(Queued(AfterOps(l, ops), key))
  {
    if ops == [] {
      assert Reverse(Queued(l, key)) + [] == [] + Reverse(Queued(l, key));
    } else {
      var init, op := ops[..|ops| - 1], ops[|ops| - 1];
      Fifo(l, init, key);
      FifoStep(AfterOps(l, init), op, key);
      Chain(Reverse(Queued(l, key)), Pushed(init, key), Taken(l, init, key), Reverse(Queued(AfterOps(l, init), key)),
            PushedBy(op, key), TakenBy(AfterOps(l, init), op, key), Reverse(Queued(AfterOps(l, ops), key)));
    }
  }

  // ---- conservation ----

  /** All entries of a family of lists. */
  ghost function Bag<K>(m: map<K, seq<Entry>>): multiset<Entry> {
    if m == map[] then multiset{}
    else var k :| k in m; multiset(m[k]) + Bag(m - {k})
  }

  lemma {:induction false} BagPick<K>(m: map<K, seq<Entry>>, k: K)
    requires k in m
    ensures Bag(m) == multiset(m[k]) + Bag(m - {k})
    decreases |m|
  {
    var c :| c in m && Bag(m) == multiset(m[c]) + Bag(m - {c});
    if c != k {
      BagPick(m - {c}, k);
      BagPick(m - {k}, c);
      assert m - {c} - {k} == m - {k} - {c};
    }
  }

  lemma BagUpdate<K>(m: map<K, seq<Entry>>, k: K, s: seq<Entry>)
    ensures Bag(m[k := s]) + multiset(At(m, k)) == Bag(m) + multiset(s)
  {
    BagPick(m[k := s], k);
    assert m[k := s] - {k} == m - {k};
    if k in m {
      BagPick(m, k);
    } else {
      assert m - {k} == m;
    }
  }

  ghost function AllEntries(l: Lists): multiset<Entry> { Bag(l.queued) + Bag(l.processing) }

  ghost function InBy(op: Op): multiset<Entry> { if op.Push? then multiset{op.entry} else multiset{} }

  /** What LREM and DEL discard. */
  ghost function OutBy(l: Lists, op: Op): multiset<Entry> {
    match op
    case Remove(worker, id) => multiset(Held(l, worker)) - multiset(Except(Held(l, worker), Some(id)))
    case Delete(key) => multiset(Queued(l, key))
    case _ => multiset{}
  }

  ghost function In(ops: seq<Op>): multiset<Entry> {
    if ops == [] then multiset{} else In(ops[..|ops| - 1]) + InBy(ops[|ops| - 1])
  }

  ghost function Out(l: Lists, ops: seq<Op>): multiset<Entry> {
    if ops == [] then multiset{}
    else Out(l, ops[..|ops| - 1]) + OutBy(AfterOps(l, ops[..|ops| - 1]), ops[|ops| - 1])
  }

  lemma {:induction false} ExceptShrinks(s: seq<Entry>, e: Entry)
    ensures multiset(Except(s, e)) <= multiset(s)
    ensures forall x :: multiset(Except(s, e))[x] == if x == e then 0 else multiset(s)[x]
  {
    if s != [] {
      ExceptShrinks(s[1..], e);
      assert s == [s[0]] + s[1..];
    }
  }

  lemma RemoveClears(l: Lists, worker: Id, id: Id)
    ensures Some(id) !in Held(AfterRemove(l, worker, id), worker)
  {
    ExceptShrinks(Held(l, worker), Some(id));
    assert Held(AfterRemove(l, worker, id), worker) == Except(Held(l, worker), Some(id));
    assert multiset(Except(Held(l, worker), Some(id)))[Some(id)] == 0;
  }

  lemma Carry(a: multiset<Entry>, i: multiset<Entry>, b: multiset<Entry>, o: multiset<Entry>,
              i': multiset<Entry>, c: multiset<Entry>, o': multiset<Entry>)
    requires a + i == b + o && b + i' == c + o'
    ensures a + (i + i') == c + (o + o')
  {
    forall x
      ensures (a + (i + i'))[x] == (c + (o + o'))[x]
    {
      assert (a + i)[x] == (b + o)[x] && (b + i')[x] == (c + o')[x];
    }
  }

  lemma Cancel(a: multiset<Entry>, b: multiset<Entry>, c: multiset<Entry>)
    requires a + c == b + c
    ensures a == b
  {
    forall x
      ensures a[x] == b[x]
    {
      assert (a + c)[x] == (b + c)[x];
    }
  }

  lemma PushGrows<K>(m: map<K, seq<Entry>>, key: K, e: Entry)
    ensures Bag(m[key := [e] + At(m, key)]) == Bag(m) + multiset{e}
  {
    BagUpdate(m, key, [e] + At(m, key));
    Cancel(Bag(m[key := [e] + At(m, key)]), Bag(m) + multiset{e}, multiset(At(m, key)));
  }

  lemma PopShrinks(m: map<Key, seq<Entry>>, key: Key)
    requires At(m, key) != []
    ensures var q := At(m, key); Bag(m) == Bag(m[key := q[..|q| - 1]]) + multiset{q[|q| - 1]}
  {
    var q := At(m, key);
    var rest := q[..|q| - 1];
    BagUpdate(m, key, rest);
    assert q == rest + [q[|q| - 1]];
    Cancel(Bag(m), Bag(m[key := rest]) + multiset{q[|q| - 1]}, multiset(rest));
  }

  /** The keys that Redis reports a positive LLEN for. */
  function Filled(m: map<Key, seq<Entry>>): set<Key> { set k | k in m && m[k] != [] }

  lemma DeleteUnfills(m: map<Key, seq<Entry>>, key: Key)
    requires At(m, key) != []
    ensures |Filled(m)| == |Filled(m[key := []])| + 1
  {
    assert Filled(m) == Filled(m[key := []]) + {key};
  }

  lemma DeleteShrinks(m: map<Key, seq<Entry>>, key: Key)
    ensures Bag(m) == Bag(m[key := []]) + multiset(At(m, key))
    ensures |Bag(m)| == |Bag(m[key := []])| + |At(m, key)|
  {
    var none: seq<Entry> := [];
    BagUpdate(m, key, none);
    assert Bag(m) + multiset(none) == Bag(m);
  }

  lemma RemoveShrinks(m: map<Id, seq<Entry>>, worker: Id, e: Entry)
    ensures Bag(m) == Bag(m[worker := Except(At(m, worker), e)])
                      + (multiset(At(m, worker)) - multiset(Except(At(m, worker), e)))
  {
    var held, rest := At(m, worker), Except(At(m, worker), e);
    var gone := multiset(held) - multiset(rest);
    BagUpdate(m, worker, rest);
    ExceptShrinks(held, e);
    assert multiset(held) == gone + multiset(rest);
    Cancel(Bag(m), Bag(m[worker := rest]) + gone, multiset(rest));
  }

  lemma Regroup(q: multiset<Entry>, p: multiset<Entry>, x: multiset<Entry>)
    ensures (q + p) + x == (q + x) + p
    ensures (q + p) + x == q + (p + x)
  {
  }

  lemma ConserveMove(l: Lists, key: Key, worker: Id)
    ensures AllEntries(l) == AllEntries(AfterMove(l, key, worker))
  {
    var q, l' := Queued(l, key), AfterMove(l, key, worker);
    if q != [] {
      PopShrinks(l.queued, key);
      PushGrows(l.processing, worker, q[|q| - 1]);
      Regroup(Bag(l'.queued), Bag(l.processing), multiset{q[|q| - 1]});
    }
  }

  lemma ConserveStep(l: Lists, op: Op)
    ensures AllEntries(l) + InBy(op) == AllEntries(AfterOp(l, op)) + OutBy(l, op)
  {
    var l' := AfterOp(l, op);
    match op
    case Push(key, e) =>
      PushGrows(l.queued, key, e);
      Regroup(Bag(l.queued), Bag(l.processing), multiset{e});
    case Move(key, worker) =>
      ConserveMove(l, key, worker);
    case Remove(worker, id) =>
      RemoveShrinks(l.processing, worker, Some(id));
      Regroup(Bag(l'.queued), Bag(l'.processing), OutBy(l, op));
    case Delete(key) =>
      DeleteShrinks(l.queued, key);
      Regroup(Bag(l'.queued), Bag(l'.processing), multiset(Queued(l, key)));
  }

  /** Under any interleaving, moves lose and invent nothing: what went in is queued, in processing,
      or was explicitly removed. */
  lemma {:induction false} Conservation(l: Lists, ops: seq<Op>)
    ensures AllEntries(l) + In(ops) == AllEntries(AfterOps(l, ops)) + Out(l, ops)
  {
    if ops != [] {
      Conservation(l, ops[..|ops| - 1]);
      var mid, op := AfterOps(l, ops[..|ops| - 1]), ops[|ops| - 1];
      ConserveStep(mid, op);
      Carry(AllEntries(l), In(ops[..|ops| - 1]), AllEntries(mid), Out(l, ops[..|ops| - 1]),
             InBy(op), AllEntries(AfterOps(l, ops)), OutBy(mid, op));
    }
  }

  // ---- the client ----

  /** Successive cycles, one per visiting order, until one finds a job. */
  function Polls(l: Lists, orders: seq<seq<Id>>, worker: Id): Polled {
    if orders == [] then Polled(None, l)
    else
      var p := Polls(l, orders[..|orders| - 1], worker);
      if p.found.Some? then p else Poll(p.lists, Visits(orders[|orders| - 1]), worker)
  }

  ghost predicate SameIds(a: seq<Id>, b: seq<Id>) { multiset(a) == multiset(b) }

  lemma SameTenants(a: seq<Id>, b: seq<Id>, x: Id)
    requires SameIds(a, b)
    ensures x in a <==> x in b
  {
    assert x in a <==> x in multiset(a);
    assert x in b <==> x in multiset(b);
  }

  lemma {:induction false} Once(a: seq<Id>)
    ensures Distinct(a) <==> forall x :: multiset(a)[x] <= 1
  {
    if a != [] {
      var n := |a| - 1;
      Once(a[..n]);
      assert a == a[..n] + [a[n]];
      assert multiset(a) == multiset(a[..n]) + multiset{a[n]};
      if Distinct(a) {
        assert Distinct(a[..n]);
        assert a[n] !in a[..n];
      } else if Distinct(a[..n]) {
        var i, k :| 0 <= i < k < |a| && a[i] == a[k];
        assert k == n && a[..n][i] == a[n];
        assert multiset(a)[a[n]] >= 2;
      } else {
        var x :| multiset(a[..n])[x] > 1;
        assert multiset(a)[x] > 1;
      }
    }
  }

  lemma SameDistinct(a: seq<Id>, b: seq<Id>)
    requires SameIds(a, b) && Distinct(a)
    ensures Distinct(b)
  {
    Once(a);
    Once(b);
  }

  /** One of the `n` oldest entries of `q` parses. */
  predicate ParsesWithin(q: seq<Entry>, n: nat) {
    exists i :: Max(0, |q| - n) <= i < |q| && q[i].Some?
  }

  ghost predicate Reachable(l: Lists, ids: seq<Id>, n: nat) {
    exists key: Key {:trigger Queued(l, key)} :: key.tenant in ids && ParsesWithin(Queued(l, key), n)
  }

  lemma DropParses(q: seq<Entry>, n: nat)
    ensures ParsesWithin(q, n + 1) <==>
              ParsesWithin(q, n) || (Drop(q, n) != [] && Drop(q, n)[|Drop(q, n)| - 1].Some?)
    ensures Drop(Drop(q, n), 1) == Drop(q, n + 1)
  {
    if n < |q| {
      assert Drop(q, n)[|Drop(q, n)| - 1] == q[|q| - 1 - n];
      if i :| Max(0, |q| - (n + 1)) <= i < |q| && q[i].Some? {
        assert i == |q| - 1 - n || Max(0, |q| - n) <= i;
      }
    }
  }

  lemma ReachOneMore(l: Lists, m: Lists, ids: seq<Id>, n: nat)
    requires forall key: Key :: key.tenant in ids ==> Queued(m, key) == Drop(Queued(l, key), n)
    ensures Reachable(l, ids, n + 1) <==> Reachable(l, ids, n) || AnyParses(m, ids)
  {
    forall key: Key | key.tenant in ids
      ensures ParsesWithin(Queued(l, key), n + 1) <==> ParsesWithin(Queued(l, key), n) || Parses(m, key)
    {
      DropParses(Queued(l, key), n);
    }
    if key: Key :| key.tenant in ids && ParsesWithin(Queued(l, key), n + 1) {
      assert ParsesWithin(Queued(l, key), n) || Parses(m, key);
    }
    if key: Key :| key.tenant in ids && (ParsesWithin(Queued(l, key), n) || Parses(m, key)) {
      assert ParsesWithin(Queued(l, key), n + 1);
    }
  }

  lemma SameParses(l: Lists, a: seq<Id>, b: seq<Id>)
    requires SameIds(a, b) && AnyParses(l, a)
    ensures AnyParses(l, b)
  {
    var key: Key :| key.tenant in a && Parses(l, key);
    SameTenants(a, b, key.tenant);
  }

  /** Left alone, n cycles find a job iff a listed tenant has a list one of whose n oldest entries parses;
      n cycles that find none have taken the n oldest entries of every such list and nothing else. */
  lemma {:induction false} PollsFind(l: Lists, orders: seq<seq<Id>>, worker: Id, ids: seq<Id>)
    requires Distinct(ids) && forall o :: o in orders ==> SameIds(o, ids)
    ensures Polls(l, orders, worker).found.Some? <==> Reachable(l, ids, |orders|)
    ensures Polls(l, orders, worker).found.None? ==>
              forall key: Key :: Queued(Polls(l, orders, worker).lists, key)
                                 == if key.tenant in ids then Drop(Queued(l, key), |orders|) else Queued(l, key)
  {
    if orders != [] {
      var n, o := |orders| - 1, orders[|orders| - 1];
      var p := Polls(l, orders[..n], worker);
      PollsFind(l, orders[..n], worker, ids);
      if p.found.Some? {
        ReachMore(l, ids, n);
      } else {
        LastCycle(l, p.lists, o, worker, ids, n);
      }
    }
  }

  lemma ReachMore(l: Lists, ids: seq<Id>, n: nat)
    requires Reachable(l, ids, n)
    ensures Reachable(l, ids, n + 1)
  {
    var key: Key :| key.tenant in ids && ParsesWithin(Queued(l, key), n);
    assert ParsesWithin(Queued(l, key), n + 1);
  }

  lemma LastCycle(l: Lists, m: Lists, o: seq<Id>, worker: Id, ids: seq<Id>, n: nat)
    requires Distinct(ids) && SameIds(o, ids) && !Reachable(l, ids, n)
    requires forall key: Key :: Queued(m, key) == if key.tenant in ids then Drop(Queued(l, key), n) else Queued(l, key)
    ensures Poll(m, Visits(o), worker).found.Some? <==> Reachable(l, ids, n + 1)
    ensures Poll(m, Visits(o), worker).found.None? ==>
              forall key: Key :: Queued(Poll(m, Visits(o), worker).lists, key)
                                 == if key.tenant in ids then Drop(Queued(l, key), n + 1) else Queued(l, key)
  {
    SameDistinct(ids, o);
    ReachOneMore(l, m, ids, n);
    if AnyParses(m, o) {
      SameParses(m, o, ids);
    }
    if AnyParses(m, ids) {
      SameParses(m, ids, o);
    }
    forall key: Key
      ensures Poll(m, Visits(o), worker).found.Some? <==> AnyParses(m, o)
      ensures Poll(m, Visits(o), worker).found.None? ==>
                Queued(Poll(m, Visits(o), worker).lists, key)
                == if key.tenant in ids then Drop(Queued(l, key), n + 1) else Queued(l, key)
    {
      CycleFinds(m, o, worker, key);
      SameTenants(o, ids, key.tenant);
      DropParses(Queued(l, key), n);
    }
    CycleFinds(m, o, worker, Key(0, High));
  }

  /** A cycle cut off after `n` visits that found a job is the whole cycle. */
  lemma {:induction false} PollPrefix(l: Lists, keys: seq<Key>, n: nat, worker: Id)
    requires n <= |keys| && Poll(l, keys[..n], worker).found.Some?
    ensures Poll(l, keys, worker) == Poll(l, keys[..n], worker)
    decreases n
  {
    if n > 0 {
      assert keys[..n][0] == keys[0] && keys[..n][1..] == keys[1..][..n - 1];
      if !Parses(l, keys[0]) {
        PollPrefix(AfterMove(l, keys[0], worker), keys[1..], n - 1, worker);
      }
    }
  }

  /** `t` is `s` without its occurrences of `e`: every other entry of `s` is in `t`, moved forward by the
      number of occurrences before it, and `t` holds nothing else. */
  ghost predicate Kept(s: seq<Entry>, t: seq<Entry>, e: Entry) {
    && |t| == |s| - multiset(s)[e]
    && forall i :: 0 <= i < |s| && s[i] != e ==> KeptAt(s, t, e, i)
  }

  ghost predicate KeptAt(s: seq<Entry>, t: seq<Entry>, e: Entry, i: nat)
    requires i < |s|
  {
    var k := i - multiset(s[..i])[e];
    0 <= k < |t| && t[k] == s[i]
  }

  lemma KeptOneOn(s: seq<Entry>, t: seq<Entry>, e: Entry, i: nat)
    requires 0 < i < |s| && KeptAt(s[1..], t, e, i - 1)
    ensures KeptAt(s, (if s[0] == e then [] else [s[0]]) + t, e, i)
  {
    assert s[..i] == [s[0]] + s[1..][..i - 1];
    assert multiset(s[..i])[e] == (if s[0] == e then 1 else 0) + multiset(s[1..][..i - 1])[e];
  }

  lemma {:induction false} ExceptKeeps(s: seq<Entry>, e: Entry)
    ensures Kept(s, Except(s, e), e)
  {
    if s != [] {
      ExceptKeeps(s[1..], e);
      var t := Except(s[1..], e);
      forall i | 0 <= i < |s| && s[i] != e
        ensures KeptAt(s, Except(s, e), e, i)
      {
        if i > 0 {
          assert s[1..][i - 1] == s[i];
          assert KeptAt(s[1..], t, e, i - 1);
          KeptOneOn(s, t, e, i);
        }
      }
      assert multiset(s)[e] == (if s[0] == e then 1 else 0) + multiset(s[1..])[e] by {
        assert s == [s[0]] + s[1..];
      }
    }
  }

  /** Where a Dequeue was stopped: before cycle `cycle`, at a visit of it, or while waiting after it. */
  datatype Stop = AtStart(cycle: nat) | AtVisit(cycle: nat, order: seq<Id>, visit: nat) | AtWait(cycle: nat)

  ghost predicate Orders(orders: seq<seq<Id>>, ids: seq<Id>) { forall o :: o in orders ==> SameIds(o, ids) }

  /** The orders of the first `n` cycles: each is the shuffle that cycle's random draws determine. */
  function Shuffles(tenants: seq<TenantWeight>, intn: nat -> (nat, int) -> int, n: nat): seq<seq<Id>>
    requires Positive(tenants)
  {
    if n == 0 then [] else Shuffles(tenants, intn, n - 1) + [ShuffleFrom(tenants, intn(n - 1), 0)]
  }

  /** Whole cycles over `orders`, and visits to `part` of another, found nothing and left `m`. */
  ghost predicate Missed(l: Lists, orders: seq<seq<Id>>, part: seq<Key>, worker: Id, m: Lists) {
    && Polls(l, orders, worker).found.None?
    && Polled(None, m) == Poll(Polls(l, orders, worker).lists, part, worker)
  }

  lemma FoundWithin(l: Lists, orders: seq<seq<Id>>, worker: Id, ids: seq<Id>, cycles: nat)
    requires Distinct(ids) && Orders(orders, ids) && |orders| <= cycles && Polls(l, orders, worker).found.Some?
    ensures Reachable(l, ids, cycles)
  {
    PollsFind(l, orders, worker, ids);
    ReachFarther(l, ids, |orders|, cycles);
  }

  lemma FoundNone(l: Lists, orders: seq<seq<Id>>, worker: Id, ids: seq<Id>, cycles: nat)
    requires Distinct(ids) && Orders(orders, ids) && Polls(l, orders, worker).found.None?
    requires ids != [] ==> |orders| == cycles
    ensures !Reachable(l, ids, cycles)
  {
    PollsFind(l, orders, worker, ids);
  }

  lemma NoneNext(f: nat -> bool, n: nat)
    requires NoneBefore(f, n) && !f(n)
    ensures NoneBefore(f, n + 1)
  {
  }

  ghost predicate NoneBefore(f: nat -> bool, n: nat) { forall m :: 0 <= m < n ==> !f(m) }

  /** `stop` explains the stop: the context is found done at check 2c before cycle c or 2c + 1 after it, for the first
      time, or an LMOVE of the cycle fails, the first to do so. `count` cycles were complete, and `part` is what was
      visited of the next. */
  ghost predicate Explains(stop: Stop, fails: nat -> nat -> bool, cancelled: nat -> bool, ids: seq<Id>, count: nat,
                           part: seq<Key>) {
    match stop
    case AtStart(c) => cancelled(2 * c) && NoneBefore(cancelled, 2 * c) && (ids != [] ==> count == c) && part == []
    case AtVisit(c, order, n) =>
      && n < |Visits(order)| && fails(c)(n) && NoneBefore(fails(c), n) && NoneBefore(cancelled, 2 * c + 1)
      && SameIds(order, ids) && count == c && part == Visits(order)[..n]
    case AtWait(c) =>
      cancelled(2 * c + 1) && NoneBefore(cancelled, 2 * c + 1) && (ids != [] ==> count == c + 1) && part == []
  }

  /** The cycles' orders are permutations of the tenants, each the one that cycle's random draws determine. */
  ghost predicate Ordered(tenants: seq<TenantWeight>, intn: nat -> (nat, int) -> int, orders: seq<seq<Id>>)
    requires Positive(tenants)
  {
    Orders(orders, Ids(tenants)) && orders == Shuffles(tenants, intn, |orders|)
  }

  lemma OneMoreOrder(l: Lists, tenants: seq<TenantWeight>, intn: nat -> (nat, int) -> int, orders: seq<seq<Id>>,
                     order: seq<Id>, worker: Id)
    requires Positive(tenants) && Ordered(tenants, intn, orders) && Polls(l, orders, worker).found.None?
    requires SameIds(order, Ids(tenants)) && order == ShuffleFrom(tenants, intn(|orders|), 0)
    ensures Ordered(tenants, intn, orders + [order])
    ensures Polls(l, orders + [order], worker) == Poll(Polls(l, orders, worker).lists, Visits(order), worker)
  {
    assert (orders + [order])[..|orders|] == orders;
  }

  /** Why Dequeue stopped after the cycles over `orders`. */
  ghost predicate Halted(tenants: seq<TenantWeight>, intn: nat -> (nat, int) -> int, fails: nat -> nat -> bool,
                         cancelled: nat -> bool, orders: seq<seq<Id>>, part: seq<Key>, stop: Stop)
    requires Positive(tenants)
  {
    && Explains(stop, fails, cancelled, Ids(tenants), |orders|, part)
    && (stop.AtVisit? ==> stop.order == ShuffleFrom(tenants, intn(stop.cycle), 0))
  }

  /** Cycle `c` is about to begin, nothing having been found. */
  ghost predicate SoFar(l: Lists, tenants: seq<TenantWeight>, intn: nat -> (nat, int) -> int, cancelled: nat -> bool,
                        orders: seq<seq<Id>>, c: nat, worker: Id, m: Lists)
    requires Positive(tenants)
  {
    && |orders| == (if tenants == [] then 0 else c) && Ordered(tenants, intn, orders)
    && NoneBefore(cancelled, 2 * c) && Missed(l, orders, [], worker, m)
  }

  /** How a Dequeue ends: with a job, at its timeout, or because of a Redis error or a cancelled context. */
  datatype Dequeued = Fetched(id: Id) | TimedOut | Stopped

  function Flat(pages: seq<seq<Key>>): seq<Key> {
    if pages == [] then [] else Flat(pages[..|pages| - 1]) + pages[|pages| - 1]
  }

  lemma {:induction false} FlatMember(pages: seq<seq<Key>>, k: Key)
    ensures k in Flat(pages) <==> exists p :: p in pages && k in p
  {
    if pages != [] {
      FlatMember(pages[..|pages| - 1], k);
      assert pages == pages[..|pages| - 1] + [pages[|pages| - 1]];
    }
  }

  /** What Drain has done after deleting the non-empty lists among `keys`: `n` entries in `c` lists. */
  ghost predicate Drained(l: Lists, m: Lists, keys: seq<Key>, n: nat, c: nat) {
    && m.processing == l.processing
    && (forall k :: Queued(m, k) == if k in keys then [] else Queued(l, k))
    && |Bag(l.queued)| == |Bag(m.queued)| + n
    && |Filled(l.queued)| == |Filled(m.queued)| + c
  }

  lemma DrainOne(l: Lists, m: Lists, keys: seq<Key>, key: Key, n: nat, c: nat)
    requires Drained(l, m, keys, n, c)
    ensures if Queued(m, key) == [] then Drained(l, m, keys + [key], n, c)
            else Drained(l, AfterDelete(m, key), keys + [key], n + |Queued(m, key)|, c + 1)
  {
    if Queued(m, key) != [] {
      DeleteShrinks(m.queued, key);
      DeleteUnfills(m.queued, key);
    }
  }

  class Client {
    var lists: Lists

    constructor ()
      ensures lists == Lists(map[], map[])
    {
      lists := Lists(map[], map[]);
    }

    /** The id becomes the newest entry of its tenant's bucket; no other list changes. */
    method Enqueue(tenant: Id, id: Id, priority: int)
      modifies this
      ensures lists == AfterPush(old(lists), Key(tenant, BucketFor(priority)), Some(id))
      ensures forall k :: Queued(lists, k) == (if k == Key(tenant, BucketFor(priority)) then [Some(id)] else [])
                                              + Queued(old(lists), k)
      ensures forall w :: Held(lists, w) == Held(old(lists), w)
    {
      var key := Key(tenant, BucketFor(priority));
      lists := lists.(queued := lists.queued[key := [Some(id)] + Queued(lists, key)]);
    }

    /** Every occurrence of the id leaves the worker's list, the rest stays in order, no other list changes. */
    method RemoveFromProcessing(worker: Id, id: Id)
      modifies this
      ensures Some(id) !in Held(lists, worker)
      ensures Kept(Held(old(lists), worker), Held(lists, worker), Some(id))
      ensures lists.queued == old(lists).queued && forall w :: w != worker ==> Held(lists, w) == Held(old(lists), w)
    {
      ExceptKeeps(Held(lists, worker), Some(id));
      RemoveClears(lists, worker, id);
      lists := AfterRemove(lists, worker, id);
    }

    /** One cycle, the two nested loops over tenants and buckets, with `fails(n)` telling whether the LMOVE
        of visit `n` would return an error. It is the poll of the keys up to the first such visit. */
    method PollOnce(worker: Id, order: seq<Id>, fails: nat -> bool) returns (found: Option<Id>, failed: bool, ghost n: nat)
      modifies this
      ensures n <= |Visits(order)| && NoneBefore(fails, n) && (n < |Visits(order)| ==> fails(n))
      ensures Polled(found, lists) == Poll(old(lists), Visits(order)[..n], worker)
      ensures failed <==> found.None? && n < |Visits(order)|
    {
      ghost var keys := Visits(order);
      n := FirstFailure(fails, |keys|);
      ghost var goal := Rest(lists, keys, 0, n, worker);
      assert keys[..n] == keys[0..n];
      for a := 0 to |order|
        invariant 3 * a <= n && Rest(lists, keys, 3 * a, n, worker) == goal
      {
        assert forall b :: 0 <= b < 3 ==> keys[3 * a + b] == Key(order[a], BUCKETS[b]);
        found, failed := PollTenant(worker, order[a], 3 * a, fails, keys, n);
        if found.Some? || failed {
          return found, failed, n;
        }
      }
      return None, false, n;
    }

    /** The inner loop, over the buckets of the tenant whose turn begins at visit `p`. */
    method PollTenant(worker: Id, tenant: Id, p: nat, fails: nat -> bool, ghost keys: seq<Key>, ghost n: nat)
      returns (found: Option<Id>, failed: bool)
      requires p + 3 <= |keys| && p <= n <= |keys| && (forall m :: 0 <= m < n ==> !fails(m)) && (n < |keys| ==> fails(n))
      requires forall b :: 0 <= b < 3 ==> keys[p + b] == Key(tenant, BUCKETS[b])
      modifies this
      ensures found.Some? ==> !failed && Polled(found, lists) == Rest(old(lists), keys, p, n, worker)
      ensures failed ==> found.None? && n < |keys| && Polled(found, lists) == Rest(old(lists), keys, p, n, worker)
      ensures found.None? && !failed ==>
                p + 3 <= n && Rest(lists, keys, p + 3, n, worker) == Rest(old(lists), keys, p, n, worker)
    {
      for b := 0 to 3
        invariant p + b <= n && Rest(lists, keys, p + b, n, worker) == Rest(old(lists), keys, p, n, worker)
      {
        if fails(p + b) {
          return None, true;
        }
        var key := Key(tenant, BUCKETS[b]);
        assert key == keys[p + b];
        Visit(lists, keys, p + b, n, worker);
        var q := Queued(lists, key);
        if q != [] {
          lists := AfterMove(lists, key, worker);
          if q[|q| - 1].Some? {
            return q[|q| - 1], false;
          }
        }
      }
      return None, false;
    }

    /** A cycle of Dequeue: shuffle the tenants and poll. */
    method OneCycle(worker: Id, tenants: seq<TenantWeight>, intn: (nat, int) -> int, fails: nat -> bool)
      returns (found: Option<Id>, failed: bool, ghost order: seq<Id>, ghost n: nat)
      requires Positive(tenants) && Random(intn)
      modifies this
      ensures SameIds(order, Ids(tenants)) && order == ShuffleFrom(tenants, intn, 0)
      ensures !failed ==> Polled(found, lists) == Poll(old(lists), Visits(order), worker)
      ensures failed ==> && n < |Visits(order)| && fails(n) && NoneBefore(fails, n)
                         && Polled(None, lists) == Poll(old(lists), Visits(order)[..n], worker)
    {
      var shuffled, draws := WeightedShuffle(tenants, intn);
      order := shuffled;
      found, failed, n := PollOnce(worker, shuffled, fails);
      if !failed {
        WholeCycle(old(lists), Visits(order), n, worker);
      }
    }

    /** `Dequeue` with nobody else at the lists: `cycles` polls fit before the timeout, `intn` gives the random
        draws of each, `fails` says which LMOVE would fail and `cancelled` at which checks the context is done. */
    method Dequeue(worker: Id, tenants: seq<TenantWeight>, cycles: nat, intn: nat -> (nat, int) -> int,
                   fails: nat -> nat -> bool, cancelled: nat -> bool)
      returns (r: Dequeued, ghost orders: seq<seq<Id>>, ghost part: seq<Key>, ghost stop: Stop)
      requires Positive(tenants) && Distinct(Ids(tenants)) && forall c :: Random(intn(c))
      modifies this
      ensures |orders| <= cycles && Ordered(tenants, intn, orders)
      ensures !r.Stopped? ==>
                && (r.Fetched? <==> Reachable(old(lists), Ids(tenants), cycles))
                && Polled(if r.Fetched? then Some(r.id) else None, lists) == Polls(old(lists), orders, worker)
      ensures r.Stopped? ==>
                && stop.cycle < cycles && Halted(tenants, intn, fails, cancelled, orders, part, stop)
                && Missed(old(lists), orders, part, worker, lists)
    {
      r, orders, part, stop := PollUntil(worker, tenants, cycles, intn, fails, cancelled);
      if r.Fetched? {
        FoundWithin(old(lists), orders, worker, Ids(tenants), cycles);
      } else if r.TimedOut? {
        FoundNone(old(lists), orders, worker, Ids(tenants), cycles);
      }
    }

    /** Its loop. */
    method PollUntil(worker: Id, tenants: seq<TenantWeight>, cycles: nat, intn: nat -> (nat, int) -> int,
                     fails: nat -> nat -> bool, cancelled: nat -> bool)
      returns (r: Dequeued, ghost orders: seq<seq<Id>>, ghost part: seq<Key>, ghost stop: Stop)
      requires Positive(tenants) && forall c :: Random(intn(c))
      modifies this
      ensures |orders| <= cycles && Ordered(tenants, intn, orders)
      ensures r.Fetched? ==> Polled(Some(r.id), lists) == Polls(old(lists), orders, worker)
      ensures r.TimedOut? ==>
                (tenants != [] ==> |orders| == cycles) && Polled(None, lists) == Polls(old(lists), orders, worker)
      ensures r.Stopped? ==>
                stop.cycle < cycles && Halted(tenants, intn, fails, cancelled, orders, part, stop)
                && Missed(old(lists), orders, part, worker, lists)
    {
      orders, part, stop := [], [], AtStart(0);
      var c := 0;
      while c < cycles
        invariant c <= cycles && SoFar(old(lists), tenants, intn, cancelled, orders, c, worker, lists)
      {
        var done;
        done, orders, part, stop := CycleOnce(worker, tenants, c, intn, fails, cancelled, old(lists), orders);
        if done.Some? {
          return done.value, orders, part, stop;
        }
        c := c + 1;
      }
      return TimedOut, orders, part, stop;
    }

    /** One turn of it: the check before, the cycle if there are tenants, and the check while waiting. */
    method CycleOnce(worker: Id, tenants: seq<TenantWeight>, c: nat, intn: nat -> (nat, int) -> int,
                     fails: nat -> nat -> bool, cancelled: nat -> bool, ghost l: Lists, ghost orders: seq<seq<Id>>)
      returns (done: Option<Dequeued>, ghost orders': seq<seq<Id>>, ghost part: seq<Key>, ghost stop: Stop)
      requires Positive(tenants) && Random(intn(c)) && SoFar(l, tenants, intn, cancelled, orders, c, worker, lists)
      modifies this
      ensures done.None? ==> SoFar(l, tenants, intn, cancelled, orders', c + 1, worker, lists)
      ensures done.Some? ==> |orders'| <= c + 1 && Ordered(tenants, intn, orders') && !done.value.TimedOut?
      ensures done.Some? && done.value.Fetched? ==> Polled(Some(done.value.id), lists) == Polls(l, orders', worker)
      ensures done.Some? && done.value.Stopped? ==>
                && stop.cycle == c && Halted(tenants, intn, fails, cancelled, orders', part, stop)
                && Missed(l, orders', part, worker, lists)
    {
      orders', part, stop := orders, [], AtStart(c);
      if cancelled(2 * c) {
        return Some(Stopped), orders', part, stop;
      }
      NoneNext(cancelled, 2 * c);
      if |tenants| > 0 {
        done, orders', part, stop := WorkCycle(worker, tenants, c, intn, fails, cancelled, l, orders);
        if done.Some? {
          return;
        }
      }
      if cancelled(2 * c + 1) {
        return Some(Stopped), orders', [], AtWait(c);
      }
      NoneNext(cancelled, 2 * c + 1);
      return None, orders', part, stop;
    }

    /** The cycle itself. */
    method WorkCycle(worker: Id, tenants: seq<TenantWeight>, c: nat, intn: nat -> (nat, int) -> int,
                     fails: nat -> nat -> bool, ghost cancelled: nat -> bool, ghost l: Lists, ghost orders: seq<seq<Id>>)
      returns (done: Option<Dequeued>, ghost orders': seq<seq<Id>>, ghost part: seq<Key>, ghost stop: Stop)
      requires Positive(tenants) && tenants != [] && Random(intn(c)) && NoneBefore(cancelled, 2 * c + 1)
      requires |orders| == c && Ordered(tenants, intn, orders) && Missed(l, orders, [], worker, lists)
      modifies this
      ensures Ordered(tenants, intn, orders') && c <= |orders'| <= c + 1 && (done.Some? ==> !done.value.TimedOut?)
      ensures done.None? ==> |orders'| == c + 1 && Missed(l, orders', [], worker, lists)
      ensures done.Some? && done.value.Fetched? ==> Polled(Some(done.value.id), lists) == Polls(l, orders', worker)
      ensures done.Some? && done.value.Stopped? ==>
                && stop.cycle == c && Halted(tenants, intn, fails, cancelled, orders', part, stop)
                && Missed(l, orders', part, worker, lists)
    {
      var found, failed, order, n := OneCycle(worker, tenants, intn(c), fails(c));
      orders', part, stop := orders, [], AtVisit(c, order, n);
      if failed {
        return Some(Stopped), orders', Visits(order)[..n], stop;
      }
      OneMoreOrder(l, tenants, intn, orders, order, worker);
      orders' := orders + [order];
      done := if found.Some? then Some(Fetched(found.value)) else None;
    }

    /** `cmdDrain`: deletes the queue keys that the SCAN pages mention, in any order and with repeats. */
    method Drain(pages: seq<seq<Key>>) returns (totalJobs: nat, queueCount: nat)
      modifies this
      ensures lists.processing == old(lists).processing
      ensures forall k :: Queued(lists, k) == if exists p :: p in pages && k in p then [] else Queued(old(lists), k)
      ensures |Bag(old(lists).queued)| == |Bag(lists.queued)| + totalJobs
      ensures |Filled(old(lists).queued)| == |Filled(lists.queued)| + queueCount
    {
      totalJobs, queueCount := 0, 0;
      for i := 0 to |pages|
        invariant Drained(old(lists), lists, Flat(pages[..i]), totalJobs, queueCount)
      {
        totalJobs, queueCount := DrainPage(pages[i], totalJobs, queueCount, old(lists), Flat(pages[..i]));
        assert pages[..i + 1][..i] == pages[..i];
      }
      assert pages[..|pages|] == pages;
      forall k
        ensures k in Flat(pages) <==> exists p :: p in pages && k in p
      {
        FlatMember(pages, k);
      }
    }

    /** One SCAN page; the totals so far cover the keys `done` of the earlier pages. */
    method DrainPage(keys: seq<Key>, jobs: nat, queues: nat, ghost start: Lists, ghost done: seq<Key>)
      returns (totalJobs: nat, queueCount: nat)
      requires Drained(start, lists, done, jobs, queues)
      modifies this
      ensures Drained(start, lists, done + keys, totalJobs, queueCount)
    {
      totalJobs, queueCount := jobs, queues;
      assert done + keys[..0] == done;
      for n := 0 to |keys|
        invariant Drained(start, lists, done + keys[..n], totalJobs, queueCount)
      {
        var q := Queued(lists, keys[n]);
        DrainOne(start, lists, done + keys[..n], keys[n], totalJobs, queueCount);
        assert done + keys[..n] + [keys[n]] == done + keys[..n + 1];
        if q != [] {
          lists := AfterDelete(lists, keys[n]);
          totalJobs, queueCount := totalJobs + |q|, queueCount + 1;
        }
      }
      assert keys[..|keys|] == keys;
    }
  }

  /** What is left of a cycle that has come to visit `p`. */
  function Rest(l: Lists, keys: seq<Key>, p: nat, n: nat, worker: Id): Polled
    requires p <= n <= |keys|
  {
    Poll(l, keys[p..n], worker)
  }

  /** It starts with that visit. */
  lemma Visit(l: Lists, keys: seq<Key>, p: nat, n: nat, worker: Id)
    requires p < n <= |keys|
    ensures var q, rest := Queued(l, keys[p]), Rest(l, keys, p + 1, n, worker);
            Rest(l, keys, p, n, worker) == if q == [] then rest
                                           else if q[|q| - 1].Some? then Polled(q[|q| - 1], AfterMove(l, keys[p], worker))
                                           else Rest(AfterMove(l, keys[p], worker), keys, p + 1, n, worker)
  {
    assert keys[p..n][1..] == keys[p + 1..n];
  }

  lemma FirstFailure(fails: nat -> bool, count: nat) returns (n: nat)
    ensures n <= count && (n < count ==> fails(n)) && forall m :: 0 <= m < n ==> !fails(m)
  {
    n := 0;
    while n < count && !fails(n)
      invariant n <= count && forall m :: 0 <= m < n ==> !fails(m)
    {
      n := n + 1;
    }
  }

  /** A cycle that did not fail is a whole one. */
  lemma WholeCycle(l: Lists, keys: seq<Key>, n: nat, worker: Id)
    requires n <= |keys| && (n < |keys| ==> Poll(l, keys[..n], worker).found.Some?)
    ensures Poll(l, keys[..n], worker) == Poll(l, keys, worker)
  {
    if n < |keys| {
      PollPrefix(l, keys, n, worker);
    } else {
      assert keys[..n] == keys;
    }
  }

  lemma {:induction false} ReachFarther(l: Lists, ids: seq<Id>, n: nat, m: nat)
    requires Reachable(l, ids, n) && n <= m
    ensures Reachable(l, ids, m)
    decreases m - n
  {
    if n < m {
      ReachMore(l, ids, n);
      ReachFarther(l, ids, n + 1, m);
    }
  }
}
