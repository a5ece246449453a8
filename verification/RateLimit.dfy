/** `internal/ratelimit/ratelimit.go`: the fixed-window limiter over Redis counters that expire. */
module RateLimit {
  import opened Types

  datatype Window = Window(tenant: Id, second: int)

  /** A Redis counter; `expiresAt` is None until EXPIRE has taken effect. */
  datatype Counter = Counter(count: nat, expiresAt: Option<Time>)

  /** One call of Allow: `read` is when it read the clock, `landed` when its INCR reached Redis. The log is in
      the order of the INCRs. */
  datatype Call = Call(tenant: Id, limit: int, read: Time, landed: Time, ok: bool)

  function WindowOf(c: Call): Window { Window(c.tenant, c.read / SECOND) }

  /** Until this moment nothing of the window has expired. */
  function Expiry(w: Window): Time { (w.second + 2) * SECOND }

  predicate Prompt(c: Call) { c.landed < Expiry(WindowOf(c)) }

  /** Calls of the log in one window. */
  function Calls(log: seq<Call>, w: Window): nat {
    if log == [] then 0 else Calls(log[..|log| - 1], w) + (if WindowOf(log[|log| - 1]) == w then 1 else 0)
  }

  /** Calls of the log in one window that were allowed. */
  function Allowed(log: seq<Call>, w: Window): nat {
    if log == [] then 0
    else Allowed(log[..|log| - 1], w)
         + (if WindowOf(log[|log| - 1]) == w && log[|log| - 1].ok then 1 else 0)
  }

  /** The k-th call of a window is allowed iff k is within the limit it was made with, provided its INCR landed
      before the window's expiry. */
  ghost predicate Fair(log: seq<Call>) {
    forall i :: 0 <= i < |log| && Prompt(log[i]) ==>
      (log[i].ok <==> Calls(log[..i + 1], WindowOf(log[i])) <= log[i].limit)
  }

  /** Before its expiry a window's counter is exact, and it will not expire sooner. */
  ghost predicate Exact(counters: map<Window, Counter>, log: seq<Call>, w: Window, now: Time) {
    && (now < Expiry(w) ==> Calls(log, w) == if w in counters then counters[w].count else 0)
    && (w in counters && counters[w].expiresAt.Some? ==> counters[w].expiresAt.value >= Expiry(w))
  }

  /** The stored counters describe the log. */
  ghost predicate AllExact(counters: map<Window, Counter>, log: seq<Call>, now: Time) {
    forall w :: Exact(counters, log, w, now)
  }

  predicate Alive(c: Counter, now: Time) { c.expiresAt.None? || now < c.expiresAt.value }

  /** Redis and the calls it has served, in the order of its own clock. */
  class Limiter {
    var counters: map<Window, Counter>
    var clock: Time
    ghost var log: seq<Call>

    ghost predicate Valid()
      reads this
    {
      Fair(log) && AllExact(counters, log, clock)
    }

    constructor (now: Time)
      ensures Valid() && log == [] && clock == now
    {
      counters, log, clock := map[], [], now;
    }

    /** INCR at a later moment, by a call that read the clock at `read` and will judge the count against `limit`.
        The count is exact if the window has not reached its expiry, however the calls interleave; on a key
        that has expired it starts again at one. */
    method Incr(tenant: Id, limit: int, read: Time, now: Time) returns (count: int)
      requires Valid() && clock <= now && read <= now
      modifies this
      ensures Valid() && clock == now && log == old(log) + [Call(tenant, limit, read, now, count <= limit)]
      ensures var w := Window(tenant, read / SECOND);
              w in counters && counters[w].count == count
              && counters[w].expiresAt == if w in old(counters) && Alive(old(counters)[w], now) then old(counters)[w].expiresAt else None
      ensures now < Expiry(Window(tenant, read / SECOND)) ==> count == Calls(old(log), Window(tenant, read / SECOND)) + 1
      ensures var w := Window(tenant, read / SECOND);
              count == if w in old(counters) && Alive(old(counters)[w], now) then old(counters)[w].count + 1 else 1
    {
      var w := Window(tenant, read / SECOND);
      var expiresAt := None;
      count := 1;
      LiveCount(counters, log, w, clock, now);
      if w in counters && Alive(counters[w], now) {
        count, expiresAt := counters[w].count + 1, counters[w].expiresAt;
      }
      ghost var call := Call(tenant, limit, read, now, count <= limit);
      IncrExact(counters, log, call, clock, Counter(count, expiresAt));
      FairAppend(log, call);
      counters, clock, log := counters[w := Counter(count, expiresAt)], now, log + [call];
    }

    /** EXPIRE two seconds from now, after any number of other commands; a key that is gone stays gone. */
    method Expire(tenant: Id, read: Time, now: Time)
      requires Valid() && clock <= now && read <= now
      modifies this
      ensures Valid() && clock == now && log == old(log)
      ensures var w := Window(tenant, read / SECOND);
              if w in old(counters) && Alive(old(counters)[w], now)
              then counters == old(counters)[w := Counter(old(counters)[w].count, Some(now + 2000))]
              else counters == old(counters)
    {
      var w := Window(tenant, read / SECOND);
      Later(counters, log, clock, now);
      if w in counters && Alive(counters[w], now) {
        ExpireExact(counters, log, w, now, now + 2 * SECOND);
        counters := counters[w := counters[w].(expiresAt := Some(now + 2 * SECOND))];
      }
      clock := now;
    }

    /** Allow with nobody else's commands between its own: the clock is read at `read`, INCR lands at `landed` and
        EXPIRE, if it takes, at `expired`. */
    method Allow(tenant: Id, limit: int, read: Time, landed: Time, expired: Option<Time>) returns (ok: bool)
      requires Valid() && clock <= landed && read <= landed && (expired.Some? ==> landed <= expired.value)
      modifies this
      ensures Valid() && log == old(log) + [Call(tenant, limit, read, landed, ok)]
      ensures var w := Window(tenant, read / 1000);
              w in counters && (w !in old(counters) && expired.Some? ==>
                                  counters[w].expiresAt == Some(expired.value + 2000))
      ensures landed < Expiry(Window(tenant, read / SECOND)) ==>
                (ok <==> Calls(old(log), Window(tenant, read / SECOND)) < limit)
    {
      var count := Incr(tenant, limit, read, landed);
      if count == 1 && expired.Some? {
        Expire(tenant, read, expired.value);
      }
      ok := count <= limit;
    }
  }

  lemma Later(counters: map<Window, Counter>, log: seq<Call>, since: Time, now: Time)
    requires AllExact(counters, log, since) && since <= now
    ensures AllExact(counters, log, now)
  {
    forall w
      ensures Exact(counters, log, w, now)
    {
      assert Exact(counters, log, w, since);
    }
  }

  /** What INCR finds before the expiry is the number of calls so far, none if there is no key. */
  lemma LiveCount(counters: map<Window, Counter>, log: seq<Call>, w: Window, since: Time, now: Time)
    requires AllExact(counters, log, since) && since <= now
    ensures now < Expiry(w) ==>
              Calls(log, w) == if w in counters && Alive(counters[w], now) then counters[w].count else 0
    ensures w in counters && counters[w].expiresAt.Some? ==> counters[w].expiresAt.value >= Expiry(w)
  {
    assert Exact(counters, log, w, since);
  }

  lemma IncrExact(counters: map<Window, Counter>, log: seq<Call>, c: Call, since: Time, counter: Counter)
    requires AllExact(counters, log, since) && since <= c.landed
    requires Prompt(c) ==> counter.count == Calls(log, WindowOf(c)) + 1
    requires counter.expiresAt.Some? ==> counter.expiresAt.value >= Expiry(WindowOf(c))
    ensures AllExact(counters[WindowOf(c) := counter], log + [c], c.landed)
  {
    var counters', log' := counters[WindowOf(c) := counter], log + [c];
    forall w
      ensures Exact(counters', log', w, c.landed)
    {
      assert Exact(counters, log, w, since);
      CallsAppend(log, c, w);
    }
  }

  lemma ExpireExact(counters: map<Window, Counter>, log: seq<Call>, w: Window, now: Time, at: Time)
    requires AllExact(counters, log, now) && w in counters && at >= Expiry(w)
    ensures AllExact(counters[w := counters[w].(expiresAt := Some(at))], log, now)
  {
    var counters' := counters[w := counters[w].(expiresAt := Some(at))];
    forall v
      ensures Exact(counters', log, v, now)
    {
      assert Exact(counters, log, v, now);
    }
  }

  /** Logging one call adds one to its own window and changes no other. */
  lemma CallsAppend(log: seq<Call>, c: Call, w: Window)
    ensures Calls(log + [c], w) == Calls(log, w) + (if WindowOf(c) == w then 1 else 0)
  {
    assert (log + [c])[..|log|] == log;
  }

  lemma FairAppend(log: seq<Call>, c: Call)
    requires Fair(log) && (Prompt(c) ==> (c.ok <==> Calls(log, WindowOf(c)) + 1 <= c.limit))
    ensures Fair(log + [c])
  {
    var more := log + [c];
    forall i | 0 <= i < |more| && Prompt(more[i])
      ensures more[i].ok <==> Calls(more[..i + 1], WindowOf(more[i])) <= more[i].limit
    {
      if i < |log| {
        assert more[..i + 1] == log[..i + 1];
      } else {
        assert more[..i + 1] == more;
        CallsAppend(log, c, WindowOf(c));
      }
    }
  }

  // ---- what a fair log allows ----

  /** The tenant's calls of the seconds s, ..., s + k - 1 are made with this limit, and their INCRs land in time. */
  ghost predicate Constant(log: seq<Call>, tenant: Id, limit: nat, s: int, k: nat) {
    forall i :: 0 <= i < |log| && log[i].tenant == tenant && s <= log[i].read / SECOND < s + k ==>
      log[i].limit == limit && Prompt(log[i])
  }

  lemma FairPrefix(log: seq<Call>, n: nat)
    requires Fair(log) && n <= |log|
    ensures Fair(log[..n])
  {
    forall i | 0 <= i < n && Prompt(log[i])
      ensures log[i].ok <==> Calls(log[..n][..i + 1], WindowOf(log[i])) <= log[i].limit
    {
      assert log[..n][..i + 1] == log[..i + 1];
    }
  }

  /** Each window allows exactly its first min(limit, calls) calls. */
  lemma {:induction false} WindowExact(log: seq<Call>, w: Window, limit: nat)
    requires Fair(log) && Constant(log, w.tenant, limit, w.second, 1)
    ensures Allowed(log, w) == Min(limit, Calls(log, w))
  {
    if log != [] {
      var n := |log| - 1;
      FairPrefix(log, n);
      WindowExact(log[..n], w, limit);
      assert log[..n + 1] == log;
    }
  }

  /** Allowed calls of a tenant in the half-open interval [a, b). */
  function AllowedIn(log: seq<Call>, tenant: Id, a: Time, b: Time): nat {
    if log == [] then 0
    else AllowedIn(log[..|log| - 1], tenant, a, b)
         + (var c := log[|log| - 1]; if c.tenant == tenant && c.ok && a <= c.read < b then 1 else 0)
  }

  /** Allowed calls in the seconds s, ..., s + k - 1. */
  function AllowedOver(log: seq<Call>, tenant: Id, s: int, k: nat): nat {
    if k == 0 then 0 else AllowedOver(log, tenant, s, k - 1) + Allowed(log, Window(tenant, s + k - 1))
  }

  lemma {:induction false} OverEmpty(tenant: Id, s: int, k: nat)
    ensures AllowedOver([], tenant, s, k) == 0
  {
    if k > 0 {
      OverEmpty(tenant, s, k - 1);
    }
  }

  lemma {:induction false} OverAppend(log: seq<Call>, tenant: Id, s: int, k: nat)
    requires log != []
    ensures var c := log[|log| - 1];
            AllowedOver(log, tenant, s, k) == AllowedOver(log[..|log| - 1], tenant, s, k)
              + (if c.tenant == tenant && c.ok && s <= c.read / SECOND < s + k then 1 else 0)
  {
    if k > 0 {
      OverAppend(log, tenant, s, k - 1);
    }
  }

  /** An interval inside k whole seconds allows no more than those seconds do. */
  lemma {:induction false} IntervalInSeconds(log: seq<Call>, tenant: Id, a: Time, b: Time, s: int, k: nat)
    requires s * SECOND <= a && b <= (s + k) * SECOND
    ensures AllowedIn(log, tenant, a, b) <= AllowedOver(log, tenant, s, k)
  {
    if log == [] {
      OverEmpty(tenant, s, k);
    } else {
      IntervalInSeconds(log[..|log| - 1], tenant, a, b, s, k);
      OverAppend(log, tenant, s, k);
      var c := log[|log| - 1];
      if a <= c.read < b {
        assert s <= c.read / SECOND < s + k;
      }
    }
  }

  lemma OneMore(k: nat, limit: nat)
    requires k > 0
    ensures k * limit == (k - 1) * limit + limit
  {
  }

  lemma {:induction false} SecondsBound(log: seq<Call>, tenant: Id, s: int, k: nat, limit: nat)
    requires Fair(log) && Constant(log, tenant, limit, s, k)
    ensures AllowedOver(log, tenant, s, k) <= k * limit
  {
    if k > 0 {
      SecondsBound(log, tenant, s, k - 1, limit);
      WindowExact(log, Window(tenant, s + k - 1), limit);
      OneMore(k, limit);
    }
  }

  /** Any interval touching k seconds allows at most k * limit calls ... */
  lemma IntervalBound(log: seq<Call>, tenant: Id, a: Time, b: Time, s: int, k: nat, limit: nat)
    requires Fair(log) && Constant(log, tenant, limit, s, k)
    requires s * SECOND <= a && b <= (s + k) * SECOND
    ensures AllowedIn(log, tenant, a, b) <= k * limit
  {
    IntervalInSeconds(log, tenant, a, b, s, k);
    SecondsBound(log, tenant, s, k, limit);
  }

  /** ... so any one-second interval allows at most twice the limit. */
  lemma OneSecondBound(log: seq<Call>, tenant: Id, a: Time, limit: nat)
    requires Fair(log) && Constant(log, tenant, limit, a / SECOND, 2)
    ensures AllowedIn(log, tenant, a, a + 1000) <= 2 * limit
  {
    IntervalBound(log, tenant, a, a + SECOND, a / SECOND, 2, limit);
  }
}
