/** The weighted permutation of tenants behind fair dequeuing, and the worker's weight cache. */
module Shuffle {
  import opened Types

  datatype TenantWeight = TenantWeight(id: Id, weight: int)

  ghost predicate Positive(ws: seq<TenantWeight>) {
    forall i :: 0 <= i < |ws| ==> ws[i].weight > 0
  }

  function Total(ws: seq<TenantWeight>): int {
    if ws == [] then 0 else Total(ws[..|ws| - 1]) + ws[|ws| - 1].weight
  }

  function Ids(ws: seq<TenantWeight>): seq<Id> {
    seq(|ws|, i requires 0 <= i < |ws| => ws[i].id)
  }

  lemma {:induction false} TotalMonotone(ws: seq<TenantWeight>, i: nat, j: nat)
    requires Positive(ws) && i <= j <= |ws|
    ensures 0 <= Total(ws[..i]) <= Total(ws[..j])
    ensures i < j ==> Total(ws[..i]) < Total(ws[..j])
    decreases j
  {
    if i < j {
      assert ws[..j][..j - 1] == ws[..j - 1];
      TotalMonotone(ws, i, j - 1);
    } else if i > 0 {
      assert ws[..i][..i - 1] == ws[..i - 1];
      TotalMonotone(ws, i - 1, i - 1);
    }
  }

  lemma TotalPositive(ws: seq<TenantWeight>)
    requires Positive(ws) && ws != []
    ensures Total(ws) > 0
  {
    TotalMonotone(ws, 0, |ws|);
    assert ws[..|ws|] == ws;
  }

  /** Draw `r` falls in the stretch of tenant `i`. */
  ghost predicate Hits(ws: seq<TenantWeight>, r: int, i: nat)
    requires i < |ws|
  {
    Total(ws[..i]) <= r < Total(ws[..i + 1])
  }

  lemma HitsOnce(ws: seq<TenantWeight>, r: int, i: nat, j: nat)
    requires Positive(ws) && i < |ws| && j < |ws| && Hits(ws, r, i) && Hits(ws, r, j)
    ensures i == j
  {
    if i < j {
      TotalMonotone(ws, i + 1, j);
    } else if j < i {
      TotalMonotone(ws, j + 1, i);
    }
  }

  function Range(a: int, b: int): (s: set<int>)
    requires a <= b
    ensures |s| == b - a
    ensures forall r :: r in s <==> a <= r < b
    decreases b - a
  {
    if a == b then {} else Range(a, b - 1) + {b - 1}
  }

  /** Out of `Total(ws)` equally likely draws, exactly `weight` many pick tenant `i`. */
  lemma DrawsPerTenant(ws: seq<TenantWeight>, i: nat)
    requires Positive(ws) && i < |ws|
    ensures |set r | 0 <= r < Total(ws) && Hits(ws, r, i)| == ws[i].weight
  {
    TotalMonotone(ws, i, |ws|);
    TotalMonotone(ws, i + 1, |ws|);
    assert ws[..|ws|] == ws && ws[..i + 1][..i] == ws[..i];
    assert (set r | 0 <= r < Total(ws) && Hits(ws, r, i)) == Range(Total(ws[..i]), Total(ws[..i + 1]));
  }

  function PickIndex(ws: seq<TenantWeight>, r: int): (i: nat)
    requires Positive(ws) && 0 <= r < Total(ws)
    ensures i < |ws| && Hits(ws, r, i)
  {
    var n := |ws| - 1;
    assert ws[..n + 1] == ws;
    if Total(ws[..n]) <= r then n
    else
      var i := PickIndex(ws[..n], r);
      assert ws[..n][..i] == ws[..i] && ws[..n][..i + 1] == ws[..i + 1];
      i
  }

  function Without(ws: seq<TenantWeight>, i: nat): seq<TenantWeight>
    requires i < |ws|
  {
    ws[..i] + ws[i + 1..]
  }

  datatype Round = Round(remaining: seq<TenantWeight>, order: seq<Id>)

  /** The tenants still waiting and the order so far, after some draws. */
  function After(ws: seq<TenantWeight>, draws: seq<int>): (a: Round)
    requires Positive(ws)
    ensures Positive(a.remaining)
  {
    if draws == [] then Round(ws, [])
    else
      var a := After(ws, draws[..|draws| - 1]);
      var r := draws[|draws| - 1];
      if 0 <= r < Total(a.remaining)
      then var i := PickIndex(a.remaining, r); Round(Without(a.remaining, i), a.order + [a.remaining[i].id])
      else a
  }

  lemma Extract(ids: seq<Id>, i: nat)
    requires i < |ids|
    ensures multiset(ids) == multiset{ids[i]} + multiset(ids[..i] + ids[i + 1..])
  {
    assert ids == ids[..i] + [ids[i]] + ids[i + 1..];
  }

  lemma WithoutBag(ws: seq<TenantWeight>, i: nat)
    requires i < |ws|
    ensures multiset(Ids(ws)) == multiset{ws[i].id} + multiset(Ids(Without(ws, i)))
  {
    Extract(Ids(ws), i);
    assert Ids(Without(ws, i)) == Ids(ws)[..i] + Ids(ws)[i + 1..];
  }

  /** One more draw, hitting tenant `i` of those remaining. */
  lemma DrawOnce(ws: seq<TenantWeight>, draws: seq<int>, r: int, i: nat)
    requires Positive(ws)
    requires i < |After(ws, draws).remaining| && Hits(After(ws, draws).remaining, r, i)
    requires 0 <= r < Total(After(ws, draws).remaining)
    ensures var a := After(ws, draws);
            After(ws, draws + [r]) == Round(Without(a.remaining, i), a.order + [a.remaining[i].id])
  {
    var rem := After(ws, draws).remaining;
    HitsOnce(rem, r, i, PickIndex(rem, r));
    assert (draws + [r])[..|draws|] == draws;
  }

  /** What `rand.Intn` promises of its k-th result for n. */
  ghost predicate Random(intn: (nat, int) -> int) { forall k, n :: n > 0 ==> 0 <= intn(k, n) < n }

  /** Round `k`: the draw is what `intn` gives for the total weight of the tenants still waiting, and the tenant
      placed k-th is the one whose stretch of the cumulative weights it hits. */
  ghost predicate DrawnAt(ws: seq<TenantWeight>, intn: (nat, int) -> int, draws: seq<int>, order: seq<Id>, k: nat)
    requires Positive(ws) && k < |draws| == |order|
  {
    var rem := After(ws, draws[..k]).remaining;
    && draws[k] == intn(k, Total(rem))
    && exists i :: 0 <= i < |rem| && Hits(rem, draws[k], i) && order[k] == rem[i].id
  }

  ghost predicate Drawn(ws: seq<TenantWeight>, intn: (nat, int) -> int, draws: seq<int>, order: seq<Id>)
    requires Positive(ws) && |draws| == |order|
  {
    forall k :: 0 <= k < |draws| ==> DrawnAt(ws, intn, draws, order, k)
  }

  lemma DrawnNext(ws: seq<TenantWeight>, intn: (nat, int) -> int, draws: seq<int>, order: seq<Id>, r: int, i: nat)
    requires Positive(ws) && |draws| == |order| && Drawn(ws, intn, draws, order)
    requires var rem := After(ws, draws).remaining; i < |rem| && Hits(rem, r, i) && r == intn(|draws|, Total(rem))
    ensures Drawn(ws, intn, draws + [r], order + [After(ws, draws).remaining[i].id])
  {
    var draws', order' := draws + [r], order + [After(ws, draws).remaining[i].id];
    forall k | 0 <= k < |draws'|
      ensures DrawnAt(ws, intn, draws', order', k)
    {
      if k < |draws| {
        assert draws'[..k] == draws[..k];
        assert DrawnAt(ws, intn, draws, order, k);
      } else {
        assert draws'[..k] == draws;
      }
    }
  }

  lemma WithoutPositive(ws: seq<TenantWeight>, i: nat)
    requires Positive(ws) && i < |ws|
    ensures Positive(Without(ws, i))
  {
  }

  /** The order in which the tenants `ws` come out from round `k` on when `rand.Intn` answers with `intn`. */
  function ShuffleFrom(ws: seq<TenantWeight>, intn: (nat, int) -> int, k: nat): seq<Id>
    requires Positive(ws)
    decreases |ws|
  {
    var r := intn(k, Total(ws));
    if ws == [] || !(0 <= r < Total(ws)) then []
    else
      var i := PickIndex(ws, r);
      WithoutPositive(ws, i);
      [ws[i].id] + ShuffleFrom(Without(ws, i), intn, k + 1)
  }

  lemma ShuffleOnce(ws: seq<TenantWeight>, intn: (nat, int) -> int, order: seq<Id>)
    requires Positive(ws) && ws != [] && 0 <= intn(|order|, Total(ws)) < Total(ws)
    ensures var i := PickIndex(ws, intn(|order|, Total(ws)));
            && Positive(Without(ws, i))
            && order + ShuffleFrom(ws, intn, |order|)
               == (order + [ws[i].id]) + ShuffleFrom(Without(ws, i), intn, |order| + 1)
  {
    var i := PickIndex(ws, intn(|order|, Total(ws)));
    WithoutPositive(ws, i);
    Regroup(order, ws[i].id, ShuffleFrom(Without(ws, i), intn, |order| + 1));
  }

  lemma Regroup(a: seq<Id>, x: Id, b: seq<Id>)
    ensures a + ([x] + b) == (a + [x]) + b
  {
  }

  /** Whatever the draws, ordered and remaining tenants together are the tenants given, duplicates included. */
  lemma {:induction false} DrawsPermute(ws: seq<TenantWeight>, draws: seq<int>)
    requires Positive(ws)
    ensures multiset(After(ws, draws).order) + multiset(Ids(After(ws, draws).remaining)) == multiset(Ids(ws))
  {
    if draws != [] {
      var a := After(ws, draws[..|draws| - 1]);
      DrawsPermute(ws, draws[..|draws| - 1]);
      var r := draws[|draws| - 1];
      if 0 <= r < Total(a.remaining) {
        WithoutBag(a.remaining, PickIndex(a.remaining, r));
      }
    }
  }

  /** Removes element `i` of the first `len` elements of `buf` by moving the rest down. */
  method RemoveAt(buf: array<TenantWeight>, len: nat, i: nat)
    requires i < len <= buf.Length
    modifies buf
    ensures buf[..len - 1] == old(buf[..i]) + old(buf[i + 1..len])
  {
    var k := i;
    while k < len - 1
      invariant i <= k <= len - 1
      invariant forall n :: 0 <= n < i ==> buf[n] == old(buf[n])
      invariant forall n :: i <= n < k ==> buf[n] == old(buf[n + 1])
      invariant forall n :: k <= n < len ==> buf[n] == old(buf[n])
    {
      buf[k] := buf[k + 1];
      k := k + 1;
    }
  }

  /** The inner loop: the tenant whose stretch of the cumulative weights contains `r`. */
  method Pick(buf: array<TenantWeight>, len: nat, r: int) returns (i: nat)
    requires len <= buf.Length && Positive(buf[..len]) && 0 <= r < Total(buf[..len])
    ensures i < len && Hits(buf[..len], r, i)
  {
    ghost var ws := buf[..len];
    assert ws[..len] == ws;
    var cum := 0;
    i := 0;
    while i < len
      invariant i <= len && cum == Total(ws[..i]) && cum <= r
      invariant ws == buf[..len]
    {
      assert ws[..i + 1][..i] == ws[..i];
      cum := cum + buf[i].weight;
      if r < cum {
        return;
      }
      i := i + 1;
    }
    assert false;
  }

  method SumWeights(buf: array<TenantWeight>, len: nat) returns (total: int)
    requires len <= buf.Length
    ensures total == Total(buf[..len])
  {
    total := 0;
    var k := 0;
    while k < len
      invariant k <= len && total == Total(buf[..k])
    {
      assert buf[..k + 1][..k] == buf[..k];
      total := total + buf[k].weight;
      k := k + 1;
    }
  }

  /** One round: picks by draw `r` and closes the gap. */
  method TakeOne(buf: array<TenantWeight>, len: nat, r: int) returns (id: Id)
    requires len <= buf.Length && Positive(buf[..len]) && 0 <= r < Total(buf[..len])
    modifies buf
    ensures len > 0
    ensures var ws := old(buf[..len]);
            var i := PickIndex(ws, r);
            buf[..len - 1] == Without(ws, i) && id == ws[i].id
  {
    ghost var ws := buf[..len];
    var i := Pick(buf, len, r);
    HitsOnce(ws, r, i, PickIndex(ws, r));
    id := buf[i].id;
    RemoveAt(buf, len, i);
    assert ws[..i] == old(buf[..i]) && ws[i + 1..] == old(buf[i + 1..len]);
  }

  /** `weightedShuffle`; `intn` stands for the successive results of `rand.Intn`. With positive
      weights no draw is asked of an empty range, every round picks somebody, and the order that
      comes out is the one the draws determine. */
  method WeightedShuffle(tenants: seq<TenantWeight>, intn: (nat, int) -> int) returns (order: seq<Id>, draws: seq<int>)
    requires Positive(tenants)
    requires Random(intn)
    ensures |draws| == |order| == |tenants| && Drawn(tenants, intn, draws, order)
    ensures After(tenants, draws) == Round([], order) && order == ShuffleFrom(tenants, intn, 0)
    ensures multiset(order) == multiset(Ids(tenants))
  {
    var buf := new TenantWeight[|tenants|](i requires 0 <= i < |tenants| => tenants[i]);
    var len := |tenants|;
    assert buf[..len] == tenants;
    order, draws := [], [];
    while len > 0
      invariant len <= buf.Length && |draws| == |order| == |tenants| - len
      invariant Drawn(tenants, intn, draws, order)
      invariant Positive(buf[..len]) && order + ShuffleFrom(buf[..len], intn, |order|) == ShuffleFrom(tenants, intn, 0)
      invariant After(tenants, draws) == Round(buf[..len], order)
      decreases len
    {
      ghost var ws := buf[..len];
      assert Positive(ws) by {
        assert ws == After(tenants, draws).remaining;
      }
      var total := SumWeights(buf, len);
      TotalPositive(ws);
      var r := intn(|order|, total);
      var id := TakeOne(buf, len, r);
      DrawOnce(tenants, draws, r, PickIndex(ws, r));
      DrawnNext(tenants, intn, draws, order, r, PickIndex(ws, r));
      ShuffleOnce(ws, intn, order);
      order, draws := order + [id], draws + [r];
      len := len - 1;
    }
    DrawsPermute(tenants, draws);
  }

  datatype Tenant = Tenant(id: Id, weight: int)

  /** The worker's cached tenant list, replaced by `loadTenants`. */
  class TenantCache {
    var tenants: seq<TenantWeight>

    constructor ()
      ensures tenants == []
    {
      tenants := [];
    }

    /** `rows` is the result of GetTenants, or None when the query failed. */
    method Load(rows: Option<seq<Tenant>>)
      modifies this
      ensures rows.None? ==> tenants == old(tenants)
      ensures rows.Some? ==>
                && |tenants| == |rows.value|
                && (forall i :: 0 <= i < |tenants| ==>
                      && tenants[i].id == rows.value[i].id
                      && tenants[i].weight == if rows.value[i].weight > 0 then rows.value[i].weight else 100)
      ensures old(Positive(tenants)) ==> Positive(tenants)
      ensures rows.Some? ==> Positive(tenants)
    {
      if rows.None? {
        return;
      }
      var weights: seq<TenantWeight> := [];
      var i := 0;
      while i < |rows.value|
        invariant i <= |rows.value| && |weights| == i
        invariant forall k :: 0 <= k < i ==>
                    && weights[k].id == rows.value[k].id
                    && weights[k].weight == if rows.value[k].weight > 0 then rows.value[k].weight else 100
      {
        var w := rows.value[i].weight;
        if w <= 0 {
          w := 100;
        }
        weights := weights + [TenantWeight(rows.value[i].id, w)];
        i := i + 1;
      }
      tenants := weights;
    }
  }
}
