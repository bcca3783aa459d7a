/** Sums over finite maps. */
module MapSum {
  ghost function Sum<K(!new)>(m: map<K, nat>): nat {
    if m == map[] then 0
    else
      var k :| k in m;
      m[k] + Sum(m - {k})
  }

  /** Any key may be split off first. */
  lemma {:induction false} SumWithout<K(!new)>(m: map<K, nat>, k: K)
    requires k in m
    ensures Sum(m) == m[k] + Sum(m - {k})
    decreases m
  {
    var c :| c in m && Sum(m) == m[c] + Sum(m - {c});
    if c != k {
      var rest := m - {c};
      SumWithout(rest, k);
      SumWithout(m - {k}, c);
      assert rest - {k} == m - {k} - {c};
    }
  }

  lemma SumInsert<K(!new)>(m: map<K, nat>, k: K, v: nat)
    ensures Sum(m[k := v]) == v + Sum(m - {k})
  {
    SumWithout(m[k := v], k);
    assert m[k := v] - {k} == m - {k};
  }

  lemma SumRemove<K(!new)>(m: map<K, nat>, k: K)
    ensures Sum(m - {k}) <= Sum(m)
    ensures Sum(m) == Sum(m - {k}) + if k in m then m[k] else 0
  {
    if k in m {
      SumWithout(m, k);
    } else {
      assert m - {k} == m;
    }
  }

  lemma {:induction false} SumBound<K(!new)>(m: map<K, nat>, bound: nat)
    requires forall k :: k in m ==> m[k] <= bound
    ensures Sum(m) <= |m| * bound
    decreases m
  {
    if m != map[] {
      var k :| k in m;
      SumWithout(m, k);
      SumBound(m - {k}, bound);
      SizeWithout(m, k);
      OneMore(|m - {k}|, bound);
    }
  }

  lemma OneMore(n: nat, bound: nat)
    ensures (n + 1) * bound == n * bound + bound
  {
  }

  lemma SizeWithout<K(!new)>(m: map<K, nat>, k: K)
    requires k in m
    ensures |m| == |m - {k}| + 1
  {
    assert m.Keys == (m - {k}).Keys + {k};
  }
}

/** evictFor: oldest files go first until the new object fits. */
module Eviction {
  import opened MapSum

  type Path = string
  type Time = int

  datatype File = File(content: seq<nat>, mtime: Time)

  type Disk = map<Path, File>

  function Sizes(disk: Disk): map<Path, nat> { map p | p in disk :: |disk[p].content| }

  ghost function Total(disk: Disk): nat { Sum(Sizes(disk)) }

  lemma TotalWithout(disk: Disk, p: Path)
    requires p in disk
    ensures Total(disk) == |disk[p].content| + Total(disk - {p})
  {
    SumWithout(Sizes(disk), p);
    assert Sizes(disk) - {p} == Sizes(disk - {p});
  }

  lemma TotalAdd(disk: Disk, p: Path, f: File)
    ensures Total(disk[p := f]) <= |f.content| + Total(disk)
    ensures p !in disk ==> Total(disk[p := f]) == |f.content| + Total(disk)
  {
    SumInsert(Sizes(disk), p, |f.content|);
    SumRemove(Sizes(disk), p);
    assert Sizes(disk[p := f]) == Sizes(disk)[p := |f.content|];
  }

  /** What sort.Slice leaves: every file once, none before an older one; ties in any order. */
  ghost predicate OldestFirst(disk: Disk, order: seq<Path>) {
    && (forall p :: p in disk <==> p in order)
    && (forall i, j :: 0 <= i < j < |order| ==> order[i] != order[j])
    && (forall i, j :: 0 <= i < j < |order| && order[i] in disk && order[j] in disk ==>
          disk[order[i]].mtime <= disk[order[j]].mtime)
  }

  /** The disk after the first n of the order were tried; `stuck` files cannot be removed. */
  function Left(disk: Disk, order: seq<Path>, stuck: set<Path>, n: nat): Disk
    requires n <= |order|
  {
    if n == 0 then disk
    else
      var before := Left(disk, order, stuck, n - 1);
      if order[n - 1] in stuck then before else before - {order[n - 1]}
  }

  lemma {:induction false} LeftKeys(disk: Disk, order: seq<Path>, stuck: set<Path>, n: nat)
    requires n <= |order|
    ensures forall p :: p in Left(disk, order, stuck, n) <==> p in disk && (p in stuck || p !in order[..n])
    ensures forall p :: p in Left(disk, order, stuck, n) ==> Left(disk, order, stuck, n)[p] == disk[p]
  {
    if n > 0 {
      LeftKeys(disk, order, stuck, n - 1);
      assert order[..n] == order[..n - 1] + [order[n - 1]];
    }
  }

  ghost predicate Fits(disk: Disk, need: nat, maxBytes: nat) { Total(disk) + need <= maxBytes }

  /**
   Removing the first n is what the eviction does: nothing shorter would have
   been enough, and it stops short of the whole order only because it is enough.
   */
  ghost predicate ShortestPrefix(disk: Disk, order: seq<Path>, stuck: set<Path>, need: nat, maxBytes: nat, n: nat) {
    && n <= |order|
    && (forall m: nat :: m < n ==> !Fits(Left(disk, order, stuck, m), need, maxBytes))
    && (n < |order| ==> Fits(Left(disk, order, stuck, n), need, maxBytes))
  }

  /** The outcome of evictFor, for whatever oldest-first order the sort chose. */
  ghost predicate Evicts(disk: Disk, order: seq<Path>, stuck: set<Path>, need: nat, maxBytes: nat, after: Disk, ok: bool) {
    && (exists n: nat :: ShortestPrefix(disk, order, stuck, need, maxBytes, n) && after == Left(disk, order, stuck, n))
    && (ok <==> Fits(after, need, maxBytes))
  }

  /** The walk's running total. */
  method Measure(disk: Disk, walk: seq<Path>) returns (total: nat)
    requires (forall p :: p in disk <==> p in walk) && forall i, j :: 0 <= i < j < |walk| ==> walk[i] != walk[j]
    ensures total == Total(disk)
  {
    total := 0;
    ghost var left := disk;
    for i := 0 to |walk|
      invariant forall p :: p in left <==> p in disk && p in walk[i..]
      invariant forall p :: p in left ==> left[p] == disk[p]
      invariant total + Total(left) == Total(disk)
    {
      var p := walk[i];
      assert walk[i..][0] == p;
      TotalWithout(left, p);
      total := total + |disk[p].content|;
      left := left - {p};
      assert forall q :: q in walk[i..] <==> q == p || q in walk[i + 1..];
    }
    assert left == map[];
  }

  method EvictFor(disk: Disk, walk: seq<Path>, order: seq<Path>, stuck: set<Path>, need: nat, maxBytes: nat)
    returns (after: Disk, ok: bool)
    requires (forall p :: p in disk <==> p in walk) && forall i, j :: 0 <= i < j < |walk| ==> walk[i] != walk[j]
    requires OldestFirst(disk, order)
    ensures Evicts(disk, order, stuck, need, maxBytes, after, ok)
  {
    hide Sum, OldestFirst;
    var total := Measure(disk, walk);
    after := disk;
    if total + need <= maxBytes {
      assert ShortestPrefix(disk, order, stuck, need, maxBytes, 0);
      return after, true;
    }
    for i := 0 to |order|
      invariant after == Left(disk, order, stuck, i) && total == Total(after)
      invariant forall m: nat :: m < i ==> !Fits(Left(disk, order, stuck, m), need, maxBytes)
    {
      if total + need <= maxBytes {
        assert ShortestPrefix(disk, order, stuck, need, maxBytes, i);
        return after, true;
      }
      var p := order[i];
      if p !in stuck {
        NotYetTried(disk, order, stuck, i);
        TotalWithout(after, p);
        total := total - |after[p].content|;
        after := after - {p};
      }
    }
    assert ShortestPrefix(disk, order, stuck, need, maxBytes, |order|);
    ok := total + need <= maxBytes;
  }

  lemma NotYetTried(disk: Disk, order: seq<Path>, stuck: set<Path>, i: nat)
    requires OldestFirst(disk, order) && i < |order|
    ensures order[i] in Left(disk, order, stuck, i)
  {
    LeftKeys(disk, order, stuck, i);
  }

  /** When removals succeed, eviction fails exactly when the object alone is over the limit. */
  lemma FailsOnlyWhenTooLarge(disk: Disk, order: seq<Path>, need: nat, maxBytes: nat, after: Disk, ok: bool)
    requires OldestFirst(disk, order) && Evicts(disk, order, {}, need, maxBytes, after, ok)
    ensures ok <==> need <= maxBytes
  {
    var n: nat :| ShortestPrefix(disk, order, {}, need, maxBytes, n) && after == Left(disk, order, {}, n);
    if n == |order| {
      LeftKeys(disk, order, {}, n);
      assert order[..n] == order;
      assert Sizes(after) == map[];
    }
  }

  /** The outcome does not depend on anything but the order: one prefix is the shortest. */
  lemma EvictionIsDetermined(disk: Disk, order: seq<Path>, stuck: set<Path>, need: nat, maxBytes: nat,
                             a: Disk, okA: bool, b: Disk, okB: bool)
    requires Evicts(disk, order, stuck, need, maxBytes, a, okA) && Evicts(disk, order, stuck, need, maxBytes, b, okB)
    ensures a == b && okA == okB
  {
    var n: nat :| ShortestPrefix(disk, order, stuck, need, maxBytes, n) && a == Left(disk, order, stuck, n);
    var m: nat :| ShortestPrefix(disk, order, stuck, need, maxBytes, m) && b == Left(disk, order, stuck, m);
    assert !(n < m) && !(m < n);
  }

  /** Every file that goes is at least as old as every removable file that stays. */
  lemma OldestGo(disk: Disk, order: seq<Path>, stuck: set<Path>, need: nat, maxBytes: nat, after: Disk, ok: bool, p: Path, q: Path)
    requires OldestFirst(disk, order) && Evicts(disk, order, stuck, need, maxBytes, after, ok)
    requires p in disk && p !in after && q in after && q !in stuck
    ensures q in disk && disk[p].mtime <= disk[q].mtime
  {
    var n: nat :| ShortestPrefix(disk, order, stuck, need, maxBytes, n) && after == Left(disk, order, stuck, n);
    LeftKeys(disk, order, stuck, n);
    var i :| 0 <= i < n && order[..n][i] == p;
    var j :| 0 <= j < |order| && order[j] == q;
    InPrefix(order, n, j);
    assert n <= j;
  }

  lemma InPrefix(order: seq<Path>, n: nat, j: nat)
    requires n <= |order| && j < |order|
    ensures j < n ==> order[j] in order[..n]
  {
    if j < n {
      assert order[..n][j] == order[j];
    }
  }
}
