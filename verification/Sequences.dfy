/** Lists of ids: counting, filters and first-occurrence deduplication, as the array and Set operations of the source
    order them. */
module Sequences {
  import opened Rows

  predicate NoDuplicates(q: seq<Id>) {
    forall i, j :: 0 <= i < j < |q| ==> q[i] != q[j]
  }

  function ToSet(q: seq<Id>): set<Id> {
    set id | id in q
  }

  lemma DistinctCount(q: seq<Id>)
    requires NoDuplicates(q)
    ensures |ToSet(q)| == |q|
  {
    if q != [] {
      var init, last := q[..|q| - 1], q[|q| - 1];
      DistinctCount(init);
      assert q == init + [last];
      assert ToSet(q) == ToSet(init) + {last};
    }
  }

  lemma SubsetCount(a: set<Id>, b: set<Id>)
    requires a <= b
    ensures |a| <= |b| && |b - a| == |b| - |a|
  {
    assert b == a + (b - a);
  }

  function KeepIn(q: seq<Id>, keep: set<Id>): seq<Id> {
    if q == [] then []
    else (if q[0] in keep then [q[0]] else []) + KeepIn(q[1..], keep)
  }

  function DropIn(q: seq<Id>, drop: set<Id>): seq<Id> {
    if q == [] then []
    else (if q[0] in drop then [] else [q[0]]) + DropIn(q[1..], drop)
  }

  function Take(q: seq<Id>, n: nat): seq<Id> {
    if |q| > n then q[..n] else q
  }

  lemma {:induction false} KeepInIsFilter(q: seq<Id>, keep: set<Id>)
    ensures forall id :: id in KeepIn(q, keep) <==> id in q && id in keep
    ensures NoDuplicates(q) ==> NoDuplicates(KeepIn(q, keep))
  {
    if q != [] {
      KeepInIsFilter(q[1..], keep);
    }
  }

  lemma {:induction false} DropInIsFilter(q: seq<Id>, drop: set<Id>)
    ensures forall id :: id in DropIn(q, drop) <==> id in q && id !in drop
    ensures NoDuplicates(q) ==> NoDuplicates(DropIn(q, drop))
  {
    if q != [] {
      DropInIsFilter(q[1..], drop);
    }
  }

  lemma AppendDisjoint(a: seq<Id>, b: seq<Id>)
    requires NoDuplicates(a) && NoDuplicates(b) && ToSet(a) !! ToSet(b)
    ensures NoDuplicates(a + b) && ToSet(a + b) == ToSet(a) + ToSet(b)
  {
    forall i, j | 0 <= i < j < |a + b|
      ensures (a + b)[i] != (a + b)[j]
    {
      if i < |a| <= j {
        assert a[i] in ToSet(a) && b[j - |a|] in ToSet(b);
      }
    }
  }

  /** `[...new Set(q)]`: first occurrences, in order, after those of `kept`. */
  function DedupAfter(kept: seq<Id>, q: seq<Id>): seq<Id>
    decreases |q|
  {
    if q == [] then kept
    else DedupAfter(if q[0] in kept then kept else kept + [q[0]], q[1..])
  }

  lemma {:induction false} DedupExtends(kept: seq<Id>, q: seq<Id>)
    ensures kept <= DedupAfter(kept, q)
    ensures NoDuplicates(kept) ==> NoDuplicates(DedupAfter(kept, q))
    ensures forall id :: id in DedupAfter(kept, q) <==> id in kept || id in q
    decreases |q|
  {
    if q != [] {
      DedupExtends(if q[0] in kept then kept else kept + [q[0]], q[1..]);
    }
  }

  lemma {:induction false} DedupOfDistinct(kept: seq<Id>, q: seq<Id>, rest: seq<Id>)
    requires NoDuplicates(kept + q)
    ensures DedupAfter(kept, q + rest) == DedupAfter(kept + q, rest)
    decreases |q|
  {
    if q == [] {
      assert q + rest == rest && kept + q == kept;
    } else {
      assert (kept + q)[|kept|] == q[0];
      forall i | 0 <= i < |kept|
        ensures kept[i] != q[0]
      {
        assert (kept + q)[i] == kept[i];
      }
      assert (q + rest)[1..] == q[1..] + rest;
      assert kept + [q[0]] + q[1..] == kept + q;
      DedupOfDistinct(kept + [q[0]], q[1..], rest);
    }
  }

  // ==== what it means to filter: positions, in order ====

  /** `q` is what stands in `from` at the positions `at`, in the order of `from`. */
  predicate PicksAt(from: seq<Id>, q: seq<Id>, at: seq<nat>) {
    && |at| == |q|
    && (forall i, j :: 0 <= i < j < |at| ==> at[i] < at[j])
    && (forall i :: 0 <= i < |at| ==> at[i] < |from| && q[i] == from[at[i]])
  }

  /** `q` lists what stands in `from` at the chosen positions, all of them and no others, in the order of `from`. */
  ghost predicate Selects(from: seq<Id>, q: seq<Id>, chosen: set<nat>) {
    exists at :: PicksAt(from, q, at) && ToSet(at) == chosen
  }

  lemma {:induction false} KeepInSnoc(q: seq<Id>, x: Id, keep: set<Id>)
    ensures KeepIn(q + [x], keep) == KeepIn(q, keep) + (if x in keep then [x] else [])
  {
    if q == [] {
      assert KeepIn([x][1..], keep) == [];
    } else {
      KeepInSnoc(q[1..], x, keep);
      assert (q + [x])[1..] == q[1..] + [x];
    }
  }

  lemma {:induction false} KeepInPicks(q: seq<Id>, keep: set<Id>) returns (at: seq<nat>)
    ensures PicksAt(q, KeepIn(q, keep), at)
    ensures forall k: nat :: k in at <==> k < |q| && q[k] in keep
  {
    at := [];
    if q != [] {
      var n := |q| - 1;
      at := KeepInPicks(q[..n], keep);
      KeepInSnoc(q[..n], q[n], keep);
      assert q == q[..n] + [q[n]];
      if q[n] in keep {
        at := at + [n];
      }
    }
  }

  lemma {:induction false} DropIsKeep(q: seq<Id>, drop: set<Id>)
    ensures DropIn(q, drop) == KeepIn(q, ToSet(q) - drop)
  {
    DropIsKeepWithin(q, drop, ToSet(q) - drop);
  }

  lemma {:induction false} DropIsKeepWithin(q: seq<Id>, drop: set<Id>, keep: set<Id>)
    requires forall id | id in q :: id in keep <==> id !in drop
    ensures DropIn(q, drop) == KeepIn(q, keep)
  {
    if q != [] {
      DropIsKeepWithin(q[1..], drop, keep);
    }
  }

  /** A list picked from a picked list is picked from the whole. */
  lemma PicksCompose(from: seq<Id>, mid: seq<Id>, q: seq<Id>, outer: seq<nat>, inner: seq<nat>)
    returns (at: seq<nat>)
    requires PicksAt(from, mid, outer) && PicksAt(mid, q, inner)
    ensures PicksAt(from, q, at)
    ensures forall k: nat | k < |outer| :: outer[k] in at <==> k in inner
    ensures forall j | j in at :: j in outer
  {
    at := seq(|inner|, i requires 0 <= i < |inner| => outer[inner[i]]);
    forall k: nat | k < |outer|
      ensures outer[k] in at <==> k in inner
    {
      if k in inner {
        var i :| 0 <= i < |inner| && inner[i] == k;
        assert at[i] == outer[k];
      }
      if outer[k] in at {
        var i :| 0 <= i < |at| && at[i] == outer[k];
        assert inner[i] == k;
      }
    }
  }

  lemma KeepPicked(from: seq<Id>, mid: seq<Id>, outer: seq<nat>, keep: set<Id>) returns (at: seq<nat>)
    requires PicksAt(from, mid, outer)
    ensures PicksAt(from, KeepIn(mid, keep), at)
    ensures forall j: nat :: j in at <==> j in outer && from[j] in keep
  {
    var inner := KeepInPicks(mid, keep);
    at := PicksCompose(from, mid, KeepIn(mid, keep), outer, inner);
    forall j: nat | j in outer
      ensures j in at <==> from[j] in keep
    {
      var k :| 0 <= k < |outer| && outer[k] == j;
      assert k in inner <==> mid[k] in keep;
    }
  }

  lemma DropPicked(from: seq<Id>, mid: seq<Id>, outer: seq<nat>, drop: set<Id>) returns (at: seq<nat>)
    requires PicksAt(from, mid, outer)
    ensures PicksAt(from, DropIn(mid, drop), at)
    ensures forall j: nat :: j in at <==> j in outer && from[j] !in drop
  {
    DropIsKeep(mid, drop);
    at := KeepPicked(from, mid, outer, ToSet(mid) - drop);
    forall j: nat | j in outer
      ensures from[j] in mid
    {
      var k :| 0 <= k < |outer| && outer[k] == j;
      assert mid[k] == from[j];
    }
  }

  /** The positions of `at` that come before `j`. */
  function Before(at: seq<nat>, j: nat): set<nat> {
    set i | i in at && i < j
  }

  lemma RankOf(at: seq<nat>, k: nat)
    requires k < |at| && forall i, j :: 0 <= i < j < |at| ==> at[i] < at[j]
    ensures |Before(at, at[k])| == k
  {
    assert Before(at, at[k]) == ToSet(at[..k]) by {
      forall i | i in Before(at, at[k])
        ensures i in at[..k]
      {
        var m :| 0 <= m < |at| && at[m] == i;
        assert m < k;
        assert at[..k][m] == i;
      }
    }
    DistinctCount(at[..k]);
  }

  lemma TakePicked(from: seq<Id>, mid: seq<Id>, outer: seq<nat>, n: nat) returns (at: seq<nat>)
    requires PicksAt(from, mid, outer)
    ensures PicksAt(from, Take(mid, n), at)
    ensures forall j: nat :: j in at <==> j in outer && |Before(outer, j)| < n
  {
    at := if |outer| > n then outer[..n] else outer;
    forall k: nat | k < |outer|
      ensures |Before(outer, outer[k])| == k
      ensures outer[k] in at <==> k < n
    {
      RankOf(outer, k);
      if k < n {
        assert at[k] == outer[k];
      }
    }
  }

  lemma PrefixPicks(q: seq<Id>, n: nat) returns (at: seq<nat>)
    ensures PicksAt(q, Take(q, n), at)
    ensures forall j: nat :: j in at <==> j < |q| && j < n
  {
    at := seq(|Take(q, n)|, i => i);
    forall j: nat
      ensures j in at <==> j < |q| && j < n
    {
      if j < |q| && j < n {
        assert at[j] == j;
      }
    }
  }

  /** The chosen positions fix the list. */
  lemma {:induction false} SelectionIsUnique(from: seq<Id>, q: seq<Id>, r: seq<Id>, chosen: set<nat>)
    requires Selects(from, q, chosen) && Selects(from, r, chosen)
    ensures q == r
  {
    var a :| PicksAt(from, q, a) && ToSet(a) == chosen;
    var b :| PicksAt(from, r, b) && ToSet(b) == chosen;
    SameOrder(a, b);
  }

  lemma {:induction false} SameOrder(a: seq<nat>, b: seq<nat>)
    requires forall i, j :: 0 <= i < j < |a| ==> a[i] < a[j]
    requires forall i, j :: 0 <= i < j < |b| ==> b[i] < b[j]
    requires ToSet(a) == ToSet(b)
    ensures a == b
  {
    DistinctCount(a);
    DistinctCount(b);
    forall k | 0 <= k < |a|
      ensures a[k] == b[k]
    {
      assert a[k] in ToSet(b);
      var m :| 0 <= m < |b| && b[m] == a[k];
      RankOf(a, k);
      RankOf(b, m);
      assert Before(a, a[k]) == Before(b, a[k]) by {
        assert forall i :: i in a <==> i in ToSet(b);
      }
    }
  }
}
