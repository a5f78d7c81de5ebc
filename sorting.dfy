/** LINQ `OrderBy` / `OrderByDescending` / `ThenBy`, `Where` and `Take`, as
    functions on index sequences. LINQ's sorts are stable: elements with equal
    keys keep their input order. A sort is described by the index order it
    produces, which the callers then apply to their lists. */
module Sorting {

  /** A sort key: ordered by `primary`, then by `secondary`, both ascending.
      A descending sort on x uses the primary key -x. */
  datatype Key = Key(primary: real, secondary: int)

  predicate KeyLess(a: Key, b: Key) {
    a.primary < b.primary || (a.primary == b.primary && a.secondary < b.secondary)
  }

  /** In a stable ascending sort element i comes before element j. */
  predicate Before(keys: seq<Key>, i: nat, j: nat)
    requires i < |keys| && j < |keys|
  {
    KeyLess(keys[i], keys[j]) || (keys[i] == keys[j] && i < j)
  }

  predicate InRange(keys: seq<Key>, ids: seq<nat>) {
    forall k :: 0 <= k < |ids| ==> ids[k] < |keys|
  }

  predicate Increasing(ids: seq<nat>) {
    forall p, q :: 0 <= p < q < |ids| ==> ids[p] < ids[q]
  }

  /** `order` lists indices into `keys` by ascending key, equal keys in index
      order: what a stable sort of those indices produces. */
  predicate StablySorted(keys: seq<Key>, order: seq<nat>) {
    InRange(keys, order) && forall p, q :: 0 <= p < q < |order| ==> Before(keys, order[p], order[q])
  }

  function Insert(keys: seq<Key>, i: nat, order: seq<nat>): (r: seq<nat>)
    requires i < |keys| && InRange(keys, order)
    ensures multiset(r) == multiset(order) + multiset{i}
    ensures |r| == |order| + 1
    ensures InRange(keys, r)
  {
    if order == [] then [i]
    else if Before(keys, i, order[0]) then [i] + order
    else
      assert order == [order[0]] + order[1..];
      [order[0]] + Insert(keys, i, order[1..])
  }

  lemma {:induction false} InsertSorted(keys: seq<Key>, i: nat, order: seq<nat>)
    requires i < |keys| && StablySorted(keys, order) && i !in order
    ensures StablySorted(keys, Insert(keys, i, order))
  {
    if order != [] && !Before(keys, i, order[0]) {
      assert order == [order[0]] + order[1..];
      InsertSorted(keys, i, order[1..]);
      var tail := Insert(keys, i, order[1..]);
      FirstBeforeInserted(keys, i, order, tail);
      var r := [order[0]] + tail;
      assert Insert(keys, i, order) == r;
      forall p, q | 0 <= p < q < |r| ensures Before(keys, r[p], r[q]) {
        assert r[q] == tail[q - 1];
        if p > 0 {
          assert r[p] == tail[p - 1];
        }
      }
    } else if order != [] {
      forall q | 0 <= q < |order| ensures Before(keys, i, order[q]) {
        if q > 0 {
          assert Before(keys, order[0], order[q]);
        }
      }
    }
  }

  /** The head of a sorted order that `i` does not precede comes before
      everything of the tail with `i` inserted. */
  lemma FirstBeforeInserted(keys: seq<Key>, i: nat, order: seq<nat>, tail: seq<nat>)
    requires i < |keys| && StablySorted(keys, order) && i !in order
    requires order != [] && !Before(keys, i, order[0])
    requires multiset(tail) == multiset(order[1..]) + multiset{i}
    ensures forall q :: 0 <= q < |tail| ==> tail[q] < |keys| && Before(keys, order[0], tail[q])
  {
    assert Before(keys, order[0], i) by {
      assert i != order[0];
    }
    forall q | 0 <= q < |tail| ensures tail[q] < |keys| && Before(keys, order[0], tail[q]) {
      assert tail[q] in multiset(tail);
      if tail[q] != i {
        assert tail[q] in order[1..];
        var k :| 0 <= k < |order[1..]| && order[1..][k] == tail[q];
        assert order[k + 1] == tail[q];
      }
    }
  }

  /** The stable ascending sort of the indices `ids` by `keys`. */
  function SortIndices(keys: seq<Key>, ids: seq<nat>): (r: seq<nat>)
    requires InRange(keys, ids)
    ensures multiset(r) == multiset(ids)
    ensures |r| == |ids|
    ensures InRange(keys, r)
  {
    if ids == [] then []
    else
      var last := |ids| - 1;
      assert ids == ids[..last] + [ids[last]];
      Insert(keys, ids[last], SortIndices(keys, ids[..last]))
  }

  /** Sorting indices taken in increasing order yields a stable sort: a
      permutation of the indices, by ascending key, equal keys in input order. */
  lemma {:induction false} SortIndicesSorted(keys: seq<Key>, ids: seq<nat>)
    requires InRange(keys, ids) && Increasing(ids)
    ensures StablySorted(keys, SortIndices(keys, ids))
  {
    if ids != [] {
      var last := |ids| - 1;
      SortIndicesSorted(keys, ids[..last]);
      var prefix := SortIndices(keys, ids[..last]);
      assert ids[last] !in multiset(ids[..last]) by {
        assert forall k :: 0 <= k < last ==> ids[..last][k] < ids[last];
      }
      assert ids[last] !in multiset(prefix);
      InsertSorted(keys, ids[last], prefix);
    }
  }

  /** A stable sort is determined by its keys: two stably sorted orders of the
      same indices are the same order. */
  lemma {:induction false} StablySortedUnique(keys: seq<Key>, a: seq<nat>, b: seq<nat>)
    requires StablySorted(keys, a) && StablySorted(keys, b)
    requires multiset(a) == multiset(b)
    ensures a == b
  {
    if a != [] {
      assert b != [] by { assert |multiset(b)| == |multiset(a)|; }
      assert a[0] in multiset(b) && b[0] in multiset(a);
      assert a[0] == b[0];
      assert a == [a[0]] + a[1..];
      assert b == [b[0]] + b[1..];
      assert multiset(a) == multiset{a[0]} + multiset(a[1..]);
      assert multiset(b) == multiset{b[0]} + multiset(b[1..]);
      assert multiset(a[1..]) == multiset(a) - multiset{a[0]};
      assert multiset(b[1..]) == multiset(b) - multiset{b[0]};
      StablySortedUnique(keys, a[1..], b[1..]);
    }
  }

  /** 0, 1, ..., n-1. */
  function Range(n: nat): (r: seq<nat>)
    ensures |r| == n && Increasing(r)
    ensures forall k :: 0 <= k < n ==> r[k] == k
  {
    seq(n, k => k)
  }

  /** `Where`: the indices whose flag is set, in increasing order. */
  function Where(flags: seq<bool>): (r: seq<nat>)
    ensures Increasing(r)
    ensures forall k :: 0 <= k < |r| ==> r[k] < |flags| && flags[r[k]]
    ensures forall i :: 0 <= i < |flags| && flags[i] ==> i in r
  {
    if flags == [] then []
    else
      var last := |flags| - 1;
      var prefix := Where(flags[..last]);
      if flags[last] then prefix + [last] else prefix
  }

  /** `Take(n)`. */
  function Take<T>(s: seq<T>, n: int): (r: seq<T>)
    ensures |r| <= |s| && r == s[..|r|]
    ensures |r| == if n <= 0 then 0 else if n < |s| then n else |s|
  {
    if n <= 0 then [] else if n < |s| then s[..n] else s
  }

  /** Keys for `OrderByDescending(x)`. */
  function DescendingKeys(xs: seq<real>): (keys: seq<Key>)
    ensures |keys| == |xs|
    ensures forall i :: 0 <= i < |xs| ==> keys[i] == Key(-xs[i], 0)
  {
    seq(|xs|, i requires 0 <= i < |xs| => Key(-xs[i], 0))
  }

  /** Keys for `OrderBy(x)`. */
  function AscendingKeys(xs: seq<real>): (keys: seq<Key>)
    ensures |keys| == |xs|
    ensures forall i :: 0 <= i < |xs| ==> keys[i] == Key(xs[i], 0)
  {
    seq(|xs|, i requires 0 <= i < |xs| => Key(xs[i], 0))
  }

  /** The values picked out by an index order. */
  function Pick<T>(xs: seq<T>, order: seq<nat>): (r: seq<T>)
    requires forall k :: 0 <= k < |order| ==> order[k] < |xs|
    ensures |r| == |order|
    ensures forall k :: 0 <= k < |order| ==> r[k] == xs[order[k]]
  {
    seq(|order|, k requires 0 <= k < |order| => xs[order[k]])
  }

  predicate NonIncreasing(xs: seq<real>) {
    forall p, q :: 0 <= p < q < |xs| ==> xs[p] >= xs[q]
  }

  predicate NonDecreasing(xs: seq<real>) {
    forall p, q :: 0 <= p < q < |xs| ==> xs[p] <= xs[q]
  }

  /** A stable descending sort lists the values from largest to smallest. */
  lemma DescendingSortIsNonIncreasing(xs: seq<real>, order: seq<nat>)
    requires StablySorted(DescendingKeys(xs), order)
    ensures NonIncreasing(Pick(xs, order))
  {
    var keys := DescendingKeys(xs);
    forall p, q | 0 <= p < q < |order| ensures xs[order[p]] >= xs[order[q]] {
      assert Before(keys, order[p], order[q]);
    }
  }

  lemma AscendingSortIsNonDecreasing(xs: seq<real>, order: seq<nat>)
    requires StablySorted(AscendingKeys(xs), order)
    ensures NonDecreasing(Pick(xs, order))
  {
    var keys := AscendingKeys(xs);
    forall p, q | 0 <= p < q < |order| ensures xs[order[p]] <= xs[order[q]] {
      assert Before(keys, order[p], order[q]);
    }
  }

  /** `OrderByDescending(i => xs[i])` over all indices. */
  function OrderDescending(xs: seq<real>): (order: seq<nat>)
    ensures |order| == |xs|
    ensures forall k :: 0 <= k < |order| ==> order[k] < |xs|
  {
    SortIndices(DescendingKeys(xs), Range(|xs|))
  }

  /** `OrderBy(i => xs[i])` over all indices. */
  function OrderAscending(xs: seq<real>): (order: seq<nat>)
    ensures |order| == |xs|
    ensures forall k :: 0 <= k < |order| ==> order[k] < |xs|
  {
    SortIndices(AscendingKeys(xs), Range(|xs|))
  }

  lemma PickAppend<T>(xs: seq<T>, u: seq<nat>, v: seq<nat>)
    requires forall k :: 0 <= k < |u| ==> u[k] < |xs|
    requires forall k :: 0 <= k < |v| ==> v[k] < |xs|
    ensures Pick(xs, u + v) == Pick(xs, u) + Pick(xs, v)
  {
    assert forall k :: 0 <= k < |u + v| ==> (u + v)[k] < |xs|;
  }

  lemma RemoveMultiset<T>(s: seq<T>, j: nat)
    requires j < |s|
    ensures multiset(s[..j] + s[j + 1..]) + multiset{s[j]} == multiset(s)
  {
    assert s == s[..j] + [s[j]] + s[j + 1..];
  }

  /** Taking index `j` out of an order takes its value out of the pick. */
  lemma PickRemove<T>(xs: seq<T>, b: seq<nat>, j: nat)
    requires forall k :: 0 <= k < |b| ==> b[k] < |xs|
    requires j < |b|
    ensures var rest := b[..j] + b[j + 1..];
      (forall k :: 0 <= k < |rest| ==> rest[k] < |xs|) &&
      multiset(rest) + multiset{b[j]} == multiset(b) &&
      multiset(Pick(xs, rest)) + multiset{xs[b[j]]} == multiset(Pick(xs, b))
  {
    var rest := b[..j] + b[j + 1..];
    assert forall k :: 0 <= k < |rest| ==> rest[k] == if k < j then b[k] else b[k + 1];
    var p := Pick(xs, b);
    assert Pick(xs, rest) == p[..j] + p[j + 1..];
    RemoveMultiset(b, j);
    RemoveMultiset(p, j);
  }

  lemma MultisetCancel<T>(m: multiset<T>, n: multiset<T>, v: T)
    requires m + multiset{v} == n + multiset{v}
    ensures m == n
  {
    assert forall x :: m[x] == (m + multiset{v})[x] - (if x == v then 1 else 0);
  }

  /** Two orders holding the same indices pick out the same values. */
  lemma {:induction false} PickSameIndices<T>(xs: seq<T>, a: seq<nat>, b: seq<nat>)
    requires forall k :: 0 <= k < |a| ==> a[k] < |xs|
    requires forall k :: 0 <= k < |b| ==> b[k] < |xs|
    requires multiset(a) == multiset(b)
    ensures multiset(Pick(xs, a)) == multiset(Pick(xs, b))
    decreases |a|
  {
    if a == [] {
      assert |b| == |multiset(b)| == 0;
    } else {
      assert a[0] in multiset(b);
      var j :| 0 <= j < |b| && b[j] == a[0];
      var ra, rb := a[..0] + a[1..], b[..j] + b[j + 1..];
      assert ra == a[1..];
      PickRemove(xs, a, 0);
      PickRemove(xs, b, j);
      MultisetCancel(multiset(ra), multiset(rb), a[0]);
      PickSameIndices(xs, ra, rb);
    }
  }

  /** Picking by a permutation of all indices rearranges the sequence. */
  lemma PickPermutes<T>(xs: seq<T>, order: seq<nat>)
    requires forall k :: 0 <= k < |order| ==> order[k] < |xs|
    requires multiset(order) == multiset(Range(|xs|))
    ensures multiset(Pick(xs, order)) == multiset(xs)
  {
    PickSameIndices(xs, order, Range(|xs|));
    assert Pick(xs, Range(|xs|)) == xs;
  }

  /** An order with the multiset of 0..n-1 mentions every index below n. */
  lemma PermutationCoversRange(order: seq<nat>, n: nat)
    requires multiset(order) == multiset(Range(n))
    ensures forall i :: 0 <= i < n ==> i in order
  {
    forall i | 0 <= i < n ensures i in order {
      assert Range(n)[i] == i;
      assert i in multiset(Range(n));
    }
  }

  /** A stable sort never lists an index twice. */
  lemma StablySortedDistinct(keys: seq<Key>, order: seq<nat>)
    requires StablySorted(keys, order)
    ensures forall p, q :: 0 <= p < q < |order| ==> order[p] != order[q]
  {
    forall p, q | 0 <= p < q < |order| ensures order[p] != order[q] {
      assert Before(keys, order[p], order[q]);
    }
  }

  /** The descending order is a stable sort of all indices, lists every
      index exactly once, and its values never increase. */
  lemma OrderDescendingSpec(xs: seq<real>)
    ensures multiset(OrderDescending(xs)) == multiset(Range(|xs|))
    ensures StablySorted(DescendingKeys(xs), OrderDescending(xs))
    ensures NonIncreasing(Pick(xs, OrderDescending(xs)))
    ensures forall i :: 0 <= i < |xs| ==> i in OrderDescending(xs)
    ensures forall p, q :: 0 <= p < q < |xs| ==> OrderDescending(xs)[p] != OrderDescending(xs)[q]
  {
    SortIndicesSorted(DescendingKeys(xs), Range(|xs|));
    DescendingSortIsNonIncreasing(xs, OrderDescending(xs));
    PermutationCoversRange(OrderDescending(xs), |xs|);
    StablySortedDistinct(DescendingKeys(xs), OrderDescending(xs));
  }

  /** The ascending order is a stable sort of all indices, lists every index
      exactly once, and its values never decrease. */
  lemma OrderAscendingSpec(xs: seq<real>)
    ensures multiset(OrderAscending(xs)) == multiset(Range(|xs|))
    ensures StablySorted(AscendingKeys(xs), OrderAscending(xs))
    ensures NonDecreasing(Pick(xs, OrderAscending(xs)))
    ensures forall i :: 0 <= i < |xs| ==> i in OrderAscending(xs)
    ensures forall p, q :: 0 <= p < q < |xs| ==> OrderAscending(xs)[p] != OrderAscending(xs)[q]
  {
    SortIndicesSorted(AscendingKeys(xs), Range(|xs|));
    AscendingSortIsNonDecreasing(xs, OrderAscending(xs));
    PermutationCoversRange(OrderAscending(xs), |xs|);
    StablySortedDistinct(AscendingKeys(xs), OrderAscending(xs));
  }

  /** The first element of a descending sort is a maximum. */
  lemma OrderDescendingFirstIsMax(xs: seq<real>)
    requires |xs| > 0
    ensures forall i :: 0 <= i < |xs| ==> xs[i] <= xs[OrderDescending(xs)[0]]
  {
    var order := OrderDescending(xs);
    OrderDescendingSpec(xs);
    forall i | 0 <= i < |xs| ensures xs[i] <= xs[order[0]] {
      assert i in order;
      var p :| 0 <= p < |order| && order[p] == i;
      if p > 0 {
        assert Pick(xs, order)[0] >= Pick(xs, order)[p];
      }
    }
  }
}
