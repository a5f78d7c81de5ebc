/** The LINQ tail that every booster and Layer 1 engine ends with: an
    optional `Where(score > 0)`, a stable `OrderByDescending(score)` and a
    `Take(n)`, written on index lists. Applying the index list to the
    objects with `Pick` gives the returned list. */
module Ranking {
  import opened Sorting

  /** The indices of the positive scores, in order. */
  function PositiveIndices(scores: seq<real>): (r: seq<nat>)
    ensures Increasing(r)
    ensures forall k :: 0 <= k < |r| ==> r[k] < |scores| && scores[r[k]] > 0.0
    ensures forall i :: 0 <= i < |scores| && scores[i] > 0.0 ==> i in r
  {
    Where(seq(|scores|, i requires 0 <= i < |scores| => scores[i] > 0.0))
  }

  /** The candidates `ids`, stably sorted by descending score, cut to `n`. */
  function TopOf(scores: seq<real>, ids: seq<nat>, n: int): (r: seq<nat>)
    requires forall k :: 0 <= k < |ids| ==> ids[k] < |scores|
    ensures forall k :: 0 <= k < |r| ==> r[k] < |scores|
  {
    var order := OrderDescending(Pick(scores, ids));
    Take(Pick(ids, order), n)
  }

  /** `Where(score > 0).OrderByDescending(score).Take(n)`. */
  function TopPositive(scores: seq<real>, n: int): (r: seq<nat>)
    ensures forall k :: 0 <= k < |r| ==> r[k] < |scores|
  {
    TopOf(scores, PositiveIndices(scores), n)
  }

  /** `OrderByDescending(score).Take(n)`. */
  function Top(scores: seq<real>, n: int): (r: seq<nat>)
    ensures forall k :: 0 <= k < |r| ==> r[k] < |scores|
  {
    TopOf(scores, Range(|scores|), n)
  }

  /** How many elements `Take(n)` keeps of a list of length `len`. */
  function Kept(n: int, len: nat): nat {
    if n <= 0 then 0 else if n < len then n else len
  }

  /** `r` holds the best `n` of the candidates `ids`: no index twice, highest
      score first, and every candidate left out scores no higher than every
      one kept. */
  predicate IsTop(scores: seq<real>, ids: seq<nat>, n: int, r: seq<nat>)
    requires forall k :: 0 <= k < |ids| ==> ids[k] < |scores|
    requires forall k :: 0 <= k < |r| ==> r[k] < |scores|
  {
    |r| == Kept(n, |ids|) &&
    (forall k :: 0 <= k < |r| ==> r[k] in ids) &&
    (forall p, q :: 0 <= p < q < |r| ==> r[p] != r[q]) &&
    NonIncreasing(Pick(scores, r)) &&
    (forall j, k :: 0 <= j < |ids| && ids[j] !in r && 0 <= k < |r| ==> scores[ids[j]] <= scores[r[k]])
  }

  /** Distinct positions of an increasing list hold distinct values. */
  lemma PickDistinct(ids: seq<nat>, order: seq<nat>)
    requires Increasing(ids)
    requires forall k :: 0 <= k < |order| ==> order[k] < |ids|
    requires forall p, q :: 0 <= p < q < |order| ==> order[p] != order[q]
    ensures forall p, q :: 0 <= p < q < |order| ==> Pick(ids, order)[p] != Pick(ids, order)[q]
  {
    forall p, q | 0 <= p < q < |order| ensures ids[order[p]] != ids[order[q]] {
      if order[p] < order[q] { assert ids[order[p]] < ids[order[q]]; }
      else { assert ids[order[q]] < ids[order[p]]; }
    }
  }

  /** A prefix of the best-first order of the candidates is itself in
      best-first order. */
  lemma PrefixNonIncreasing(scores: seq<real>, ids: seq<nat>, order: seq<nat>, m: nat)
    requires forall k :: 0 <= k < |ids| ==> ids[k] < |scores|
    requires forall k :: 0 <= k < |order| ==> order[k] < |ids|
    requires NonIncreasing(Pick(Pick(scores, ids), order)) && m <= |order|
    ensures NonIncreasing(Pick(scores, Pick(ids, order)[..m]))
  {
    var r := Pick(ids, order)[..m];
    forall p, q | 0 <= p < q < |r| ensures Pick(scores, r)[p] >= Pick(scores, r)[q] {
      assert Pick(scores, r)[p] == Pick(Pick(scores, ids), order)[p];
      assert Pick(scores, r)[q] == Pick(Pick(scores, ids), order)[q];
    }
  }

  /** A candidate outside a prefix of the best-first order scores no higher
      than anything inside it. */
  lemma PrefixDominates(scores: seq<real>, ids: seq<nat>, order: seq<nat>, m: nat)
    requires forall k :: 0 <= k < |ids| ==> ids[k] < |scores|
    requires |order| == |ids| && forall k :: 0 <= k < |order| ==> order[k] < |ids|
    requires forall j :: 0 <= j < |ids| ==> j in order
    requires NonIncreasing(Pick(Pick(scores, ids), order)) && m <= |order|
    ensures var r := Pick(ids, order)[..m];
      forall j, k :: 0 <= j < |ids| && ids[j] !in r && 0 <= k < |r| ==> scores[ids[j]] <= scores[r[k]]
  {
    var sub := Pick(scores, ids);
    var full := Pick(ids, order);
    var r := full[..m];
    forall j, k | 0 <= j < |ids| && ids[j] !in r && 0 <= k < |r| ensures scores[ids[j]] <= scores[r[k]] {
      assert j in order;
      var p :| 0 <= p < |order| && order[p] == j;
      assert full[p] == ids[j];
      assert k < p;
      assert Pick(sub, order)[k] >= Pick(sub, order)[p];
    }
  }

  lemma TopOfSpec(scores: seq<real>, ids: seq<nat>, n: int)
    requires forall k :: 0 <= k < |ids| ==> ids[k] < |scores|
    requires Increasing(ids)
    ensures IsTop(scores, ids, n, TopOf(scores, ids, n))
  {
    var sub := Pick(scores, ids);
    var order := OrderDescending(sub);
    var full := Pick(ids, order);
    var r := TopOf(scores, ids, n);
    OrderDescendingSpec(sub);
    assert r == full[..|r|];
    assert forall k :: 0 <= k < |r| ==> r[k] in ids by {
      forall k | 0 <= k < |r| ensures r[k] in ids {
        assert r[k] == ids[order[k]];
      }
    }
    PickDistinct(ids, order);
    PrefixNonIncreasing(scores, ids, order, |r|);
    PrefixDominates(scores, ids, order, |r|);
  }

  /** `TopPositive` keeps only positive scores and is the top `n` of them. */
  lemma TopPositiveSpec(scores: seq<real>, n: int)
    ensures IsTop(scores, PositiveIndices(scores), n, TopPositive(scores, n))
    ensures forall k :: 0 <= k < |TopPositive(scores, n)| ==> scores[TopPositive(scores, n)[k]] > 0.0
    ensures |TopPositive(scores, n)| <= if n <= 0 then 0 else n
  {
    TopOfSpec(scores, PositiveIndices(scores), n);
    var r := TopPositive(scores, n);
    forall k | 0 <= k < |r| ensures scores[r[k]] > 0.0 {
      assert r[k] in PositiveIndices(scores);
    }
  }

  /** `Top` is the top `n` of all the scores. */
  lemma TopSpec(scores: seq<real>, n: int)
    ensures IsTop(scores, Range(|scores|), n, Top(scores, n))
    ensures |Top(scores, n)| == Kept(n, |scores|)
  {
    TopOfSpec(scores, Range(|scores|), n);
  }

  /** `GetCombinedTopResults` of the Layer 2 and Layer 3 boosters: stars,
      then planets, then moons in one list, stably sorted by descending score
      and cut to `topN`. The result indexes the concatenated list. */
  function CombinedTop(starScores: seq<real>, planetScores: seq<real>, moonScores: seq<real>, topN: int): (r: seq<nat>)
    ensures var all := starScores + planetScores + moonScores;
      (forall k :: 0 <= k < |r| ==> r[k] < |all|) && IsTop(all, Range(|all|), topN, r)
  {
    var all := starScores + planetScores + moonScores;
    TopSpec(all, topN);
    Top(all, topN)
  }

  /** The `ThenBy(type)` key of the Layer 4 combined list: the type names
      compare "moon" < "planet" < "star". Position `i` of the list holds a
      star below `ns`, a planet below `ns + np`, and a moon after that. */
  function TypeRank(i: nat, ns: nat, np: nat): (r: int) {
    if i < ns then 2 else if i < ns + np then 1 else 0
  }

  /** The keys of `OrderByDescending(score).ThenBy(type)`. */
  function ScoreThenTypeKeys(all: seq<real>, ns: nat, np: nat): (keys: seq<Key>)
    ensures |keys| == |all|
    ensures forall i :: 0 <= i < |all| ==> keys[i] == Key(-all[i], TypeRank(i, ns, np))
  {
    seq(|all|, i requires 0 <= i < |all| => Key(-all[i], TypeRank(i, ns, np)))
  }

  /** `GetCombinedTopResults` of the Layer 4 booster: stars, then planets,
      then moons in one list, sorted by descending score, equal scores by
      type name, and cut to `topN`. The result indexes the concatenated
      list. */
  function CombinedTopByType(starScores: seq<real>, planetScores: seq<real>, moonScores: seq<real>,
                             topN: int): (r: seq<nat>)
    ensures forall k :: 0 <= k < |r| ==> r[k] < |starScores| + |planetScores| + |moonScores|
  {
    var all := starScores + planetScores + moonScores;
    var keys := ScoreThenTypeKeys(all, |starScores|, |planetScores|);
    Take(SortIndices(keys, Range(|all|)), topN)
  }

  /** The combined list is the best `topN` of all the objects, highest
      score first; among equal scores moons come before planets and planets
      before stars, each type in its own list's order. */
  lemma CombinedTopByTypeSpec(starScores: seq<real>, planetScores: seq<real>, moonScores: seq<real>, topN: int)
    ensures var all := starScores + planetScores + moonScores;
      var r := CombinedTopByType(starScores, planetScores, moonScores, topN);
      var ns, np := |starScores|, |planetScores|;
      IsTop(all, Range(|all|), topN, r) &&
      (forall p, q :: 0 <= p < q < |r| && all[r[p]] == all[r[q]] ==>
         TypeRank(r[p], ns, np) < TypeRank(r[q], ns, np) ||
         (TypeRank(r[p], ns, np) == TypeRank(r[q], ns, np) && r[p] < r[q]))
  {
    var all := starScores + planetScores + moonScores;
    var ns, np := |starScores|, |planetScores|;
    var order := SortIndices(ScoreThenTypeKeys(all, ns, np), Range(|all|));
    var r := CombinedTopByType(starScores, planetScores, moonScores, topN);
    ScoreThenTypeOrder(all, ns, np);
    assert r == Take(order, topN);
    TakeOfBestFirst(all, order, topN);
  }

  /** The sort of the combined list lists every position once, by
      descending score, equal scores by type rank, then by position. */
  lemma ScoreThenTypeOrder(all: seq<real>, ns: nat, np: nat)
    ensures var order := SortIndices(ScoreThenTypeKeys(all, ns, np), Range(|all|));
      |order| == |all| &&
      (forall i :: 0 <= i < |all| ==> i in order) &&
      (forall p, q :: 0 <= p < q < |order| ==> order[p] != order[q]) &&
      (forall p, q :: 0 <= p < q < |order| ==> all[order[p]] >= all[order[q]]) &&
      (forall p, q :: 0 <= p < q < |order| && all[order[p]] == all[order[q]] ==>
         TypeRank(order[p], ns, np) < TypeRank(order[q], ns, np) ||
         (TypeRank(order[p], ns, np) == TypeRank(order[q], ns, np) && order[p] < order[q]))
  {
    var keys := ScoreThenTypeKeys(all, ns, np);
    var order := SortIndices(keys, Range(|all|));
    SortIndicesSorted(keys, Range(|all|));
    StablySortedDistinct(keys, order);
    PermutationCoversRange(order, |all|);
    forall p, q | 0 <= p < q < |order|
      ensures all[order[p]] >= all[order[q]]
      ensures all[order[p]] == all[order[q]] ==>
        TypeRank(order[p], ns, np) < TypeRank(order[q], ns, np) ||
        (TypeRank(order[p], ns, np) == TypeRank(order[q], ns, np) && order[p] < order[q])
    {
      assert Before(keys, order[p], order[q]);
    }
  }

  /** Any prefix of a best-first listing of all positions is the top of
      that length. */
  lemma TakeOfBestFirst(all: seq<real>, order: seq<nat>, n: int)
    requires |order| == |all| && forall k :: 0 <= k < |order| ==> order[k] < |all|
    requires forall i :: 0 <= i < |all| ==> i in order
    requires forall p, q :: 0 <= p < q < |order| ==> order[p] != order[q]
    requires forall p, q :: 0 <= p < q < |order| ==> all[order[p]] >= all[order[q]]
    ensures IsTop(all, Range(|all|), n, Take(order, n))
  {
    var r := Take(order, n);
    var ids := Range(|all|);
    assert NonIncreasing(Pick(all, r)) by {
      forall p, q | 0 <= p < q < |r| ensures Pick(all, r)[p] >= Pick(all, r)[q] {
        assert r[p] == order[p] && r[q] == order[q];
      }
    }
    forall k | 0 <= k < |r| ensures r[k] in ids {
      assert ids[r[k]] == r[k];
    }
    forall j, k | 0 <= j < |ids| && ids[j] !in r && 0 <= k < |r|
      ensures all[ids[j]] <= all[r[k]]
    {
      assert ids[j] == j && j in order;
      var p :| 0 <= p < |order| && order[p] == j;
      assert p >= |r|;
      assert r[k] == order[k];
    }
  }
}
