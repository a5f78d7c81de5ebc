/** `Layer5_Poppys_GA_Handler`: turns the Layer 1-4 result lists into GA
    records (one per Layer 1 object, carrying its position in every layer)
    and hands them to the rank-fusion GA. */
module GAHandler {
  import opened Wrappers
  import opened Numerics
  import opened Sorting
  import opened Text
  import opened Views
  import opened GAObjects
  import opened GAEngine
  import RandomSource

  /** The rank recorded for an object a layer did not return. */
  const NotRanked := 998

  /** `List.FindIndex`: the first position holding `id`, or -1. */
  function FindIndex(ids: seq<string>, id: string): (r: int)
    ensures r == -1 <==> id !in ids
    ensures r != -1 ==> 0 <= r < |ids| && ids[r] == id && id !in ids[..r]
  {
    if ids == [] then -1
    else if ids[0] == id then 0
    else
      var k := FindIndex(ids[1..], id);
      assert ids[1..][..if k == -1 then 0 else k] == ids[1..1 + if k == -1 then 0 else k];
      assert k != -1 ==> ids[..k + 1] == [ids[0]] + ids[1..][..k];
      if k == -1 then -1 else k + 1
  }

  /** `rank` is where `id` first occurs in `ids`, or `NotRanked` when it does
      not occur. */
  predicate RankedIn(ids: seq<string>, id: string, rank: int) {
    (id !in ids && rank == NotRanked) ||
    (0 <= rank < |ids| && ids[rank] == id && id !in ids[..rank])
  }

  /** `GetRank`: the index search with -1 replaced by 998. */
  function GetRank(ids: seq<string>, id: string): (r: int)
    ensures RankedIn(ids, id, r)
    ensures id !in ids <==> (r == NotRanked && (|ids| <= NotRanked || ids[NotRanked] != id))
  {
    var index := FindIndex(ids, id);
    if index == -1 then NotRanked else index
  }

  /** One star record: identity from the Layer 1 view, its Layer 1 position,
      its positions in the Layer 2-4 lists, and the display fields. */
  function StarRecord(userId: int, view: StarView, rank: int,
                      l2: seq<string>, l3: seq<string>, l4: seq<string>): (r: GARecord)
    reads view.card
    ensures r.objectId == view.id && r.objectType == "Star" && r.layer1Rank == rank
    ensures RankedIn(l2, view.id, r.layer2Rank) && RankedIn(l3, view.id, r.layer3Rank) &&
      RankedIn(l4, view.id, r.layer4Rank)
    ensures view.card.visibilityChance >= 0.0 ==>
      0 <= r.visibilityChance && r.visibilityChance as real <= view.card.visibilityChance < r.visibilityChance as real + 1.0
  {
    var card := view.card;
    GARecord(userId, view.id, "Star", view.star.name, rank,
      GetRank(l2, view.id), GetRank(l3, view.id), GetRank(l4, view.id),
      card.matchPercentage, card.score, view.isVisible, view.altitude, view.azimuth,
      Truncate(card.visibilityChance), card.chanceReason, card.boostDescription,
      Some(view.spectralType), None, None, None, 0.0, 0.0, None, None, view.star.gmag)
  }

  function PlanetRecord(userId: int, view: PlanetView, rank: int,
                        l2: seq<string>, l3: seq<string>, l4: seq<string>): (r: GARecord)
    reads view.card
    ensures r.objectId == view.id && r.objectType == "Planet" && r.layer1Rank == rank
    ensures RankedIn(l2, view.id, r.layer2Rank) && RankedIn(l3, view.id, r.layer3Rank) &&
      RankedIn(l4, view.id, r.layer4Rank)
    ensures r.diameter == GetOrElse(view.planet.diameter, 0.0) && r.mass == GetOrElse(view.planet.mass, 0.0)
  {
    var card := view.card;
    GARecord(userId, view.id, "Planet", view.planet.name, rank,
      GetRank(l2, view.id), GetRank(l3, view.id), GetRank(l4, view.id),
      card.matchPercentage, card.score, view.isVisible, view.altitude, view.azimuth,
      Truncate(card.visibilityChance), card.chanceReason, card.boostDescription,
      None, Some(view.planetType), None, Some(view.planet.color),
      GetOrElse(view.planet.diameter, 0.0), GetOrElse(view.planet.mass, 0.0), None, None, None)
  }

  function MoonRecord(userId: int, view: MoonView, rank: int,
                      l2: seq<string>, l3: seq<string>, l4: seq<string>): (r: GARecord)
    reads view.card
    ensures r.objectId == view.id && r.objectType == "Moon" && r.layer1Rank == rank
    ensures RankedIn(l2, view.id, r.layer2Rank) && RankedIn(l3, view.id, r.layer3Rank) &&
      RankedIn(l4, view.id, r.layer4Rank)
    ensures r.diameter == GetOrElse(view.moon.diameter, 0.0) && r.mass == GetOrElse(view.moon.mass, 0.0)
  {
    var card := view.card;
    GARecord(userId, view.id, "Moon", view.moon.name, rank,
      GetRank(l2, view.id), GetRank(l3, view.id), GetRank(l4, view.id),
      card.matchPercentage, card.score, view.isVisible, view.altitude, view.azimuth,
      Truncate(card.visibilityChance), card.chanceReason, card.boostDescription,
      None, None, Some(view.parent), Some(view.moon.color),
      GetOrElse(view.moon.diameter, 0.0), GetOrElse(view.moon.mass, 0.0),
      Some(view.moon.composition), Some(view.moon.surfaceFeatures), None)
  }

  /** The records `ConvertStars` produces, one per Layer 1 view, in order. */
  function StarRecords(userId: int, l1: seq<StarView>, l2: seq<StarView>, l3: seq<StarView>,
                       l4: seq<StarView>): (r: seq<GARecord>)
    reads StarCards(l1)
    ensures |r| == |l1|
    ensures forall i :: 0 <= i < |l1| ==> r[i] == StarRecord(userId, l1[i], i, StarIds(l2), StarIds(l3), StarIds(l4))
  {
    seq(|l1|, i reads StarCards(l1) requires 0 <= i < |l1| =>
      StarRecord(userId, l1[i], i, StarIds(l2), StarIds(l3), StarIds(l4)))
  }

  function PlanetRecords(userId: int, l1: seq<PlanetView>, l2: seq<PlanetView>, l3: seq<PlanetView>,
                         l4: seq<PlanetView>): (r: seq<GARecord>)
    reads PlanetCards(l1)
    ensures |r| == |l1|
    ensures forall i :: 0 <= i < |l1| ==>
      r[i] == PlanetRecord(userId, l1[i], i, PlanetIds(l2), PlanetIds(l3), PlanetIds(l4))
  {
    seq(|l1|, i reads PlanetCards(l1) requires 0 <= i < |l1| =>
      PlanetRecord(userId, l1[i], i, PlanetIds(l2), PlanetIds(l3), PlanetIds(l4)))
  }

  function MoonRecords(userId: int, l1: seq<MoonView>, l2: seq<MoonView>, l3: seq<MoonView>,
                       l4: seq<MoonView>): (r: seq<GARecord>)
    reads MoonCards(l1)
    ensures |r| == |l1|
    ensures forall i :: 0 <= i < |l1| ==> r[i] == MoonRecord(userId, l1[i], i, MoonIds(l2), MoonIds(l3), MoonIds(l4))
  {
    seq(|l1|, i reads MoonCards(l1) requires 0 <= i < |l1| =>
      MoonRecord(userId, l1[i], i, MoonIds(l2), MoonIds(l3), MoonIds(l4)))
  }

  /** `ConvertStars`: one new GA object per Layer 1 star view, in Layer 1 order. */
  method ConvertStars(userId: int, l1: seq<StarView>, l2: seq<StarView>, l3: seq<StarView>,
                      l4: seq<StarView>) returns (result: seq<GAObject>)
    ensures Records(result) == StarRecords(userId, l1, l2, l3, l4)
    ensures (forall k :: 0 <= k < |result| ==> fresh(result[k])) && Distinct(result)
  {
    var ids2, ids3, ids4 := StarIds(l2), StarIds(l3), StarIds(l4);
    result := [];
    for i := 0 to |l1|
      invariant |result| == i
      invariant forall k :: 0 <= k < i ==> result[k].record == StarRecord(userId, l1[k], k, ids2, ids3, ids4)
      invariant (forall k :: 0 <= k < |result| ==> fresh(result[k])) && Distinct(result)
    {
      var o := new GAObject(StarRecord(userId, l1[i], i, ids2, ids3, ids4));
      result := result + [o];
    }
  }

  method ConvertPlanets(userId: int, l1: seq<PlanetView>, l2: seq<PlanetView>, l3: seq<PlanetView>,
                        l4: seq<PlanetView>) returns (result: seq<GAObject>)
    ensures Records(result) == PlanetRecords(userId, l1, l2, l3, l4)
    ensures (forall k :: 0 <= k < |result| ==> fresh(result[k])) && Distinct(result)
  {
    var ids2, ids3, ids4 := PlanetIds(l2), PlanetIds(l3), PlanetIds(l4);
    result := [];
    for i := 0 to |l1|
      invariant |result| == i
      invariant forall k :: 0 <= k < i ==> result[k].record == PlanetRecord(userId, l1[k], k, ids2, ids3, ids4)
      invariant (forall k :: 0 <= k < |result| ==> fresh(result[k])) && Distinct(result)
    {
      var o := new GAObject(PlanetRecord(userId, l1[i], i, ids2, ids3, ids4));
      result := result + [o];
    }
  }

  method ConvertMoons(userId: int, l1: seq<MoonView>, l2: seq<MoonView>, l3: seq<MoonView>,
                      l4: seq<MoonView>) returns (result: seq<GAObject>)
    ensures Records(result) == MoonRecords(userId, l1, l2, l3, l4)
    ensures (forall k :: 0 <= k < |result| ==> fresh(result[k])) && Distinct(result)
  {
    var ids2, ids3, ids4 := MoonIds(l2), MoonIds(l3), MoonIds(l4);
    result := [];
    for i := 0 to |l1|
      invariant |result| == i
      invariant forall k :: 0 <= k < i ==> result[k].record == MoonRecord(userId, l1[k], k, ids2, ids3, ids4)
      invariant (forall k :: 0 <= k < |result| ==> fresh(result[k])) && Distinct(result)
    {
      var o := new GAObject(MoonRecord(userId, l1[i], i, ids2, ids3, ids4));
      result := result + [o];
    }
  }

  /** The Layer 2-4 lists of one object type. */
  datatype Layers<V> = Layers(l1: seq<V>, l2: seq<V>, l3: seq<V>, l4: seq<V>)

  /** `ConvertToGAInput`: the star, planet and moon objects, in that order.
      Objects that only Layers 2-4 returned are not included. */
  method ConvertToGAInput(user: User, stars: Layers<StarView>, planets: Layers<PlanetView>,
                          moons: Layers<MoonView>) returns (input: seq<GAObject>)
    ensures Records(input) ==
      StarRecords(user.id, stars.l1, stars.l2, stars.l3, stars.l4) +
      PlanetRecords(user.id, planets.l1, planets.l2, planets.l3, planets.l4) +
      MoonRecords(user.id, moons.l1, moons.l2, moons.l3, moons.l4)
    ensures (forall k :: 0 <= k < |input| ==> fresh(input[k])) && Distinct(input)
  {
    var s := ConvertStars(user.id, stars.l1, stars.l2, stars.l3, stars.l4);
    label Stars:
    var p := ConvertPlanets(user.id, planets.l1, planets.l2, planets.l3, planets.l4);
    label Planets:
    var m := ConvertMoons(user.id, moons.l1, moons.l2, moons.l3, moons.l4);
    input := s + p + m;
    assert StarRecords(user.id, stars.l1, stars.l2, stars.l3, stars.l4) ==
      old@Stars(StarRecords(user.id, stars.l1, stars.l2, stars.l3, stars.l4));
    assert PlanetRecords(user.id, planets.l1, planets.l2, planets.l3, planets.l4) ==
      old@Planets(PlanetRecords(user.id, planets.l1, planets.l2, planets.l3, planets.l4));
    RecordsConcat(s, p);
    RecordsConcat(s + p, m);
    assert Distinct(input) by {
      assert forall i, j :: 0 <= i < |s| && 0 <= j < |p| ==> s[i] != p[j] by {
        forall i, j | 0 <= i < |s| && 0 <= j < |p| ensures s[i] != p[j] {
          assert old@Stars(allocated(s[i]));
        }
      }
      DistinctConcat(s, p);
      assert forall i, j :: 0 <= i < |s + p| && 0 <= j < |m| ==> (s + p)[i] != m[j] by {
        forall i, j | 0 <= i < |s + p| && 0 <= j < |m| ensures (s + p)[i] != m[j] {
          assert old@Planets(allocated((s + p)[i]));
        }
      }
      DistinctConcat(s + p, m);
    }
  }

  lemma DistinctConcat(a: seq<GAObject>, b: seq<GAObject>)
    requires Distinct(a) && Distinct(b)
    requires forall i, j :: 0 <= i < |a| && 0 <= j < |b| ==> a[i] != b[j]
    ensures Distinct(a + b)
  {
  }

  lemma RecordsConcat(a: seq<GAObject>, b: seq<GAObject>)
    ensures Records(a + b) == Records(a) + Records(b)
  {
  }

  /** The indices `a`, `a + 1`, ..., `b - 1`. */
  function Interval(a: nat, b: nat): (r: seq<nat>)
    requires a <= b
    ensures |r| == b - a && forall k :: 0 <= k < b - a ==> r[k] == a + k
  {
    seq(b - a, k requires 0 <= k < b - a => a + k)
  }

  /** `Where` of flags set exactly on `[a, b)` is that interval. */
  lemma {:induction false} WhereInterval(flags: seq<bool>, a: nat, b: nat)
    requires a <= b <= |flags|
    requires forall i :: 0 <= i < |flags| ==> (flags[i] <==> a <= i < b)
    ensures Where(flags) == Interval(a, b)
  {
    if flags == [] {
    } else {
      var last := |flags| - 1;
      if flags[last] {
        WhereInterval(flags[..last], a, last);
        assert Interval(a, last) + [last] == Interval(a, b);
      } else if b == |flags| {
        WhereInterval(flags[..last], last, last);
      } else {
        WhereInterval(flags[..last], a, b);
      }
    }
  }

  /** `OfType` of a flagged list picks the contiguous group of that type. */
  lemma {:induction false} OfTypeInterval(input: seq<GAObject>, objectType: string, a: nat, b: nat)
    requires a <= b <= |input|
    requires forall i :: 0 <= i < |input| ==>
      (EqualsIgnoreCase(input[i].record.objectType, objectType) <==> a <= i < b)
    ensures OfType(input, objectType) == input[a..b]
  {
    var flags := seq(|input|, i requires 0 <= i < |input| =>
      EqualsIgnoreCase(input[i].record.objectType, objectType));
    WhereInterval(flags, a, b);
    assert Pick(input, Interval(a, b)) == input[a..b];
  }

  /** How the GA's case-insensitive type filter treats the three type names. */
  lemma KnownTypes()
    ensures EqualsIgnoreCase("Star", "Star") && !EqualsIgnoreCase("Star", "Planet") && !EqualsIgnoreCase("Star", "Moon")
    ensures !EqualsIgnoreCase("Planet", "Star") && EqualsIgnoreCase("Planet", "Planet") && !EqualsIgnoreCase("Planet", "Moon")
    ensures !EqualsIgnoreCase("Moon", "Star") && !EqualsIgnoreCase("Moon", "Planet") && EqualsIgnoreCase("Moon", "Moon")
  {
    TypesDisjoint("Star");
    TypesDisjoint("Planet");
    TypesDisjoint("Moon");
  }

  /** When the objects of one type form the block `[a, b)` of an input made
      only of stars, planets and moons, the GA's type filter returns that block. */
  lemma {:induction false} GroupOfType(input: seq<GAObject>, objectType: string, a: nat, b: nat)
    requires a <= b <= |input|
    requires objectType == "Star" || objectType == "Planet" || objectType == "Moon"
    requires forall i :: 0 <= i < |input| ==> input[i].record.objectType in ["Star", "Planet", "Moon"]
    requires forall i :: 0 <= i < |input| ==> (input[i].record.objectType == objectType <==> a <= i < b)
    ensures OfType(input, objectType) == input[a..b]
  {
    forall i | 0 <= i < |input|
      ensures EqualsIgnoreCase(input[i].record.objectType, objectType) <==> a <= i < b
    {
      KnownTypes();
    }
    OfTypeInterval(input, objectType, a, b);
  }

  /** In the converted input the GA's type filter recovers exactly the
      star, planet and moon parts. */
  lemma StarsOfInput(input: seq<GAObject>, ns: nat, np: nat)
    requires ns + np <= |input|
    requires forall i :: 0 <= i < |input| ==>
      input[i].record.objectType == (if i < ns then "Star" else if i < ns + np then "Planet" else "Moon")
    ensures OfType(input, "Star") == input[..ns]
  {
    GroupOfType(input, "Star", 0, ns);
    assert input[0..ns] == input[..ns];
  }

  lemma PlanetsOfInput(input: seq<GAObject>, ns: nat, np: nat)
    requires ns + np <= |input|
    requires forall i :: 0 <= i < |input| ==>
      input[i].record.objectType == (if i < ns then "Star" else if i < ns + np then "Planet" else "Moon")
    ensures OfType(input, "Planet") == input[ns..ns + np]
  {
    GroupOfType(input, "Planet", ns, ns + np);
  }

  lemma MoonsOfInput(input: seq<GAObject>, ns: nat, np: nat)
    requires ns + np <= |input|
    requires forall i :: 0 <= i < |input| ==>
      input[i].record.objectType == (if i < ns then "Star" else if i < ns + np then "Planet" else "Moon")
    ensures OfType(input, "Moon") == input[ns + np..|input|]
  {
    GroupOfType(input, "Moon", ns + np, |input|);
  }

  /** Each type's result is the GA optimum over its part of the input:
      `[0, ns)` stars, `[ns, ns + np)` planets, the rest moons. */
  ghost predicate OptimizedParts(input: seq<GAObject>, ns: nat, np: nat, result: GAResult, stream: nat -> real)
    requires ns + np <= |input|
    reads input, result.bestStarWeights, result.bestPlanetWeights, result.bestMoonWeights
  {
    Optimized(input[..ns], result.stars, result.bestStarWeights, stream) &&
    Optimized(input[ns..ns + np], result.planets, result.bestPlanetWeights, stream) &&
    Optimized(input[ns + np..|input|], result.moons, result.bestMoonWeights, stream)
  }

  /** The GA run on an input laid out as stars, then planets, then moons:
      each type's result is the optimum over exactly that part. */
  method OptimizeParts(input: seq<GAObject>, ns: nat, np: nat, random: RandomSource.Random,
                       gaussian: (real, real) -> real)
    returns (r: Result<GAResult, Exception>)
    requires ns + np <= |input|
    requires forall i :: 0 <= i < |input| ==>
      input[i].record.objectType == (if i < ns then "Star" else if i < ns + np then "Planet" else "Moon")
    requires random.Valid()
    modifies random, input
    ensures r.Err? <==> |input| == 0
    ensures r.Err? ==> r.error == ArgumentException("Input objects cannot be null or empty")
    ensures r.Ok? ==> OptimizedParts(input, ns, np, r.value, random.stream)
  {
    StarsOfInput(input, ns, np);
    PlanetsOfInput(input, ns, np);
    MoonsOfInput(input, ns, np);
    r := OptimizeRankFusion(Some(input), random, gaussian);
  }

  /** `RunOptimization`: convert, then run the GA, which fails exactly when
      Layer 1 returned nothing at all; otherwise each type's result is the
      GA's optimum over precisely that type's converted Layer 1 objects. */
  method RunOptimization(user: User, stars: Layers<StarView>, planets: Layers<PlanetView>,
                         moons: Layers<MoonView>, random: RandomSource.Random,
                         gaussian: (real, real) -> real)
    returns (r: Result<GAResult, Exception>, ghost input: seq<GAObject>)
    requires random.Valid()
    modifies random
    ensures r.Err? <==> |stars.l1| + |planets.l1| + |moons.l1| == 0
    ensures r.Err? ==> r.error == ArgumentException("Input objects cannot be null or empty")
    ensures Records(input) == old(
      StarRecords(user.id, stars.l1, stars.l2, stars.l3, stars.l4) +
      PlanetRecords(user.id, planets.l1, planets.l2, planets.l3, planets.l4) +
      MoonRecords(user.id, moons.l1, moons.l2, moons.l3, moons.l4))
    ensures r.Ok? ==> OptimizedParts(input, |stars.l1|, |planets.l1|, r.value, random.stream)
  {
    var objects := ConvertToGAInput(user, stars, planets, moons);
    input := objects;
    assert StarRecords(user.id, stars.l1, stars.l2, stars.l3, stars.l4) ==
      old(StarRecords(user.id, stars.l1, stars.l2, stars.l3, stars.l4));
    assert PlanetRecords(user.id, planets.l1, planets.l2, planets.l3, planets.l4) ==
      old(PlanetRecords(user.id, planets.l1, planets.l2, planets.l3, planets.l4));
    assert MoonRecords(user.id, moons.l1, moons.l2, moons.l3, moons.l4) ==
      old(MoonRecords(user.id, moons.l1, moons.l2, moons.l3, moons.l4));
    var ns, np := |stars.l1|, |planets.l1|;
    ghost var records := Records(objects);
    forall i | 0 <= i < |objects|
      ensures objects[i].record.objectType == (if i < ns then "Star" else if i < ns + np then "Planet" else "Moon")
    {
      assert objects[i].record == records[i];
    }
    r := OptimizeParts(objects, ns, np, random, gaussian);
  }
}
