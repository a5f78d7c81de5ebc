/** Layer 2 of the stand-alone engine (`Layer_2_Poppys_Trend_Booster`): raises
    the Layer 1 score of every object that has a row in the trend model's
    output, by at most a quarter of the ceiling, and keeps only boosted
    objects. Objects without a row lose their score and are not returned. */
module TrendBooster {
  import opened Wrappers
  import opened Numerics
  import opened Sorting
  import opened Ranking
  import opened Text
  import opened Views
  import opened Boosting

  /** `ComputeInteractionScore`: the object's share of the largest total. */
  function InteractionScore(row: Interaction, maxTotal: real): (r: real)
    ensures 0.0 <= row.totalInteractions <= maxTotal ==> 0.0 <= r <= 1.0
    ensures maxTotal == 0.0 ==> r == 0.0
  {
    if maxTotal == 0.0 then 0.0
    else
      assert 0.0 <= row.totalInteractions <= maxTotal ==> row.totalInteractions / maxTotal <= 1.0 by {
        if 0.0 <= row.totalInteractions <= maxTotal { DivMonotone(row.totalInteractions, maxTotal, maxTotal); }
      }
      row.totalInteractions / maxTotal
  }

  /** The trend model's score clamped to `[0, 100]`, as a fraction. */
  function TrendingNormalized(trendingScore: real): (r: real)
    ensures 0.0 <= r <= 1.0
    ensures 0.0 <= trendingScore <= 100.0 ==> r * 100.0 == trendingScore
  {
    Max(0.0, Min(100.0, trendingScore)) / 100.0
  }

  /** `boostFactor`: 60% interaction volume, 40% trend score. */
  function BoostFactor(row: Interaction, maxTotal: real): (r: real)
    ensures 0.0 <= row.totalInteractions <= maxTotal ==> 0.0 <= r <= 1.0
    ensures row.totalInteractions >= 0.0 && maxTotal >= 0.0 ==> r >= 0.0
  {
    var i := InteractionScore(row, maxTotal);
    assert row.totalInteractions >= 0.0 && maxTotal > 0.0 ==> i >= 0.0 by {
      if row.totalInteractions >= 0.0 && maxTotal > 0.0 { DivNonNegative(row.totalInteractions, maxTotal); }
    }
    i * 0.6 + TrendingNormalized(row.trendingScore) * 0.4
  }

  /** `interactions.Max(i => i.total_interactions)`. */
  function MaxInteractions(rows: seq<Interaction>): (r: real)
    requires |rows| > 0
    ensures forall i :: 0 <= i < |rows| ==> rows[i].totalInteractions <= r
    ensures exists i :: 0 <= i < |rows| && rows[i].totalInteractions == r
  {
    if |rows| == 1 then rows[0].totalInteractions
    else
      var m := MaxInteractions(rows[1..]);
      assert forall i :: 1 <= i < |rows| ==> rows[i] == rows[1..][i - 1];
      if rows[0].totalInteractions > m then rows[0].totalInteractions else m
  }

  /** The first position whose object id already occurred earlier, which is
      where `ToDictionary` throws. */
  function FirstRepeat(rows: seq<Interaction>): (r: Option<nat>)
    ensures r.None? <==> forall i, j :: 0 <= i < j < |rows| ==> rows[i].objectId != rows[j].objectId
    ensures r.Some? ==> (r.value < |rows| &&
      (exists j :: 0 <= j < r.value && rows[j].objectId == rows[r.value].objectId) &&
      forall i, j :: 0 <= i < j < r.value ==> rows[i].objectId != rows[j].objectId)
  {
    if rows == [] then None
    else
      var last := |rows| - 1;
      var p := FirstRepeat(rows[..last]);
      if p.Some? then p
      else if exists j :: 0 <= j < last && rows[j].objectId == rows[last].objectId then Some(last)
      else None
  }

  /** The exception `ToDictionary` raises for a repeated key. */
  function DuplicateKey(key: int): Exception {
    ArgumentException("An item with the same key has already been added. Key: " + IntToString(key))
  }

  /** `interactionLookup.TryGetValue(id, ...)`: the row whose id prints as
      the object's id. */
  function Lookup(rows: seq<Interaction>, key: string): Option<Interaction> {
    if rows == [] then None
    else if IntToString(rows[0].objectId) == key then Some(rows[0])
    else Lookup(rows[1..], key)
  }

  /** A found row is one of the rows and carries the key; nothing is found
      exactly when no row carries it. */
  lemma {:induction false} LookupSpec(rows: seq<Interaction>, key: string)
    ensures Lookup(rows, key).Some? ==> Lookup(rows, key).value in rows && IntToString(Lookup(rows, key).value.objectId) == key
    ensures Lookup(rows, key).None? <==> forall i :: 0 <= i < |rows| ==> IntToString(rows[i].objectId) != key
  {
    if rows != [] && IntToString(rows[0].objectId) != key {
      LookupSpec(rows[1..], key);
      assert forall i :: 1 <= i < |rows| ==> rows[i] == rows[1..][i - 1];
    }
  }

  /** Steps 3 and 4 for a matched object, before rounding: add the boost,
      then cap it at a quarter of the ceiling above the base and at the
      ceiling. */
  function CappedScore(base: real, maxPossible: real, factor: real): (r: real)
    ensures r <= maxPossible && r <= base + maxPossible * 0.25
    ensures 0.0 <= factor && maxPossible >= 0.0 && base <= maxPossible ==> base <= r
  {
    var maxBoost := maxPossible * 0.25;
    var boostValue := maxBoost * factor;
    assert 0.0 <= factor && maxPossible >= 0.0 ==> boostValue >= 0.0 by {
      if 0.0 <= factor && maxPossible >= 0.0 { MulNonNegative(maxBoost, factor); }
    }
    var boosted := base + boostValue;
    var capped := if boosted > base + maxBoost then base + maxBoost else boosted;
    if capped > maxPossible then maxPossible else capped
  }

  /** The score a matched object ends with, rounded to cents. */
  function BoostedScore(base: real, maxPossible: real, factor: real): real {
    Round2(CappedScore(base, maxPossible, factor))
  }

  /** The matched object's score is at most the ceiling and at most a quarter
      of the ceiling above its base; with a non-negative factor and a base
      within the ceiling it is never below the base. */
  lemma BoostedScoreBounds(base: real, maxPossible: real, factor: real)
    requires maxPossible > 0.0
    ensures BoostedScore(base, maxPossible, factor) <= Round2(maxPossible)
    ensures BoostedScore(base, maxPossible, factor) <= Round2(base + maxPossible * 0.25)
    ensures 0.0 <= factor && base <= maxPossible ==> Round2(base) <= BoostedScore(base, maxPossible, factor)
  {
    var capped := CappedScore(base, maxPossible, factor);
    Round2Monotone(capped, maxPossible);
    Round2Monotone(capped, base + maxPossible * 0.25);
    if 0.0 <= factor && base <= maxPossible {
      Round2Monotone(base, capped);
    }
  }

  /** The new state of one object. */
  function BoostOne(s: CardState, row: Option<Interaction>, maxPossible: real, maxTotal: real): (r: CardState)
    requires maxPossible > 0.0
  {
    match row
    case None => s.(score := 0.0, matchPercentage := 0.0, boostDescription := "No boost")
    case Some(trend) =>
      var boosted := BoostedScore(s.score, maxPossible, BoostFactor(trend, maxTotal));
      var boostPercent := RoundHalfEven((boosted - s.score) / maxPossible * 100.0);
      s.(score := boosted, matchPercentage := MatchPercentageOf(boosted, maxPossible),
         boostDescription := BoostedBy(boostPercent))
  }

  /** The row found for each object. */
  function Found(keys: seq<string>, rows: seq<Interaction>): (r: seq<Option<Interaction>>)
    ensures |r| == |keys|
  {
    seq(|keys|, i requires 0 <= i < |keys| => Lookup(rows, keys[i]))
  }

  /** The states after the boost loop, when there are objects and rows. */
  function Boost(states: seq<CardState>, keys: seq<string>, rows: seq<Interaction>): (r: seq<CardState>)
    requires |keys| == |states| && |rows| > 0
    ensures |r| == |states|
  {
    BoostWith(states, Found(keys, rows), MaxPossibleScore(states, true), MaxInteractions(rows))
  }

  /** The boost loop's result once each object's row `found[i]` is known. */
  function BoostWith(states: seq<CardState>, found: seq<Option<Interaction>>, maxPossible: real, maxTotal: real)
    : (r: seq<CardState>)
    requires |found| == |states| && maxPossible > 0.0
    ensures |r| == |states|
  {
    seq(|states|, i requires 0 <= i < |states| => BoostOne(states[i], found[i], maxPossible, maxTotal))
  }

  /** With no rows at all, every object is only labelled "No boost". */
  function NoBoost(states: seq<CardState>): (r: seq<CardState>)
    ensures |r| == |states|
  {
    seq(|states|, i requires 0 <= i < |states| => states[i].(boostDescription := "No boost"))
  }

  /** Whether `BoostScores` throws: there are objects and rows, and a row id repeats. */
  predicate Fails(count: nat, rows: seq<Interaction>) {
    count > 0 && |rows| > 0 && FirstRepeat(rows).Some?
  }

  /** The states `BoostScores` leaves when it does not throw. */
  function Outcome(states: seq<CardState>, keys: seq<string>, rows: seq<Interaction>): (r: seq<CardState>)
    requires |keys| == |states|
    ensures |r| == |states|
  {
    if |states| == 0 then states else if |rows| == 0 then NoBoost(states) else Boost(states, keys, rows)
  }

  /** The positions `BoostScores` returns, read off the new states. */
  function Returned(newStates: seq<CardState>, rows: seq<Interaction>, topN: int): (r: seq<nat>)
    ensures forall k :: 0 <= k < |r| ==> r[k] < |newStates|
  {
    if |newStates| == 0 || |rows| == 0 then [] else TopPositive(Scores(newStates), topN)
  }

  /** Every returned object had a row and a positive boosted score; the list
      is the best `topN` of those, in descending score order; with no rows
      nothing is returned. */
  lemma ReturnedSpec(states: seq<CardState>, keys: seq<string>, rows: seq<Interaction>, topN: int)
    requires |keys| == |states|
    ensures var after := Outcome(states, keys, rows);
      var r := Returned(after, rows, topN);
      (|rows| == 0 ==> r == []) &&
      (forall k :: 0 <= k < |r| ==> Lookup(rows, keys[r[k]]).Some? && after[r[k]].score > 0.0) &&
      (|rows| > 0 ==> IsTop(Scores(after), PositiveIndices(Scores(after)), topN, r))
  {
    var after := Outcome(states, keys, rows);
    var r := Returned(after, rows, topN);
    if |rows| > 0 {
      TopPositiveSpec(Scores(after), topN);
      forall k | 0 <= k < |r| ensures Lookup(rows, keys[r[k]]).Some? && after[r[k]].score > 0.0 {
        assert Scores(after)[r[k]] > 0.0;
      }
    }
  }

  /** A matched object whose score lies in `[0, maxPossible]`, boosted by a
      row whose total lies in `[0, maxTotal]`, ends with a score between its
      rounded base and the rounded ceiling, and a percentage in `[0, 100]`. */
  lemma BoostOneBounds(s: CardState, row: Interaction, maxPossible: real, maxTotal: real)
    requires maxPossible > 0.0 && 0.0 <= s.score <= maxPossible
    requires 0.0 <= row.totalInteractions <= maxTotal
    ensures var after := BoostOne(s, Some(row), maxPossible, maxTotal);
      Round2(s.score) <= after.score <= Round2(maxPossible) &&
      0.0 <= after.matchPercentage <= 100.0
  {
    BoostedScoreBounds(s.score, maxPossible, BoostFactor(row, maxTotal));
    Round2AtLeast(s.score, 0.0);
  }

  /** In the boost loop, a matched object with a sound Layer 1 percentage (in
      `(0, 100]`) and a non-negative score, boosted by rows whose totals are
      non-negative, is never lowered and never passes the rounded ceiling. */
  lemma {:induction false} BoostNeverLowers(states: seq<CardState>, keys: seq<string>, rows: seq<Interaction>, i: nat)
    requires |keys| == |states| && |rows| > 0 && i < |states|
    requires forall j :: 0 <= j < |rows| ==> rows[j].totalInteractions >= 0.0
    requires 0.0 < states[i].matchPercentage <= 100.0 && states[i].score >= 0.0
    requires Lookup(rows, keys[i]).Some?
    ensures var after := Boost(states, keys, rows)[i];
      Round2(states[i].score) <= after.score <= Round2(MaxPossibleScore(states, true)) &&
      0.0 <= after.matchPercentage <= 100.0
  {
    var s := states[i];
    var row := Lookup(rows, keys[i]).value;
    LookupSpec(rows, keys[i]);
    ScoreWithinCeiling(states, true, i);
    var maxTotal := MaxInteractions(rows);
    assert 0.0 <= row.totalInteractions <= maxTotal;
    BoostOneBounds(s, row, MaxPossibleScore(states, true), maxTotal);
  }

  /** What a successful `BoostScores` leaves behind: the cards hold the
      outcome of the boost and the result lists the returned objects. */
  ghost predicate BoostedAs<T>(objects: seq<T>, before: seq<CardState>, after: seq<CardState>,
                               keys: seq<string>, rows: seq<Interaction>, topN: int, result: seq<T>)
  {
    |keys| == |before| && |objects| == |before| &&
    after == Outcome(before, keys, rows) &&
    result == Pick(objects, Returned(after, rows, topN))
  }

  /** The no-interactions branch: only the descriptions change. */
  method LabelNoBoost(cards: seq<ScoreCard>)
    requires DistinctCards(cards)
    modifies cards
    ensures States(cards) == NoBoost(old(States(cards)))
  {
    ghost var before := States(cards);
    for i := 0 to |cards|
      invariant forall k :: 0 <= k < i ==> cards[k].State() == NoBoost(before)[k]
      invariant forall k :: i <= k < |cards| ==> cards[k].State() == before[k]
    {
      cards[i].boostDescription := "No boost";
    }
  }

  /** The boost loop, with the ceiling, the largest total and each object's
      row already known. */
  method ApplyBoost(cards: seq<ScoreCard>, found: seq<Option<Interaction>>, maxPossible: real, maxTotal: real)
    requires DistinctCards(cards) && |found| == |cards| && maxPossible > 0.0
    modifies cards
    ensures States(cards) == BoostWith(old(States(cards)), found, maxPossible, maxTotal)
  {
    ghost var before := States(cards);
    ghost var target := BoostWith(before, found, maxPossible, maxTotal);
    for i := 0 to |cards|
      invariant forall k :: 0 <= k < i ==> cards[k].State() == target[k]
      invariant forall k :: i <= k < |cards| ==> cards[k].State() == before[k]
    {
      var s := cards[i].State();
      assert target[i] == BoostOne(s, found[i], maxPossible, maxTotal);
      SetState(cards[i], BoostOne(s, found[i], maxPossible, maxTotal));
    }
  }

  /** `BoostScores`: update every object's card in place and return the best
      `topN` boosted objects; a repeated row id throws before any card is
      written. */
  method BoostScores<T>(objects: seq<T>, cards: seq<ScoreCard>, keys: seq<string>,
                        rows: seq<Interaction>, topN: int)
    returns (r: Result<seq<T>, Exception>)
    requires |cards| == |objects| && |keys| == |objects|
    requires DistinctCards(cards)
    modifies cards
    ensures r.Err? <==> Fails(|objects|, rows)
    ensures r.Err? ==> (r.error == DuplicateKey(rows[FirstRepeat(rows).value].objectId) &&
      States(cards) == old(States(cards)))
    ensures r.Ok? ==> BoostedAs(objects, old(States(cards)), States(cards), keys, rows, topN, r.value)
  {
    if |objects| == 0 {
      return Ok([]);
    }
    if |rows| == 0 {
      LabelNoBoost(cards);
      return Ok([]);
    }
    var maxPossible := MaxPossible(cards, true);
    var maxTotal := MaxInteractions(rows);
    var repeat := FirstRepeat(rows);
    if repeat.Some? {
      return Err(DuplicateKey(rows[repeat.value].objectId));
    }
    var found := Found(keys, rows);
    ApplyBoost(cards, found, maxPossible, maxTotal);
    r := Ok(Pick(objects, TopPositive(Scores(States(cards)), topN)));
  }

  /** `interactions.Where(i => i.Object_Type == type)`: exact, case-sensitive. */
  function RowsOfType(rows: seq<Interaction>, objectType: string): (r: seq<Interaction>)
    ensures forall k :: 0 <= k < |r| ==> r[k] in rows && r[k].objectType == objectType
    ensures forall i :: 0 <= i < |rows| && rows[i].objectType == objectType ==> rows[i] in r
  {
    var flags := seq(|rows|, i requires 0 <= i < |rows| => rows[i].objectType == objectType);
    var picked := Where(flags);
    var r := Pick(rows, picked);
    assert forall i :: 0 <= i < |rows| && rows[i].objectType == objectType ==> rows[i] in r by {
      forall i | 0 <= i < |rows| && rows[i].objectType == objectType ensures rows[i] in r {
        assert flags[i];
        assert i in picked;
        var k :| 0 <= k < |picked| && picked[k] == i;
        assert r[k] == rows[i];
      }
    }
    r
  }

  /** The planet part of `BoostAll`: every planet keyed by its id. */
  method BoostPlanets(planets: seq<PlanetView>, planetRows: seq<Interaction>, n: int)
    returns (r: Result<seq<PlanetView>, Exception>)
    requires DistinctCards(PlanetCards(planets))
    modifies PlanetCards(planets)
    ensures r.Err? <==> Fails(|planets|, planetRows)
    ensures r.Ok? ==>
      BoostedAs(planets, old(States(PlanetCards(planets))), States(PlanetCards(planets)), PlanetIds(planets),
                planetRows, n, r.value)
  {
    r := BoostScores(planets, PlanetCards(planets), PlanetIds(planets), planetRows, n);
  }

  /** The moon part of `BoostAll`: every moon keyed by its id. */
  method BoostMoons(moons: seq<MoonView>, moonRows: seq<Interaction>, n: int)
    returns (r: Result<seq<MoonView>, Exception>)
    requires DistinctCards(MoonCards(moons))
    modifies MoonCards(moons)
    ensures r.Err? <==> Fails(|moons|, moonRows)
    ensures r.Ok? ==>
      BoostedAs(moons, old(States(MoonCards(moons))), States(MoonCards(moons)), MoonIds(moons),
                moonRows, n, r.value)
  {
    r := BoostScores(moons, MoonCards(moons), MoonIds(moons), moonRows, n);
  }

  /** The planet and moon half of `BoostAll`, on the rows kept for each. */
  method BoostPlanetsAndMoons(planets: seq<PlanetView>, moons: seq<MoonView>,
                              planetRows: seq<Interaction>, moonRows: seq<Interaction>, n: int)
    returns (r: Result<(seq<PlanetView>, seq<MoonView>), Exception>)
    requires DistinctCards(PlanetCards(planets)) && DistinctCards(MoonCards(moons))
    requires DisjointCards(PlanetCards(planets), MoonCards(moons))
    modifies PlanetCards(planets), MoonCards(moons)
    ensures r.Err? <==> Fails(|planets|, planetRows) || Fails(|moons|, moonRows)
    ensures r.Ok? ==>
      BoostedAs(planets, old(States(PlanetCards(planets))), States(PlanetCards(planets)), PlanetIds(planets),
                planetRows, n, r.value.0) &&
      BoostedAs(moons, old(States(MoonCards(moons))), States(MoonCards(moons)), MoonIds(moons),
                moonRows, n, r.value.1)
  {
    var planetCards := PlanetCards(planets);
    var boostedPlanets := BoostPlanets(planets, planetRows, n);
    if boostedPlanets.Err? {
      return Err(boostedPlanets.error);
    }
    StatesKept(MoonCards(moons));
    label Planets:
    var boostedMoons := BoostMoons(moons, moonRows, n);
    if boostedMoons.Err? {
      return Err(boostedMoons.error);
    }
    StatesKept@Planets(planetCards);
    r := Ok((boostedPlanets.value, boostedMoons.value));
  }

  /** `BoostAll`: boost stars, then planets, then moons, each against its own
      rows; the first repeated row id aborts the rest. */
  method BoostAll(stars: seq<StarView>, planets: seq<PlanetView>, moons: seq<MoonView>,
                  interactions: seq<Interaction>, topPerType: int)
    returns (r: Result<BoostResult, Exception>)
    requires DistinctCards(StarCards(stars)) && DistinctCards(PlanetCards(planets)) && DistinctCards(MoonCards(moons))
    requires DisjointCards(StarCards(stars), PlanetCards(planets)) && DisjointCards(StarCards(stars), MoonCards(moons))
    requires DisjointCards(PlanetCards(planets), MoonCards(moons))
    modifies StarCards(stars), PlanetCards(planets), MoonCards(moons)
    ensures r.Err? <==>
      Fails(|stars|, RowsOfType(interactions, "Star")) || Fails(|planets|, RowsOfType(interactions, "Planet")) ||
      Fails(|moons|, RowsOfType(interactions, "Moon"))
    ensures r.Ok? ==>
      BoostedAs(stars, old(States(StarCards(stars))), States(StarCards(stars)), StarIds(stars),
                RowsOfType(interactions, "Star"), TopPerType(topPerType), r.value.recommendedStars) &&
      BoostedAs(planets, old(States(PlanetCards(planets))), States(PlanetCards(planets)), PlanetIds(planets),
                RowsOfType(interactions, "Planet"), TopPerType(topPerType), r.value.recommendedPlanets) &&
      BoostedAs(moons, old(States(MoonCards(moons))), States(MoonCards(moons)), MoonIds(moons),
                RowsOfType(interactions, "Moon"), TopPerType(topPerType), r.value.recommendedMoons)
  {
    var n := TopPerType(topPerType);
    var starCards, starRows := StarCards(stars), RowsOfType(interactions, "Star");
    var boostedStars := BoostScores(stars, starCards, StarIds(stars), starRows, n);
    if boostedStars.Err? {
      return Err(boostedStars.error);
    }
    StatesKept(PlanetCards(planets));
    StatesKept(MoonCards(moons));
    label Stars:
    var rest := BoostPlanetsAndMoons(planets, moons, RowsOfType(interactions, "Planet"),
                                     RowsOfType(interactions, "Moon"), n);
    if rest.Err? {
      return Err(rest.error);
    }
    StatesKept@Stars(starCards);
    r := Ok(BoostResult(boostedStars.value, rest.value.0, rest.value.1));
  }
}
