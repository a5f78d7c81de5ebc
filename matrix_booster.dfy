/** Layer 3 of the stand-alone engine (`Layer_3_Poppys_Matrix_Booster`):
    each object's matrix preference, normalised to `[0, 1]`, scales a boost
    of up to half the ceiling that is added to its score; the sum is capped
    at half the ceiling above the base and at the ceiling. Types, categories
    and parents without a column score 0, and so get no boost. Only positive
    scores are returned, best first, up to `topN`. */
module MatrixBooster {
  import opened Numerics
  import opened Sorting
  import opened Ranking
  import opened Text
  import opened Views
  import opened Boosting
  import opened PreferenceMatrix

  /** `ComputeStarScore`: the whole spectral type, upper-cased, picks the
      matrix column; any other text scores 0. */
  function StarPreference(spectralType: string, prefs: UserMatrix): (r: real)
    ensures 0.0 <= r <= 1.0
    ensures ToUpper(spectralType) !in SpectralClasses ==> r == 0.0
  {
    Normalize(SpectralPreference(ToUpper(spectralType), prefs, 0.0))
  }

  /** A class letter reaches its column in either case, but a full spectral
      type such as "G2V" is not a class letter and scores 0. */
  lemma StarPreferenceExamples(prefs: UserMatrix)
    ensures StarPreference("g", prefs) == Normalize(prefs.g)
    ensures StarPreference("G2V", prefs) == 0.0
  {
    assert ToUpper("g") == "G";
    assert ToUpper("G2V") == "G2V";
  }

  /** `ComputePlanetScore`: the exact category picks the column; any other
      text scores 0. */
  function PlanetPreference(planetType: string, prefs: UserMatrix): (r: real)
    ensures 0.0 <= r <= 1.0
    ensures planetType !in PlanetCategories ==> r == 0.0
    ensures planetType == "Terrestrial" ==> r == Normalize(prefs.terrestrial)
  {
    Normalize(CategoryPreference(planetType, prefs, 0.0))
  }

  /** The category match is case-sensitive. */
  lemma PlanetPreferenceCaseSensitive(prefs: UserMatrix)
    ensures PlanetPreference("Gas Giant", prefs) == Normalize(prefs.gasGiant)
    ensures PlanetPreference("gas giant", prefs) == 0.0
  {
    assert "gas giant" != "Gas Giant";
  }

  /** `ComputeMoonScore`: the exact parent picks the column; any other text
      scores 0. */
  function MoonPreference(parent: string, prefs: UserMatrix): (r: real)
    ensures 0.0 <= r <= 1.0
    ensures parent !in ParentPlanets ==> r == 0.0
  {
    Normalize(ParentPreference(parent, prefs, 0.0))
  }

  /** Steps 2 and 3 for one object, before rounding: add half the ceiling
      times the preference, cap the sum at half the ceiling above the base,
      then at the ceiling. */
  function CappedScore(base: real, maxPossible: real, pref: real): (r: real)
    ensures r <= maxPossible && r <= base + maxPossible * 0.5
    ensures 0.0 <= pref && maxPossible >= 0.0 && base <= maxPossible ==> base <= r
  {
    assert 0.0 <= pref && maxPossible >= 0.0 ==> BoostValue(maxPossible, pref) >= 0.0 by {
      if 0.0 <= pref && maxPossible >= 0.0 { BoostValueMonotone(maxPossible, 0.0, pref); }
    }
    Caps(base, maxPossible * 0.5, maxPossible, base + BoostValue(maxPossible, pref))
  }

  /** `boostValue = maxBoost * preference`, with `maxBoost` half the ceiling. */
  function BoostValue(maxPossible: real, pref: real): real {
    maxPossible * 0.5 * pref
  }

  /** Over a non-negative ceiling the boost keeps the order of the
      preferences, and is zero at preference zero. */
  lemma BoostValueMonotone(maxPossible: real, p: real, q: real)
    requires maxPossible >= 0.0 && p <= q
    ensures BoostValue(maxPossible, p) <= BoostValue(maxPossible, q)
    ensures BoostValue(maxPossible, 0.0) == 0.0
  {
    if maxPossible > 0.0 {
      MulMonotone(maxPossible * 0.5, p, q);
    }
  }

  /** For a preference in `[0, 1]` the first cap never binds: the score is
      the base plus the scaled boost, capped at the ceiling. */
  lemma CappedScoreUncapped(base: real, maxPossible: real, pref: real)
    requires maxPossible >= 0.0 && 0.0 <= pref <= 1.0
    ensures CappedScore(base, maxPossible, pref) == Min(maxPossible, base + maxPossible * 0.5 * pref)
  {
    BoostValueMonotone(maxPossible, pref, 1.0);
    BoostValueMonotone(maxPossible, 0.0, pref);
  }

  /** The score an object ends with, rounded to cents. */
  function BoostedScore(base: real, maxPossible: real, pref: real): real {
    Round2(CappedScore(base, maxPossible, pref))
  }

  /** The boosted score is at most the rounded ceiling and at most half the
      ceiling above the base; with a non-negative preference and a base
      within the ceiling it is never below the rounded base. */
  lemma BoostedScoreBounds(base: real, maxPossible: real, pref: real)
    requires maxPossible > 0.0
    ensures BoostedScore(base, maxPossible, pref) <= Round2(maxPossible)
    ensures BoostedScore(base, maxPossible, pref) <= Round2(base + maxPossible * 0.5)
    ensures 0.0 <= pref && base <= maxPossible ==> Round2(base) <= BoostedScore(base, maxPossible, pref)
  {
    var capped := CappedScore(base, maxPossible, pref);
    Round2Monotone(capped, maxPossible);
    Round2Monotone(capped, base + maxPossible * 0.5);
    if 0.0 <= pref && base <= maxPossible {
      Round2Monotone(base, capped);
    }
  }

  /** For a fixed base and ceiling, a higher preference never lowers the
      boosted score. */
  lemma BoostedScoreMonotone(base: real, maxPossible: real, p: real, q: real)
    requires maxPossible > 0.0 && p <= q
    ensures BoostedScore(base, maxPossible, p) <= BoostedScore(base, maxPossible, q)
  {
    CappedMonotone(base, maxPossible, p, q);
    Round2Monotone(CappedScore(base, maxPossible, p), CappedScore(base, maxPossible, q));
  }

  /** Before rounding, a higher preference never lowers the score. */
  lemma CappedMonotone(base: real, maxPossible: real, p: real, q: real)
    requires maxPossible > 0.0 && p <= q
    ensures CappedScore(base, maxPossible, p) <= CappedScore(base, maxPossible, q)
  {
    BoostValueMonotone(maxPossible, p, q);
    CapsMonotone(base, maxPossible * 0.5, maxPossible, BoostValue(maxPossible, p), BoostValue(maxPossible, q));
  }

  /** `(int)Math.Round((boostedScore - baseScore) / maxPossibleScore * 100)`. */
  function BoostPercent(boosted: real, base: real, maxPossible: real): int
    requires maxPossible > 0.0
  {
    RoundHalfEven((boosted - base) / maxPossible * 100.0)
  }

  /** The new state of one object with preference `pref`. */
  function BoostOne(s: CardState, pref: real, maxPossible: real): CardState
    requires maxPossible > 0.0
  {
    var boosted := BoostedScore(s.score, maxPossible, pref);
    s.(score := boosted, matchPercentage := MatchPercentageOf(boosted, maxPossible),
       boostDescription := BoostedBy(BoostPercent(boosted, s.score, maxPossible)))
  }

  /** An object within the ceiling ends between its rounded base and the
      rounded ceiling, with a percentage in `[0, 100]`; it reads "No boost"
      exactly when its rounded gain is not a positive percentage; its
      visibility fields are untouched. */
  lemma BoostOneBounds(s: CardState, pref: real, maxPossible: real)
    requires maxPossible > 0.0 && 0.0 <= s.score <= maxPossible && 0.0 <= pref
    ensures var after := BoostOne(s, pref, maxPossible);
      Round2(s.score) <= after.score <= Round2(maxPossible) &&
      0.0 <= after.matchPercentage <= 100.0 &&
      (after.boostDescription == "No boost" <==> BoostPercent(after.score, s.score, maxPossible) <= 0) &&
      after.visibilityChance == s.visibilityChance && after.chanceReason == s.chanceReason
  {
    var boosted := BoostedScore(s.score, maxPossible, pref);
    BoostedScoreBounds(s.score, maxPossible, pref);
    Round2AtLeast(s.score, 0.0);
    BoostedByMeaning(BoostPercent(boosted, s.score, maxPossible));
  }

  /** The code does not skip an object whose score is not positive: an
      object at 0 with the full preference under a ceiling of 100 rises to
      50 and is then returned. */
  lemma ZeroScoreRaised(s: CardState)
    requires s.score == 0.0
    ensures BoostOne(s, 1.0, 100.0).score == 50.0
  {
    assert CappedScore(0.0, 100.0, 1.0) == 50.0;
    assert IsCents(50.0) by { assert 50.0 == (5000 as real) / 100.0; }
    Round2OfCents(50.0);
  }

  /** The boost loop's result for the preferences `prefs` and a ceiling. */
  function BoostWith(states: seq<CardState>, prefs: seq<real>, maxPossible: real): (r: seq<CardState>)
    requires |prefs| == |states| && maxPossible > 0.0
    ensures |r| == |states|
  {
    seq(|states|, i requires 0 <= i < |states| => BoostOne(states[i], prefs[i], maxPossible))
  }

  /** The states `BoostScores` leaves: every object boosted against the
      ceiling its list reveals. */
  function Boost(states: seq<CardState>, prefs: seq<real>): (r: seq<CardState>)
    requires |prefs| == |states|
    ensures |r| == |states|
  {
    BoostWith(states, prefs, MaxPossibleScore(states, true))
  }

  /** In the boost loop, an object with a sound percentage (in `(0, 100]`)
      and a non-negative score is never lowered and never passes the
      rounded ceiling, when its preference is not negative. */
  lemma BoostWithinCeiling(states: seq<CardState>, prefs: seq<real>, i: nat)
    requires |prefs| == |states| && i < |states|
    requires 0.0 < states[i].matchPercentage <= 100.0 && states[i].score >= 0.0 && prefs[i] >= 0.0
    ensures var after := Boost(states, prefs)[i];
      Round2(states[i].score) <= after.score <= Round2(MaxPossibleScore(states, true)) &&
      0.0 <= after.matchPercentage <= 100.0
  {
    ScoreWithinCeiling(states, true, i);
    BoostOneBounds(states[i], prefs[i], MaxPossibleScore(states, true));
  }

  /** The positions `BoostScores` returns, read off the new states. The
      `ThenByDescending` tie-breaker reads the score the loop has already
      overwritten, so it orders nothing the first key did not. */
  function Returned(after: seq<CardState>, topN: int): (r: seq<nat>)
    ensures forall k :: 0 <= k < |r| ==> r[k] < |after|
  {
    TopPositive(Scores(after), topN)
  }

  /** Every returned object has a positive boosted score; the list is the
      best `topN` of those, highest first; an empty list returns nothing. */
  lemma ReturnedSpec(states: seq<CardState>, prefs: seq<real>, topN: int)
    requires |prefs| == |states|
    ensures var after := Boost(states, prefs);
      var r := Returned(after, topN);
      (|states| == 0 ==> r == []) &&
      (forall k :: 0 <= k < |r| ==> after[r[k]].score > 0.0) &&
      |r| <= (if topN <= 0 then 0 else topN) &&
      IsTop(Scores(after), PositiveIndices(Scores(after)), topN, r)
  {
    var after := Boost(states, prefs);
    TopPositiveSpec(Scores(after), topN);
  }

  /** What `BoostScores` leaves behind: the cards hold the boosted states
      and the result lists the returned objects. */
  ghost predicate BoostedAs<T>(objects: seq<T>, before: seq<CardState>, after: seq<CardState>,
                               prefs: seq<real>, topN: int, result: seq<T>)
  {
    |objects| == |before| && |prefs| == |before| &&
    after == Boost(before, prefs) &&
    result == Pick(objects, Returned(after, topN))
  }

  /** The boost loop, with the ceiling and each object's preference known. */
  method ApplyBoost(cards: seq<ScoreCard>, prefs: seq<real>, maxPossible: real)
    requires DistinctCards(cards) && |prefs| == |cards| && maxPossible > 0.0
    modifies cards
    ensures States(cards) == BoostWith(old(States(cards)), prefs, maxPossible)
  {
    ghost var before := States(cards);
    ghost var target := BoostWith(before, prefs, maxPossible);
    for i := 0 to |cards|
      invariant forall k :: 0 <= k < i ==> cards[k].State() == target[k]
      invariant forall k :: i <= k < |cards| ==> cards[k].State() == before[k]
    {
      var s := cards[i].State();
      assert target[i] == BoostOne(s, prefs[i], maxPossible);
      SetState(cards[i], BoostOne(s, prefs[i], maxPossible));
    }
  }

  /** `BoostScores`: update every object's card in place and return the best
      `topN` objects with a positive score. `prefs[i]` is what
      `getPreferenceScore` gives for object `i`. */
  method BoostScores<T>(objects: seq<T>, cards: seq<ScoreCard>, prefs: seq<real>, topN: int)
    returns (r: seq<T>)
    requires |cards| == |objects| && |prefs| == |objects|
    requires DistinctCards(cards)
    modifies cards
    ensures BoostedAs(objects, old(States(cards)), States(cards), prefs, topN, r)
  {
    if |objects| == 0 {
      NothingToBoost(objects, States(cards), prefs, topN);
      return [];
    }
    ghost var before := States(cards);
    var maxPossible := MaxPossible(cards, true);
    ApplyBoost(cards, prefs, maxPossible);
    assert States(cards) == Boost(before, prefs);
    r := Pick(objects, TopPositive(Scores(States(cards)), topN));
  }

  /** An empty list is returned as it is. */
  lemma NothingToBoost<T>(objects: seq<T>, states: seq<CardState>, prefs: seq<real>, topN: int)
    requires |objects| == 0 && |states| == 0 && |prefs| == 0
    ensures BoostedAs(objects, states, states, prefs, topN, [])
  {
    assert Returned(states, topN) == [];
  }

  function StarPreferences(stars: seq<StarView>, prefs: UserMatrix): (r: seq<real>)
    ensures |r| == |stars|
  {
    seq(|stars|, i requires 0 <= i < |stars| => StarPreference(stars[i].star.spectralType, prefs))
  }

  function PlanetPreferences(planets: seq<PlanetView>, prefs: UserMatrix): (r: seq<real>)
    ensures |r| == |planets|
  {
    seq(|planets|, i requires 0 <= i < |planets| => PlanetPreference(planets[i].planet.planetType, prefs))
  }

  function MoonPreferences(moons: seq<MoonView>, prefs: UserMatrix): (r: seq<real>)
    ensures |r| == |moons|
  {
    seq(|moons|, i requires 0 <= i < |moons| => MoonPreference(moons[i].parent, prefs))
  }

  /** One list of `BoostAll`, leaving the cards of the two other lists as
      they are. */
  method BoostKeeping<T>(objects: seq<T>, cards: seq<ScoreCard>, prefs: seq<real>, topN: int,
                         ghost kept1: seq<ScoreCard>, ghost kept2: seq<ScoreCard>)
    returns (r: seq<T>)
    requires |cards| == |objects| && |prefs| == |objects|
    requires DistinctCards(cards) && DisjointCards(kept1, cards) && DisjointCards(kept2, cards)
    modifies cards
    ensures States(kept1) == old(States(kept1)) && States(kept2) == old(States(kept2))
    ensures BoostedAs(objects, old(States(cards)), States(cards), prefs, topN, r)
  {
    r := BoostScores(objects, cards, prefs, topN);
    StatesKept(kept1);
    StatesKept(kept2);
  }

  /** `BoostAll`: boost stars, then planets, then moons, each against the
      ceiling of its own list. */
  method BoostAll(stars: seq<StarView>, planets: seq<PlanetView>, moons: seq<MoonView>,
                  prefs: UserMatrix, topPerType: int)
    returns (r: BoostResult)
    requires DistinctCards(StarCards(stars)) && DistinctCards(PlanetCards(planets)) && DistinctCards(MoonCards(moons))
    requires DisjointCards(StarCards(stars), PlanetCards(planets)) && DisjointCards(StarCards(stars), MoonCards(moons))
    requires DisjointCards(PlanetCards(planets), MoonCards(moons))
    modifies StarCards(stars), PlanetCards(planets), MoonCards(moons)
    ensures BoostedAs(stars, old(States(StarCards(stars))), States(StarCards(stars)),
                      StarPreferences(stars, prefs), TopPerType(topPerType), r.recommendedStars)
    ensures BoostedAs(planets, old(States(PlanetCards(planets))), States(PlanetCards(planets)),
                      PlanetPreferences(planets, prefs), TopPerType(topPerType), r.recommendedPlanets)
    ensures BoostedAs(moons, old(States(MoonCards(moons))), States(MoonCards(moons)),
                      MoonPreferences(moons, prefs), TopPerType(topPerType), r.recommendedMoons)
  {
    var n := TopPerType(topPerType);
    var starCards, planetCards, moonCards := StarCards(stars), PlanetCards(planets), MoonCards(moons);
    DisjointSwap(starCards, planetCards);
    DisjointSwap(starCards, moonCards);
    DisjointSwap(planetCards, moonCards);
    var boostedStars := BoostKeeping(stars, starCards, StarPreferences(stars, prefs), n, planetCards, moonCards);
    var boostedPlanets := BoostKeeping(planets, planetCards, PlanetPreferences(planets, prefs), n, starCards, moonCards);
    var boostedMoons := BoostKeeping(moons, moonCards, MoonPreferences(moons, prefs), n, starCards, planetCards);
    r := BoostResult(boostedStars, boostedPlanets, boostedMoons);
  }
}
