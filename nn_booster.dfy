/** Layer 4 of the stand-alone engine (`Layer_4_Poppys_NN_Booster`): each
    object's predicted preference, normalised to `[0, 1]` and raised to the
    power 1.2, scales a boost of up to three quarters of the ceiling that is
    added to its score; the sum is capped at three quarters of the ceiling
    above the base and at the ceiling. Only positive scores are returned,
    best first, up to `topN`. The predictions have the columns of the
    preference matrix, and are looked up as the stand-alone Layer 3 booster
    looks them up. */
module NNBooster {
  import opened Numerics
  import opened Sorting
  import opened Ranking
  import opened Text
  import opened Views
  import opened Boosting
  import opened PreferenceMatrix
  import MatrixBooster

  /** `boostedScore = baseScore * BASE_WEIGHT + baseScore * PREF_WEIGHT +
      boostValue`: the two weights sum to 1, so this is the base plus the
      boost. */
  function Weighted(base: real, boostValue: real): (r: real)
    ensures r == base + boostValue
  {
    base * 0.3 + base * 0.7 + boostValue
  }

  /** `boostValue = maxBoostAllowed * normalizedPref`, with
      `maxBoostAllowed` three quarters of the ceiling. */
  function BoostValue(maxPossible: real, normalizedPref: real): real {
    maxPossible * 0.75 * normalizedPref
  }

  /** Over a non-negative ceiling the boost keeps the order of the
      preferences, and is zero at preference zero. */
  lemma BoostValueMonotone(maxPossible: real, p: real, q: real)
    requires maxPossible >= 0.0 && p <= q
    ensures BoostValue(maxPossible, p) <= BoostValue(maxPossible, q)
    ensures BoostValue(maxPossible, 0.0) == 0.0
  {
    if maxPossible > 0.0 {
      MulMonotone(maxPossible * 0.75, p, q);
    }
  }

  /** The score of one object before rounding, for its preference already
      raised to the power 1.2. */
  function CappedScore(base: real, maxPossible: real, normalizedPref: real): (r: real)
    ensures r <= maxPossible && r <= base + maxPossible * 0.75
    ensures 0.0 <= normalizedPref && maxPossible >= 0.0 && base <= maxPossible ==> base <= r
  {
    assert 0.0 <= normalizedPref && maxPossible >= 0.0 ==> BoostValue(maxPossible, normalizedPref) >= 0.0 by {
      if 0.0 <= normalizedPref && maxPossible >= 0.0 { BoostValueMonotone(maxPossible, 0.0, normalizedPref); }
    }
    Caps(base, maxPossible * 0.75, maxPossible, Weighted(base, BoostValue(maxPossible, normalizedPref)))
  }

  /** For a preference in `[0, 1]` the first cap never binds: the score is
      the base plus the scaled boost, capped at the ceiling. */
  lemma CappedScoreUncapped(base: real, maxPossible: real, normalizedPref: real)
    requires maxPossible >= 0.0 && 0.0 <= normalizedPref <= 1.0
    ensures CappedScore(base, maxPossible, normalizedPref) == Min(maxPossible, base + maxPossible * 0.75 * normalizedPref)
  {
    BoostValueMonotone(maxPossible, normalizedPref, 1.0);
    BoostValueMonotone(maxPossible, 0.0, normalizedPref);
  }

  /** Before rounding, a higher preference never lowers the score. */
  lemma CappedMonotone(base: real, maxPossible: real, p: real, q: real)
    requires maxPossible > 0.0 && p <= q
    ensures CappedScore(base, maxPossible, p) <= CappedScore(base, maxPossible, q)
  {
    BoostValueMonotone(maxPossible, p, q);
    CapsMonotone(base, maxPossible * 0.75, maxPossible, BoostValue(maxPossible, p), BoostValue(maxPossible, q));
  }

  /** The score an object ends with, rounded to cents. */
  function BoostedScore(base: real, maxPossible: real, normalizedPref: real): real {
    Round2(CappedScore(base, maxPossible, normalizedPref))
  }

  /** The boosted score is at most the rounded ceiling and at most three
      quarters of the ceiling above the base; with a non-negative preference
      and a base within the ceiling it is never below the rounded base. */
  lemma BoostedScoreBounds(base: real, maxPossible: real, normalizedPref: real)
    requires maxPossible > 0.0
    ensures BoostedScore(base, maxPossible, normalizedPref) <= Round2(maxPossible)
    ensures BoostedScore(base, maxPossible, normalizedPref) <= Round2(base + maxPossible * 0.75)
    ensures 0.0 <= normalizedPref && base <= maxPossible ==> Round2(base) <= BoostedScore(base, maxPossible, normalizedPref)
  {
    var capped := CappedScore(base, maxPossible, normalizedPref);
    Round2Monotone(capped, maxPossible);
    Round2Monotone(capped, base + maxPossible * 0.75);
    if 0.0 <= normalizedPref && base <= maxPossible {
      Round2Monotone(base, capped);
    }
  }

  /** For a fixed base and ceiling, a higher predicted preference never
      lowers the boosted score, whatever power function is applied, as long
      as it keeps order on `[0, 1]`. */
  lemma BoostedScoreMonotone(base: real, maxPossible: real, pow: real -> real, p: real, q: real)
    requires maxPossible > 0.0 && IsUnitPower(pow) && 0.0 <= p <= q <= 1.0
    ensures BoostedScore(base, maxPossible, pow(p)) <= BoostedScore(base, maxPossible, pow(q))
  {
    CappedMonotone(base, maxPossible, pow(p), pow(q));
    Round2Monotone(CappedScore(base, maxPossible, pow(p)), CappedScore(base, maxPossible, pow(q)));
  }

  /** `(int)Math.Round((boostedScore - baseScore) / maxPossibleScore * 100)`. */
  function BoostPercent(boosted: real, base: real, maxPossible: real): int
    requires maxPossible > 0.0
  {
    RoundHalfEven((boosted - base) / maxPossible * 100.0)
  }

  /** The Layer 4 `BoostDescription`. */
  function NNBoostedBy(boostPercent: int): string {
    if boostPercent > 0 then "NN Boosted by " + IntToString(boostPercent) + "%" else "No NN boost"
  }

  /** "No NN boost" exactly when the percentage is not positive; otherwise
      the text between "NN Boosted by " and "%" reads back as the
      percentage. */
  lemma NNBoostedByMeaning(boostPercent: int)
    ensures NNBoostedBy(boostPercent) == "No NN boost" <==> boostPercent <= 0
    ensures boostPercent > 0 ==>
      var d := NNBoostedBy(boostPercent);
      |d| > 15 && d[..14] == "NN Boosted by " && d[|d| - 1] == '%' &&
      IsDigit(d[14]) && ParseInt(d[14..|d| - 1]) == boostPercent
  {
    if boostPercent > 0 {
      var t := IntToString(boostPercent);
      var d := NNBoostedBy(boostPercent);
      assert d == "NN Boosted by " + t + "%";
      assert d[14..|d| - 1] == t;
      assert d[..14] == "NN Boosted by ";
      assert d[1] == 'N' != "No NN boost"[1];
      IntToStringRoundTrip(boostPercent);
    }
  }

  /** The new state of one object whose preference, raised to the power
      1.2, is `normalizedPref`. */
  function BoostOne(s: CardState, normalizedPref: real, maxPossible: real): CardState
    requires maxPossible > 0.0
  {
    var boosted := BoostedScore(s.score, maxPossible, normalizedPref);
    s.(score := boosted, matchPercentage := MatchPercentageOf(boosted, maxPossible),
       boostDescription := NNBoostedBy(BoostPercent(boosted, s.score, maxPossible)))
  }

  /** An object within the ceiling ends between its rounded base and the
      rounded ceiling, with a percentage in `[0, 100]`; it reads "No NN
      boost" exactly when its rounded gain is not a positive percentage;
      its visibility fields are untouched. */
  lemma BoostOneBounds(s: CardState, normalizedPref: real, maxPossible: real)
    requires maxPossible > 0.0 && 0.0 <= s.score <= maxPossible && 0.0 <= normalizedPref
    ensures var after := BoostOne(s, normalizedPref, maxPossible);
      Round2(s.score) <= after.score <= Round2(maxPossible) &&
      0.0 <= after.matchPercentage <= 100.0 &&
      (after.boostDescription == "No NN boost" <==> BoostPercent(after.score, s.score, maxPossible) <= 0) &&
      after.visibilityChance == s.visibilityChance && after.chanceReason == s.chanceReason
  {
    var boosted := BoostedScore(s.score, maxPossible, normalizedPref);
    BoostedScoreBounds(s.score, maxPossible, normalizedPref);
    Round2AtLeast(s.score, 0.0);
    NNBoostedByMeaning(BoostPercent(boosted, s.score, maxPossible));
  }

  /** The boost loop's result for the preferences `prefs`, the power
      function `pow` and a ceiling. */
  function BoostWith(states: seq<CardState>, prefs: seq<real>, pow: real -> real, maxPossible: real): (r: seq<CardState>)
    requires |prefs| == |states| && maxPossible > 0.0
    ensures |r| == |states|
  {
    seq(|states|, i requires 0 <= i < |states| => BoostOne(states[i], pow(prefs[i]), maxPossible))
  }

  /** The states `BoostScores` leaves: every object boosted against the
      ceiling its list reveals. */
  function Boost(states: seq<CardState>, prefs: seq<real>, pow: real -> real): (r: seq<CardState>)
    requires |prefs| == |states|
    ensures |r| == |states|
  {
    BoostWith(states, prefs, pow, MaxPossibleScore(states, true))
  }

  /** In the boost loop, an object with a sound percentage (in `(0, 100]`)
      and a non-negative score is never lowered and never passes the
      rounded ceiling, when its preference lies in `[0, 1]`. */
  lemma BoostWithinCeiling(states: seq<CardState>, prefs: seq<real>, pow: real -> real, i: nat)
    requires |prefs| == |states| && i < |states| && IsUnitPower(pow)
    requires 0.0 < states[i].matchPercentage <= 100.0 && states[i].score >= 0.0 && 0.0 <= prefs[i] <= 1.0
    ensures var after := Boost(states, prefs, pow)[i];
      Round2(states[i].score) <= after.score <= Round2(MaxPossibleScore(states, true)) &&
      0.0 <= after.matchPercentage <= 100.0
  {
    ScoreWithinCeiling(states, true, i);
    BoostOneBounds(states[i], pow(prefs[i]), MaxPossibleScore(states, true));
  }

  /** The positions `BoostScores` returns, read off the new states. The
      `ThenByDescending` tie-breaker reads the score the loop has already
      overwritten, so it orders nothing the first key did not. */
  function Returned(after: seq<CardState>, topN: int): (r: seq<nat>)
    ensures forall k :: 0 <= k < |r| ==> r[k] < |after|
  {
    TopPositive(Scores(after), topN)
  }

  /** Every returned object has a positive boosted score; the list is the
      best `topN` of those, highest first; an empty list returns nothing. */
  lemma ReturnedSpec(states: seq<CardState>, prefs: seq<real>, pow: real -> real, topN: int)
    requires |prefs| == |states|
    ensures var after := Boost(states, prefs, pow);
      var r := Returned(after, topN);
      (|states| == 0 ==> r == []) &&
      (forall k :: 0 <= k < |r| ==> after[r[k]].score > 0.0) &&
      |r| <= (if topN <= 0 then 0 else topN) &&
      IsTop(Scores(after), PositiveIndices(Scores(after)), topN, r)
  {
    var after := Boost(states, prefs, pow);
    TopPositiveSpec(Scores(after), topN);
  }

  /** What `BoostScores` leaves behind: the cards hold the boosted states
      and the result lists the returned objects. */
  ghost predicate BoostedAs<T>(objects: seq<T>, before: seq<CardState>, after: seq<CardState>,
                               prefs: seq<real>, pow: real -> real, topN: int, result: seq<T>)
  {
    |objects| == |before| && |prefs| == |before| &&
    after == Boost(before, prefs, pow) &&
    result == Pick(objects, Returned(after, topN))
  }

  /** The boost loop, with the ceiling and each object's preference known. */
  method ApplyBoost(cards: seq<ScoreCard>, prefs: seq<real>, pow: real -> real, maxPossible: real)
    requires DistinctCards(cards) && |prefs| == |cards| && maxPossible > 0.0
    modifies cards
    ensures States(cards) == BoostWith(old(States(cards)), prefs, pow, maxPossible)
  {
    ghost var before := States(cards);
    ghost var target := BoostWith(before, prefs, pow, maxPossible);
    for i := 0 to |cards|
      invariant forall k :: 0 <= k < i ==> cards[k].State() == target[k]
      invariant forall k :: i <= k < |cards| ==> cards[k].State() == before[k]
    {
      var s := cards[i].State();
      var normalizedPref := pow(prefs[i]);
      assert target[i] == BoostOne(s, normalizedPref, maxPossible);
      SetState(cards[i], BoostOne(s, normalizedPref, maxPossible));
    }
  }

  /** `BoostScores`: update every object's card in place and return the best
      `topN` objects with a positive score. `prefs[i]` is what
      `getPreferenceScore` gives for object `i`, and `pow` is
      `x => Math.Pow(x, 1.2)`. */
  method BoostScores<T>(objects: seq<T>, cards: seq<ScoreCard>, prefs: seq<real>, pow: real -> real, topN: int)
    returns (r: seq<T>)
    requires |cards| == |objects| && |prefs| == |objects|
    requires DistinctCards(cards)
    modifies cards
    ensures BoostedAs(objects, old(States(cards)), States(cards), prefs, pow, topN, r)
  {
    if |objects| == 0 {
      NothingToBoost(objects, States(cards), prefs, pow, topN);
      return [];
    }
    ghost var before := States(cards);
    var maxPossible := MaxPossible(cards, true);
    ApplyBoost(cards, prefs, pow, maxPossible);
    assert States(cards) == Boost(before, prefs, pow);
    r := Pick(objects, TopPositive(Scores(States(cards)), topN));
  }

  /** An empty list is returned as it is. */
  lemma NothingToBoost<T>(objects: seq<T>, states: seq<CardState>, prefs: seq<real>, pow: real -> real, topN: int)
    requires |objects| == 0 && |states| == 0 && |prefs| == 0
    ensures BoostedAs(objects, states, states, prefs, pow, topN, [])
  {
    assert Returned(states, topN) == [];
  }

  function StarPreferences(stars: seq<StarView>, prefs: UserMatrix): (r: seq<real>)
    ensures |r| == |stars|
    ensures forall i :: 0 <= i < |r| ==> 0.0 <= r[i] <= 1.0
  {
    seq(|stars|, i requires 0 <= i < |stars| => MatrixBooster.StarPreference(stars[i].star.spectralType, prefs))
  }

  function PlanetPreferences(planets: seq<PlanetView>, prefs: UserMatrix): (r: seq<real>)
    ensures |r| == |planets|
    ensures forall i :: 0 <= i < |r| ==> 0.0 <= r[i] <= 1.0
  {
    seq(|planets|, i requires 0 <= i < |planets| => MatrixBooster.PlanetPreference(planets[i].planet.planetType, prefs))
  }

  function MoonPreferences(moons: seq<MoonView>, prefs: UserMatrix): (r: seq<real>)
    ensures |r| == |moons|
    ensures forall i :: 0 <= i < |r| ==> 0.0 <= r[i] <= 1.0
  {
    seq(|moons|, i requires 0 <= i < |moons| => MatrixBooster.MoonPreference(moons[i].parent, prefs))
  }

  /** One list of `BoostAll`, leaving the cards of the two other lists as
      they are. */
  method BoostKeeping<T>(objects: seq<T>, cards: seq<ScoreCard>, prefs: seq<real>, pow: real -> real, topN: int,
                         ghost kept1: seq<ScoreCard>, ghost kept2: seq<ScoreCard>)
    returns (r: seq<T>)
    requires |cards| == |objects| && |prefs| == |objects|
    requires DistinctCards(cards) && DisjointCards(kept1, cards) && DisjointCards(kept2, cards)
    modifies cards
    ensures States(kept1) == old(States(kept1)) && States(kept2) == old(States(kept2))
    ensures BoostedAs(objects, old(States(cards)), States(cards), prefs, pow, topN, r)
  {
    r := BoostScores(objects, cards, prefs, pow, topN);
    StatesKept(kept1);
    StatesKept(kept2);
  }

  /** `BoostAll`: boost stars, then planets, then moons, each against the
      ceiling of its own list. */
  method BoostAll(stars: seq<StarView>, planets: seq<PlanetView>, moons: seq<MoonView>,
                  prefs: UserMatrix, pow: real -> real, topPerType: int)
    returns (r: BoostResult)
    requires DistinctCards(StarCards(stars)) && DistinctCards(PlanetCards(planets)) && DistinctCards(MoonCards(moons))
    requires DisjointCards(StarCards(stars), PlanetCards(planets)) && DisjointCards(StarCards(stars), MoonCards(moons))
    requires DisjointCards(PlanetCards(planets), MoonCards(moons))
    modifies StarCards(stars), PlanetCards(planets), MoonCards(moons)
    ensures BoostedAs(stars, old(States(StarCards(stars))), States(StarCards(stars)),
                      StarPreferences(stars, prefs), pow, TopPerType(topPerType), r.recommendedStars)
    ensures BoostedAs(planets, old(States(PlanetCards(planets))), States(PlanetCards(planets)),
                      PlanetPreferences(planets, prefs), pow, TopPerType(topPerType), r.recommendedPlanets)
    ensures BoostedAs(moons, old(States(MoonCards(moons))), States(MoonCards(moons)),
                      MoonPreferences(moons, prefs), pow, TopPerType(topPerType), r.recommendedMoons)
  {
    var n := TopPerType(topPerType);
    var starCards, planetCards, moonCards := StarCards(stars), PlanetCards(planets), MoonCards(moons);
    DisjointSwap(starCards, planetCards);
    DisjointSwap(starCards, moonCards);
    DisjointSwap(planetCards, moonCards);
    var boostedStars := BoostKeeping(stars, starCards, StarPreferences(stars, prefs), pow, n, planetCards, moonCards);
    var boostedPlanets := BoostKeeping(planets, planetCards, PlanetPreferences(planets, prefs), pow, n, starCards, moonCards);
    var boostedMoons := BoostKeeping(moons, moonCards, MoonPreferences(moons, prefs), pow, n, starCards, planetCards);
    r := BoostResult(boostedStars, boostedPlanets, boostedMoons);
  }

  /** The 21 predictions `CalculateNNConfidence` looks at: the spectral
      classes, the planet categories, then the parent planets. */
  function Predictions(prefs: UserMatrix): (r: seq<real>)
    ensures |r| == 21
  {
    [prefs.a, prefs.b, prefs.f, prefs.g, prefs.k, prefs.m, prefs.o,
     prefs.dwarfPlanet, prefs.gasGiant, prefs.iceGiant, prefs.terrestrial,
     prefs.earth, prefs.eris, prefs.haumea, prefs.jupiter, prefs.makemake,
     prefs.mars, prefs.neptune, prefs.pluto, prefs.saturn, prefs.uranus]
  }

  function Total(xs: seq<real>): real {
    if xs == [] then 0.0 else Total(xs[..|xs| - 1]) + xs[|xs| - 1]
  }

  /** LINQ `Average` of a non-empty list. */
  function Average(xs: seq<real>): real
    requires |xs| > 0
  {
    Total(xs) / |xs| as real
  }

  /** `Math.Pow(p - avgStrength, 2)` for every prediction. */
  function SquaredDeviations(xs: seq<real>, mean: real): (r: seq<real>)
    ensures |r| == |xs|
    ensures forall i :: 0 <= i < |xs| ==> r[i] == Square(xs[i] - mean)
  {
    seq(|xs|, i requires 0 <= i < |xs| => Square(xs[i] - mean))
  }

  /** The variance of the predictions. */
  function Variance(xs: seq<real>): real
    requires |xs| > 0
  {
    Average(SquaredDeviations(xs, Average(xs)))
  }

  /** A total of non-negative values is non-negative. */
  lemma {:induction false} TotalNonNegative(xs: seq<real>)
    requires forall i :: 0 <= i < |xs| ==> xs[i] >= 0.0
    ensures Total(xs) >= 0.0
  {
    if xs != [] {
      TotalNonNegative(xs[..|xs| - 1]);
    }
  }

  /** A list of `n` copies of `c` totals `n * c`. */
  lemma {:induction false} TotalOfConstant(xs: seq<real>, c: real)
    requires forall i :: 0 <= i < |xs| ==> xs[i] == c
    ensures Total(xs) == |xs| as real * c
  {
    if xs != [] {
      var init := xs[..|xs| - 1];
      TotalOfConstant(init, c);
      assert |xs| as real * c == |init| as real * c + c;
    }
  }

  /** The variance is never negative, and is zero for equal predictions. */
  lemma VarianceBounds(xs: seq<real>)
    requires |xs| > 0
    ensures Variance(xs) >= 0.0
    ensures (forall i :: 0 <= i < |xs| ==> xs[i] == xs[0]) ==> Variance(xs) == 0.0
  {
    var devs := SquaredDeviations(xs, Average(xs));
    TotalNonNegative(devs);
    DivNonNegative(Total(devs), |xs| as real);
    if forall i :: 0 <= i < |xs| ==> xs[i] == xs[0] {
      FlatVariance(xs);
    }
  }

  lemma FlatVariance(xs: seq<real>)
    requires |xs| > 0 && forall i :: 0 <= i < |xs| ==> xs[i] == xs[0]
    ensures Variance(xs) == 0.0
  {
    var n := |xs| as real;
    TotalOfConstant(xs, xs[0]);
    MeanOfCopies(n, xs[0]);
    var devs := SquaredDeviations(xs, Average(xs));
    TotalOfConstant(devs, 0.0);
  }

  lemma MeanOfCopies(n: real, c: real)
    requires n > 0.0
    ensures n * c / n == c
  {
  }

  /** `CalculateNNConfidence`: the standard deviation of the predictions
      over 2, capped at 1. `sqrt` is `Math.Sqrt`. */
  function Confidence(prefs: UserMatrix, sqrt: real -> real): (r: real)
    requires IsSqrt(sqrt)
    ensures 0.0 <= r <= 1.0
    ensures r == 1.0 <==> sqrt(Variance(Predictions(prefs))) >= 2.0
  {
    VarianceBounds(Predictions(prefs));
    Min(1.0, sqrt(Variance(Predictions(prefs))) / 2.0)
  }

  /** Equal predictions carry no confidence at all. */
  lemma FlatPredictionsNoConfidence(prefs: UserMatrix, sqrt: real -> real)
    requires IsSqrt(sqrt)
    requires forall i :: 0 <= i < 21 ==> Predictions(prefs)[i] == prefs.a
    ensures Confidence(prefs, sqrt) == 0.0
  {
    VarianceBounds(Predictions(prefs));
    SqrtZero(sqrt);
  }
}
