/** Layer 3 of the cloud engine (`Layer_3_Poppys_Matrix_Booster`): each
    object's matrix preference, normalised to `[0, 1]`, sets a multiplier
    that is zero up to 0.4; the object's score grows by half the multiplier
    times its own score, capped at the ceiling. Objects without a column in
    the matrix are neutral (5 of 10). Only positive scores are returned,
    best first, up to `topN`. */
module MsiMatrixBooster {
  import opened Numerics
  import opened Sorting
  import opened Ranking
  import opened Text
  import opened Views
  import opened Boosting
  import opened PreferenceMatrix

  /** `ComputeStarScore`: the first letter of the spectral type, upper-cased,
      picks the matrix column; an empty type is neutral, and so is a letter
      without a column. */
  function StarPreference(spectralType: string, prefs: UserMatrix): (r: real)
    ensures 0.0 <= r <= 1.0
  {
    if spectralType == [] then 0.5
    else Normalize(SpectralPreference([UpperChar(spectralType[0])], prefs, 5.0))
  }

  /** Only the first letter of the type counts, in either case; an empty
      type or a letter with no column scores the neutral 0.5. */
  lemma StarPreferenceSpec(t: string, u: string, prefs: UserMatrix)
    ensures t == [] ==> StarPreference(t, prefs) == 0.5
    ensures t != [] && [UpperChar(t[0])] !in SpectralClasses ==> StarPreference(t, prefs) == 0.5
    ensures t != [] && u != [] && UpperChar(t[0]) == UpperChar(u[0]) ==>
      StarPreference(t, prefs) == StarPreference(u, prefs)
  {
  }

  /** A full spectral type such as "G2V" and a lower-case class letter both
      reach their class column. */
  lemma StarPreferenceExamples(prefs: UserMatrix)
    ensures StarPreference("G2V", prefs) == Normalize(prefs.g)
    ensures StarPreference("k", prefs) == Normalize(prefs.k)
  {
    assert [UpperChar("G2V"[0])] == "G";
    assert [UpperChar("k"[0])] == "K";
  }

  /** `ComputePlanetScore` as written: the type is lower-cased and then
      searched for the capitalised keywords "Dwarf", "Gas", "Ice" and
      "Terr", in that order; no keyword gives the neutral 5. */
  function PlanetPreferenceAsWritten(planetType: string, prefs: UserMatrix): real {
    var cat := ToLower(planetType);
    if Contains(cat, "Dwarf") then Normalize(prefs.dwarfPlanet)
    else if Contains(cat, "Gas") then Normalize(prefs.gasGiant)
    else if Contains(cat, "Ice") then Normalize(prefs.iceGiant)
    else if Contains(cat, "Terr") then Normalize(prefs.terrestrial)
    else Normalize(5.0)
  }

  /** A lower-cased text never contains a text that starts with a capital. */
  lemma LoweredHasNoCapital(s: string, sub: string)
    requires sub != [] && 'A' <= sub[0] <= 'Z'
    ensures !Contains(ToLower(s), sub)
  {
    var lowered := ToLower(s);
    if IndexOf(lowered, sub) >= 0 {
      assert false;
    }
  }

  /** As written, no keyword can ever match: every planet, whatever its
      type, scores the neutral 0.5. */
  lemma PlanetPreferenceAsWrittenIsNeutral(planetType: string, prefs: UserMatrix)
    ensures PlanetPreferenceAsWritten(planetType, prefs) == 0.5
  {
    LoweredHasNoCapital(planetType, "Dwarf");
    LoweredHasNoCapital(planetType, "Gas");
    LoweredHasNoCapital(planetType, "Ice");
    LoweredHasNoCapital(planetType, "Terr");
  }

  /** `ComputePlanetScore` as its comment says it is meant to work: the
      lower-cased type searched for the lower-case keywords. */
  function PlanetPreference(planetType: string, prefs: UserMatrix): (r: real)
    ensures 0.0 <= r <= 1.0
  {
    var cat := ToLower(planetType);
    if Contains(cat, "dwarf") then Normalize(prefs.dwarfPlanet)
    else if Contains(cat, "gas") then Normalize(prefs.gasGiant)
    else if Contains(cat, "ice") then Normalize(prefs.iceGiant)
    else if Contains(cat, "terr") then Normalize(prefs.terrestrial)
    else Normalize(5.0)
  }

  /** With lower-case keywords every catalogue category reaches its own
      column, whatever its case; a type with no keyword is neutral. */
  lemma PlanetPreferenceCategories(prefs: UserMatrix)
    ensures PlanetPreference("Dwarf Planet", prefs) == Normalize(prefs.dwarfPlanet)
    ensures PlanetPreference("Gas Giant", prefs) == Normalize(prefs.gasGiant)
    ensures PlanetPreference("ICE GIANT", prefs) == Normalize(prefs.iceGiant)
    ensures PlanetPreference("Terrestrial", prefs) == Normalize(prefs.terrestrial)
    ensures PlanetPreference("", prefs) == 0.5
  {
    DwarfCategory(prefs);
    GasCategory(prefs);
    IceCategory(prefs);
    TerrestrialCategory(prefs);
    assert ToLower("") == "";
  }

  lemma DwarfCategory(prefs: UserMatrix)
    ensures PlanetPreference("Dwarf Planet", prefs) == Normalize(prefs.dwarfPlanet)
  {
    DwarfLowered();
    assert OccursAt("dwarf planet", "dwarf", 0);
  }

  lemma GasCategory(prefs: UserMatrix)
    ensures PlanetPreference("Gas Giant", prefs) == Normalize(prefs.gasGiant)
  {
    GasLowered();
    assert OccursAt("gas giant", "gas", 0);
    NotOccurring("gas giant", "dwarf", 'd');
  }

  lemma IceCategory(prefs: UserMatrix)
    ensures PlanetPreference("ICE GIANT", prefs) == Normalize(prefs.iceGiant)
  {
    IceLowered();
    IceKeywords();
  }

  lemma IceKeywords()
    ensures Contains("ice giant", "ice")
    ensures !Contains("ice giant", "dwarf") && !Contains("ice giant", "gas")
  {
    assert OccursAt("ice giant", "ice", 0);
    NotOccurring("ice giant", "dwarf", 'd');
    NotOccurring("ice giant", "gas", 's');
  }

  lemma TerrestrialCategory(prefs: UserMatrix)
    ensures PlanetPreference("Terrestrial", prefs) == Normalize(prefs.terrestrial)
  {
    TerrestrialLowered();
    TerrestrialKeywords();
  }

  lemma TerrestrialKeywords()
    ensures Contains("terrestrial", "terr")
    ensures !Contains("terrestrial", "dwarf") && !Contains("terrestrial", "gas") && !Contains("terrestrial", "ice")
  {
    assert OccursAt("terrestrial", "terr", 0);
    NotOccurring("terrestrial", "dwarf", 'd');
    TerrestrialLacksGasAndIce();
  }

  lemma TerrestrialLacksGasAndIce()
    ensures !Contains("terrestrial", "gas") && !Contains("terrestrial", "ice")
  {
    NotOccurring("terrestrial", "gas", 'g');
    NotOccurring("terrestrial", "ice", 'c');
  }

  lemma DwarfLowered()
    ensures ToLower("Dwarf Planet") == "dwarf planet"
  {
  }

  lemma GasLowered()
    ensures ToLower("Gas Giant") == "gas giant"
  {
  }

  lemma IceLowered()
    ensures ToLower("ICE GIANT") == "ice giant"
  {
  }

  lemma TerrestrialLowered()
    ensures ToLower("Terrestrial") == "terrestrial"
  {
  }

  /** A keyword with a letter that does not occur in a text does not occur
      in it. */
  lemma NotOccurring(s: string, sub: string, c: char)
    requires c in sub && c !in s
    ensures !Contains(s, sub)
  {
    if IndexOf(s, sub) >= 0 {
      assert false;
    }
  }

  /** `ComputeMoonScore`: the parent planet's column; a missing parent or
      one without a column is neutral. */
  function MoonPreference(parent: string, prefs: UserMatrix): (r: real)
    ensures 0.0 <= r <= 1.0
    ensures parent !in ParentPlanets ==> r == 0.5
  {
    Normalize(ParentPreference(parent, prefs, 5.0))
  }

  /** `MAX_BOOST_RATIO`. */
  const MaxBoostRatio: real := 0.5

  /** `prefMultiplier`: zero up to a preference of 0.4, then 1.67 per unit
      above it, so at most 1.002 for a normalised preference. */
  function Multiplier(pref: real): (r: real)
    ensures r >= 0.0
    ensures pref <= 0.4 ==> r == 0.0
    ensures pref <= 1.0 ==> r <= 1.002
  {
    Max(0.0, (pref - 0.4) * 1.67)
  }

  /** `scaledBoost`: half the ceiling, times the multiplier, times the base's
      share of the ceiling. */
  function ScaledBoost(base: real, maxPossible: real, pref: real): real
    requires maxPossible > 0.0
  {
    maxPossible * MaxBoostRatio * Multiplier(pref) * (base / maxPossible)
  }

  /** The ceiling cancels out: the boost is half the multiplier times the
      base, so an object with twice the base gets twice the boost. */
  lemma ScaledBoostOfBase(base: real, maxPossible: real, pref: real)
    requires maxPossible > 0.0
    ensures ScaledBoost(base, maxPossible, pref) == 0.5 * Multiplier(pref) * base
  {
    var m := Multiplier(pref);
    var share := base / maxPossible;
    assert share * maxPossible == base;
    calc {
      maxPossible * 0.5 * m * share;
      0.5 * m * (share * maxPossible);
      0.5 * m * base;
    }
  }

  /** The boosted score: base plus boost, capped at the ceiling, rounded. */
  function BoostedScore(base: real, maxPossible: real, pref: real): real
    requires maxPossible > 0.0
  {
    Round2(Min(maxPossible, base + ScaledBoost(base, maxPossible, pref)))
  }

  /** The boosted score never passes the rounded ceiling, nor the base plus
      half the multiplier times the base; for a normalised preference that
      is at most 1.501 times the base (the multiplier reaches 1.002, not 1).
      It never falls below the rounded base of an object within the
      ceiling, and a preference of at most 0.4 leaves the rounded base. */
  lemma BoostedScoreBounds(base: real, maxPossible: real, pref: real)
    requires maxPossible > 0.0
    ensures BoostedScore(base, maxPossible, pref) <= Round2(maxPossible)
    ensures BoostedScore(base, maxPossible, pref) <= Round2(base + 0.5 * Multiplier(pref) * base)
    ensures 0.0 <= base && pref <= 1.0 ==> BoostedScore(base, maxPossible, pref) <= Round2(base * 1.501)
    ensures 0.0 <= base <= maxPossible ==> Round2(base) <= BoostedScore(base, maxPossible, pref)
    ensures pref <= 0.4 && base <= maxPossible ==> BoostedScore(base, maxPossible, pref) == Round2(base)
  {
    BoostedScoreCapped(base, maxPossible, pref);
    if 0.0 <= base && pref <= 1.0 {
      BoostedScoreHalfAgain(base, maxPossible, pref);
    }
    if 0.0 <= base <= maxPossible {
      BoostedScoreFloor(base, maxPossible, pref);
    }
    if pref <= 0.4 && base <= maxPossible {
      BoostedScoreUnmoved(base, maxPossible, pref);
    }
  }

  lemma BoostedScoreCapped(base: real, maxPossible: real, pref: real)
    requires maxPossible > 0.0
    ensures BoostedScore(base, maxPossible, pref) <= Round2(maxPossible)
    ensures BoostedScore(base, maxPossible, pref) <= Round2(base + 0.5 * Multiplier(pref) * base)
  {
    ScaledBoostOfBase(base, maxPossible, pref);
    var raised := base + 0.5 * Multiplier(pref) * base;
    Round2Monotone(Min(maxPossible, raised), maxPossible);
    Round2Monotone(Min(maxPossible, raised), raised);
  }

  lemma BoostedScoreHalfAgain(base: real, maxPossible: real, pref: real)
    requires maxPossible > 0.0 && 0.0 <= base && pref <= 1.0
    ensures BoostedScore(base, maxPossible, pref) <= Round2(base * 1.501)
  {
    var m := Multiplier(pref);
    var raised := base + ScaledBoost(base, maxPossible, pref);
    ScaledBoostOfBase(base, maxPossible, pref);
    RaisedWithin(base, m);
    assert raised <= base * 1.501;
    Round2Monotone(Min(maxPossible, raised), base * 1.501);
  }

  lemma BoostedScoreFloor(base: real, maxPossible: real, pref: real)
    requires maxPossible > 0.0 && 0.0 <= base <= maxPossible
    ensures Round2(base) <= BoostedScore(base, maxPossible, pref)
  {
    var m := Multiplier(pref);
    var raised := base + ScaledBoost(base, maxPossible, pref);
    ScaledBoostOfBase(base, maxPossible, pref);
    MulNonNegative(m, base);
    assert base <= raised;
    Round2Monotone(base, Min(maxPossible, raised));
  }

  lemma BoostedScoreUnmoved(base: real, maxPossible: real, pref: real)
    requires maxPossible > 0.0 && pref <= 0.4 && base <= maxPossible
    ensures BoostedScore(base, maxPossible, pref) == Round2(base)
  {
    ScaledBoostOfBase(base, maxPossible, pref);
    assert 0.5 * Multiplier(pref) * base == 0.0;
  }

  /** A multiplier of at most 1.002 raises a non-negative base by at most
      half of it, plus a thousandth. */
  lemma RaisedWithin(base: real, m: real)
    requires 0.0 <= base && m <= 1.002
    ensures base + 0.5 * m * base <= base * 1.501
  {
    if base > 0.0 {
      MulMonotone(base, m, 1.002);
      assert 0.5 * m * base == 0.5 * (base * m) <= 0.5 * (base * 1.002);
    } else {
      assert 0.5 * m * base == 0.0;
    }
  }

  /** For a fixed base and ceiling, a higher preference never lowers the
      boosted score. */
  lemma BoostedScoreMonotone(base: real, maxPossible: real, p: real, q: real)
    requires maxPossible > 0.0 && base >= 0.0 && p <= q
    ensures BoostedScore(base, maxPossible, p) <= BoostedScore(base, maxPossible, q)
  {
    var mp, mq := Multiplier(p), Multiplier(q);
    var low := base + ScaledBoost(base, maxPossible, p);
    var high := base + ScaledBoost(base, maxPossible, q);
    ScaledBoostOfBase(base, maxPossible, p);
    ScaledBoostOfBase(base, maxPossible, q);
    assert mp <= mq;
    if base > 0.0 {
      MulMonotone(base, mp, mq);
      assert 0.5 * mp * base == 0.5 * (base * mp);
      assert 0.5 * mq * base == 0.5 * (base * mq);
    }
    assert low <= high;
    Round2Monotone(Min(maxPossible, low), Min(maxPossible, high));
  }

  /** `BoostDescription`: the rise of the match percentage rounded to one
      decimal, when it exceeds 0.001; otherwise "0". */
  function Description(pointsAdded: real): string {
    if pointsAdded > 0.001 then "+" + TenthsText(Round1(pointsAdded)) + "% Personalized" else "0"
  }

  /** The description is "0" exactly when the percentage rose by at most
      0.001; otherwise it is "+", a decimal text that reads back as the rise
      rounded to one decimal, and "% Personalized". A rise of at most 0.05
      therefore shows as "+0% Personalized". */
  lemma DescriptionMeaning(pointsAdded: real)
    ensures Description(pointsAdded) == "0" <==> pointsAdded <= 0.001
    ensures pointsAdded > 0.001 ==>
      var d := Description(pointsAdded);
      |d| > 15 && d[0] == '+' && d[|d| - 14..] == "% Personalized" &&
      IsDecimalText(d[1..|d| - 14]) && ParseDecimal(d[1..|d| - 14]) == Round1(pointsAdded)
    ensures 0.001 < pointsAdded <= 0.05 ==> Description(pointsAdded) == "+0% Personalized"
  {
    if pointsAdded > 0.001 {
      Framed(TenthsText(Round1(pointsAdded)));
      if pointsAdded <= 0.05 {
        SmallRise(pointsAdded);
      }
    }
  }

  /** A rise of at most 0.05 rounds to zero tenths and shows as
      "+0% Personalized". */
  lemma SmallRise(pointsAdded: real)
    requires 0.001 < pointsAdded <= 0.05
    ensures Description(pointsAdded) == "+0% Personalized"
  {
    assert RoundHalfEven(pointsAdded * 10.0) == 0;
    ZeroTenths();
    assert TenthsText(Round1(pointsAdded)) == "0";
    ZeroFramed();
  }

  lemma ZeroFramed()
    ensures "+" + "0" + "% Personalized" == "+0% Personalized"
  {
  }

  /** The text between "+" and "% Personalized" is the number's text. */
  lemma Framed(t: string)
    ensures var d := "+" + t + "% Personalized";
      |d| == |t| + 15 && d[0] == '+' && d[1..|d| - 14] == t && d[|d| - 14..] == "% Personalized"
  {
  }

  /** Zero tenths print as "0". */
  lemma ZeroTenths()
    ensures TenthsText(0.0) == "0"
  {
    assert (0.0 * 10.0).Floor == 0;
    ZeroFixed();
  }

  lemma ZeroFixed()
    ensures FormatFixed(0, 1) == "0"
  {
    assert Pow10(1) == 10;
    var qm := DivMod(0, 10);
    assert qm == (0, 0);
    ZeroDigits();
    assert NatToString(0) == "0";
    assert NatToString(0) + "" == "0";
  }

  lemma ZeroDigits()
    ensures TrimZeros(PaddedDigits(0, 1)) == []
  {
    var s := PaddedDigits(0, 1);
    assert s == "0";
    assert s[..|s| - 1] == [];
    assert TrimZeros([]) == [];
  }

  /** The new state of one object with preference `pref`. */
  function BoostOne(s: CardState, pref: real, maxPossible: real): CardState
    requires maxPossible > 0.0
  {
    var boosted := BoostedScore(s.score, maxPossible, pref);
    var pct := MatchPercentageOf(boosted, maxPossible);
    s.(score := boosted, matchPercentage := pct, boostDescription := Description(pct - s.matchPercentage))
  }

  /** An object within the ceiling ends between its rounded base and the
      rounded ceiling, with a percentage in `[0, 100]`; below the threshold
      it keeps its rounded base; its visibility fields are untouched. */
  lemma BoostOneBounds(s: CardState, pref: real, maxPossible: real)
    requires maxPossible > 0.0 && 0.0 <= s.score <= maxPossible
    ensures var after := BoostOne(s, pref, maxPossible);
      Round2(s.score) <= after.score <= Round2(maxPossible) &&
      0.0 <= after.matchPercentage <= 100.0 &&
      (pref <= 0.4 ==> after.score == Round2(s.score)) &&
      after.visibilityChance == s.visibilityChance && after.chanceReason == s.chanceReason
  {
    BoostedScoreBounds(s.score, maxPossible, pref);
    Round2AtLeast(s.score, 0.0);
  }

  /** The boost loop's result for the preferences `prefs` and a ceiling. */
  function BoostWith(states: seq<CardState>, prefs: seq<real>, maxPossible: real): (r: seq<CardState>)
    requires |prefs| == |states| && maxPossible > 0.0
    ensures |r| == |states|
  {
    seq(|states|, i requires 0 <= i < |states| => BoostOne(states[i], prefs[i], maxPossible))
  }

  /** The states `BoostScores` leaves: every object boosted against the
      ceiling its list reveals. */
  function Boost(states: seq<CardState>, prefs: seq<real>): (r: seq<CardState>)
    requires |prefs| == |states|
    ensures |r| == |states|
  {
    BoostWith(states, prefs, MaxPossibleScore(states, true))
  }

  /** In the boost loop, an object with a sound percentage (in `(0, 100]`)
      and a non-negative score is never lowered and never passes the
      rounded ceiling. */
  lemma BoostWithinCeiling(states: seq<CardState>, prefs: seq<real>, i: nat)
    requires |prefs| == |states| && i < |states|
    requires 0.0 < states[i].matchPercentage <= 100.0 && states[i].score >= 0.0
    ensures var after := Boost(states, prefs)[i];
      Round2(states[i].score) <= after.score <= Round2(MaxPossibleScore(states, true)) &&
      0.0 <= after.matchPercentage <= 100.0
  {
    ScoreWithinCeiling(states, true, i);
    BoostOneBounds(states[i], prefs[i], MaxPossibleScore(states, true));
  }

  /** The positions `BoostScores` returns, read off the new states. */
  function Returned(after: seq<CardState>, topN: int): (r: seq<nat>)
    ensures forall k :: 0 <= k < |r| ==> r[k] < |after|
  {
    TopPositive(Scores(after), topN)
  }

  /** Every returned object has a positive boosted score; the list is the
      best `topN` of those, highest first; an empty list returns nothing. */
  lemma ReturnedSpec(states: seq<CardState>, prefs: seq<real>, topN: int)
    requires |prefs| == |states|
    ensures var after := Boost(states, prefs);
      var r := Returned(after, topN);
      (|states| == 0 ==> r == []) &&
      (forall k :: 0 <= k < |r| ==> after[r[k]].score > 0.0) &&
      |r| <= (if topN <= 0 then 0 else topN) &&
      IsTop(Scores(after), PositiveIndices(Scores(after)), topN, r)
  {
    var after := Boost(states, prefs);
    TopPositiveSpec(Scores(after), topN);
  }

  /** What `BoostScores` leaves behind: the cards hold the boosted states
      and the result lists the returned objects. */
  ghost predicate BoostedAs<T>(objects: seq<T>, before: seq<CardState>, after: seq<CardState>,
                               prefs: seq<real>, topN: int, result: seq<T>)
  {
    |objects| == |before| && |prefs| == |before| &&
    after == Boost(before, prefs) &&
    result == Pick(objects, Returned(after, topN))
  }

  /** The boost loop, with the ceiling and each object's preference known. */
  method ApplyBoost(cards: seq<ScoreCard>, prefs: seq<real>, maxPossible: real)
    requires DistinctCards(cards) && |prefs| == |cards| && maxPossible > 0.0
    modifies cards
    ensures States(cards) == BoostWith(old(States(cards)), prefs, maxPossible)
  {
    ghost var before := States(cards);
    ghost var target := BoostWith(before, prefs, maxPossible);
    for i := 0 to |cards|
      invariant forall k :: 0 <= k < i ==> cards[k].State() == target[k]
      invariant forall k :: i <= k < |cards| ==> cards[k].State() == before[k]
    {
      var s := cards[i].State();
      assert target[i] == BoostOne(s, prefs[i], maxPossible);
      SetState(cards[i], BoostOne(s, prefs[i], maxPossible));
    }
  }

  /** `BoostScores`: update every object's card in place and return the best
      `topN` objects with a positive score. `prefs[i]` is what
      `getPreferenceScore` gives for object `i`. */
  method BoostScores<T>(objects: seq<T>, cards: seq<ScoreCard>, prefs: seq<real>, topN: int)
    returns (r: seq<T>)
    requires |cards| == |objects| && |prefs| == |objects|
    requires DistinctCards(cards)
    modifies cards
    ensures BoostedAs(objects, old(States(cards)), States(cards), prefs, topN, r)
  {
    if |objects| == 0 {
      NothingToBoost(objects, States(cards), prefs, topN);
      return [];
    }
    ghost var before := States(cards);
    var maxPossible := MaxPossible(cards, true);
    ApplyBoost(cards, prefs, maxPossible);
    assert States(cards) == Boost(before, prefs);
    r := Pick(objects, TopPositive(Scores(States(cards)), topN));
  }

  /** An empty list is returned as it is. */
  lemma NothingToBoost<T>(objects: seq<T>, states: seq<CardState>, prefs: seq<real>, topN: int)
    requires |objects| == 0 && |states| == 0 && |prefs| == 0
    ensures BoostedAs(objects, states, states, prefs, topN, [])
  {
    assert Returned(states, topN) == [];
  }

  function StarPreferences(stars: seq<StarView>, prefs: UserMatrix): (r: seq<real>)
    ensures |r| == |stars|
  {
    seq(|stars|, i requires 0 <= i < |stars| => StarPreference(stars[i].star.spectralType, prefs))
  }

  /** The planet preferences `BoostAll` passes, by `ComputePlanetScore` as
      written. */
  function PlanetPreferences(planets: seq<PlanetView>, prefs: UserMatrix): (r: seq<real>)
    ensures |r| == |planets|
  {
    seq(|planets|, i requires 0 <= i < |planets| => PlanetPreferenceAsWritten(planets[i].planet.planetType, prefs))
  }

  /** As written, every planet is boosted with the neutral preference 0.5,
      whatever its type and whatever the user's matrix. */
  lemma PlanetPreferencesNeutral(planets: seq<PlanetView>, prefs: UserMatrix)
    ensures forall i :: 0 <= i < |planets| ==> PlanetPreferences(planets, prefs)[i] == 0.5
  {
    forall i | 0 <= i < |planets| ensures PlanetPreferences(planets, prefs)[i] == 0.5 {
      PlanetPreferenceAsWrittenIsNeutral(planets[i].planet.planetType, prefs);
    }
  }

  /** The planet preferences by the corrected lookup. */
  function PlanetPreferencesCorrected(planets: seq<PlanetView>, prefs: UserMatrix): (r: seq<real>)
    ensures |r| == |planets|
    ensures forall i :: 0 <= i < |planets| ==> 0.0 <= r[i] <= 1.0
  {
    seq(|planets|, i requires 0 <= i < |planets| => PlanetPreference(planets[i].planet.planetType, prefs))
  }

  function MoonPreferences(moons: seq<MoonView>, prefs: UserMatrix): (r: seq<real>)
    ensures |r| == |moons|
  {
    seq(|moons|, i requires 0 <= i < |moons| => MoonPreference(moons[i].parent, prefs))
  }

  /** One list of `BoostAll`, leaving the cards of the two other lists as
      they are. */
  method BoostKeeping<T>(objects: seq<T>, cards: seq<ScoreCard>, prefs: seq<real>, topN: int,
                         ghost kept1: seq<ScoreCard>, ghost kept2: seq<ScoreCard>)
    returns (r: seq<T>)
    requires |cards| == |objects| && |prefs| == |objects|
    requires DistinctCards(cards) && DisjointCards(kept1, cards) && DisjointCards(kept2, cards)
    modifies cards
    ensures States(kept1) == old(States(kept1)) && States(kept2) == old(States(kept2))
    ensures BoostedAs(objects, old(States(cards)), States(cards), prefs, topN, r)
  {
    r := BoostScores(objects, cards, prefs, topN);
    StatesKept(kept1);
    StatesKept(kept2);
  }

  /** `BoostAll`: boost stars, then planets, then moons, each against the
      ceiling of its own list; the planets by `ComputePlanetScore` as
      written. */
  method BoostAll(stars: seq<StarView>, planets: seq<PlanetView>, moons: seq<MoonView>,
                  prefs: UserMatrix, topPerType: int)
    returns (r: BoostResult)
    requires DistinctCards(StarCards(stars)) && DistinctCards(PlanetCards(planets)) && DistinctCards(MoonCards(moons))
    requires DisjointCards(StarCards(stars), PlanetCards(planets)) && DisjointCards(StarCards(stars), MoonCards(moons))
    requires DisjointCards(PlanetCards(planets), MoonCards(moons))
    modifies StarCards(stars), PlanetCards(planets), MoonCards(moons)
    ensures BoostedAs(stars, old(States(StarCards(stars))), States(StarCards(stars)),
                      StarPreferences(stars, prefs), TopPerType(topPerType), r.recommendedStars)
    ensures BoostedAs(planets, old(States(PlanetCards(planets))), States(PlanetCards(planets)),
                      PlanetPreferences(planets, prefs), TopPerType(topPerType), r.recommendedPlanets)
    ensures BoostedAs(moons, old(States(MoonCards(moons))), States(MoonCards(moons)),
                      MoonPreferences(moons, prefs), TopPerType(topPerType), r.recommendedMoons)
  {
    r := BoostLists(stars, planets, moons, StarPreferences(stars, prefs), PlanetPreferences(planets, prefs),
                    MoonPreferences(moons, prefs), topPerType);
  }

  /** `BoostAll` with the corrected planet lookup. */
  method BoostAllCorrected(stars: seq<StarView>, planets: seq<PlanetView>, moons: seq<MoonView>,
                           prefs: UserMatrix, topPerType: int)
    returns (r: BoostResult)
    requires DistinctCards(StarCards(stars)) && DistinctCards(PlanetCards(planets)) && DistinctCards(MoonCards(moons))
    requires DisjointCards(StarCards(stars), PlanetCards(planets)) && DisjointCards(StarCards(stars), MoonCards(moons))
    requires DisjointCards(PlanetCards(planets), MoonCards(moons))
    modifies StarCards(stars), PlanetCards(planets), MoonCards(moons)
    ensures BoostedAs(stars, old(States(StarCards(stars))), States(StarCards(stars)),
                      StarPreferences(stars, prefs), TopPerType(topPerType), r.recommendedStars)
    ensures BoostedAs(planets, old(States(PlanetCards(planets))), States(PlanetCards(planets)),
                      PlanetPreferencesCorrected(planets, prefs), TopPerType(topPerType), r.recommendedPlanets)
    ensures BoostedAs(moons, old(States(MoonCards(moons))), States(MoonCards(moons)),
                      MoonPreferences(moons, prefs), TopPerType(topPerType), r.recommendedMoons)
  {
    r := BoostLists(stars, planets, moons, StarPreferences(stars, prefs), PlanetPreferencesCorrected(planets, prefs),
                    MoonPreferences(moons, prefs), topPerType);
  }

  /** The three lists boosted one after the other, each by its own
      preferences and against the ceiling of its own list. */
  method BoostLists(stars: seq<StarView>, planets: seq<PlanetView>, moons: seq<MoonView>,
                    starPrefs: seq<real>, planetPrefs: seq<real>, moonPrefs: seq<real>, topPerType: int)
    returns (r: BoostResult)
    requires |starPrefs| == |stars| && |planetPrefs| == |planets| && |moonPrefs| == |moons|
    requires DistinctCards(StarCards(stars)) && DistinctCards(PlanetCards(planets)) && DistinctCards(MoonCards(moons))
    requires DisjointCards(StarCards(stars), PlanetCards(planets)) && DisjointCards(StarCards(stars), MoonCards(moons))
    requires DisjointCards(PlanetCards(planets), MoonCards(moons))
    modifies StarCards(stars), PlanetCards(planets), MoonCards(moons)
    ensures BoostedAs(stars, old(States(StarCards(stars))), States(StarCards(stars)),
                      starPrefs, TopPerType(topPerType), r.recommendedStars)
    ensures BoostedAs(planets, old(States(PlanetCards(planets))), States(PlanetCards(planets)),
                      planetPrefs, TopPerType(topPerType), r.recommendedPlanets)
    ensures BoostedAs(moons, old(States(MoonCards(moons))), States(MoonCards(moons)),
                      moonPrefs, TopPerType(topPerType), r.recommendedMoons)
  {
    var n := TopPerType(topPerType);
    var starCards, planetCards, moonCards := StarCards(stars), PlanetCards(planets), MoonCards(moons);
    DisjointSwap(starCards, planetCards);
    DisjointSwap(starCards, moonCards);
    DisjointSwap(planetCards, moonCards);
    var boostedStars := BoostKeeping(stars, starCards, starPrefs, n, planetCards, moonCards);
    var boostedPlanets := BoostKeeping(planets, planetCards, planetPrefs, n, starCards, moonCards);
    var boostedMoons := BoostKeeping(moons, moonCards, moonPrefs, n, starCards, planetCards);
    r := BoostResult(boostedStars, boostedPlanets, boostedMoons);
  }
}
