/** The cloud engine's `Layer1_Star_Engine`: the same visibility filter as
    the stand-alone engine, a richer star score (brightness, colour,
    distance, temperature and physical presence, stretched by
    `Math.Pow(score, 1.1)`), and a match percentage measured against the
    best visible star with 10% headroom, so that no star reaches 100%.
    `Math.Pow(x, 1.5)`, `Math.Pow(x, 1.1)` and `Math.Log10` are parameters. */
module HeadroomStarEngine {
  import opened Wrappers
  import opened Numerics
  import opened Sorting
  import opened Views
  import opened RandomSource
  import opened Layer1
  import StarEngine

  /** 5 points for a liked star, 3 for any other. */
  function LikedScore(user: User, star: StarObject): real {
    if star.name in user.likedStars then 5.0 else 3.0
  }

  /** `Math.Pow(Math.Max(0, 5 - (Gmag ?? 6.0)), 1.5)`. */
  function BrightnessScore(star: StarObject, pow15: real -> real): real {
    pow15(Max(0.0, 5.0 - GetOrElse(star.gmag, 6.0)))
  }

  /** Up to 2 points for a BP-RP colour index near 1.2. */
  function ColorScore(star: StarObject): real {
    var color := ColorIndex(star);
    if color.Some? then Max(0.0, 2.0 - Abs(color.value - 1.2)) else 0.0
  }

  /** Up to 3 points for a near star, by `Math.Log10(distance + 1)`. */
  function DistanceScore(star: StarObject, log10: real -> real): real {
    var distance := DistancePc(star);
    if distance.Some? then Max(0.0, 3.0 - log10(distance.value + 1.0)) else 0.0
  }

  /** Up to 2.5 points for an effective temperature near 5500 K. */
  function TemperatureScore(star: StarObject): real {
    if star.teff.Some? then Max(0.0, 2.5 - Abs(star.teff.value - 5500.0) / 3000.0) else 0.0
  }

  /** `Math.Log10(Luminosity + 1) + Math.Log10(Mass + 1)`, each term only
      when the value is known. */
  function PhysicalScore(star: StarObject, log10: real -> real): real {
    (if star.luminosity.Some? then log10(star.luminosity.value + 1.0) else 0.0) +
    (if star.mass.Some? then log10(star.mass.value + 1.0) else 0.0)
  }

  /** The weighted sum before the stretch, with the nudge `draw * 0.5`. */
  function WeightedScore(user: User, star: StarObject, pow15: real -> real, log10: real -> real, draw: real): real {
    0.4 * LikedScore(user, star) + 0.9 * BrightnessScore(star, pow15) + 0.4 * ColorScore(star) +
    0.45 * DistanceScore(star, log10) + 0.2 * TemperatureScore(star) + 0.25 * PhysicalScore(star, log10) +
    draw * 0.5
  }

  /** `Math.Round(Math.Pow(score, 1.1), 2)`, the score the first pass writes. */
  function StarScore(user: User, star: StarObject, pow15: real -> real, pow11: real -> real,
                     log10: real -> real, draw: real): real {
    Round2(pow11(WeightedScore(user, star, pow15, log10, draw)))
  }

  /** The components keep to their ranges: 5 or 3 for the like; colour in
      [0, 2], reaching 2 exactly at colour index 1.2; temperature in
      [0, 2.5], reaching 2.5 exactly at 5500 K; distance at most 3 and, for
      a known distance, below 3; the nudge in [0, 0.5). */
  lemma ScoreComponents(user: User, star: StarObject, log10: real -> real, draw: real)
    requires IsLog10(log10) && 0.0 <= draw < 1.0
    ensures LikedScore(user, star) == (if star.name in user.likedStars then 5.0 else 3.0)
    ensures 0.0 <= ColorScore(star) <= 2.0
    ensures ColorScore(star) == 2.0 <==> ColorIndex(star) == Some(1.2)
    ensures 0.0 <= TemperatureScore(star) <= 2.5
    ensures TemperatureScore(star) == 2.5 <==> star.teff == Some(5500.0)
    ensures 0.0 <= DistanceScore(star, log10) <= 3.0
    ensures DistancePc(star).Some? ==> DistanceScore(star, log10) < 3.0
    ensures 0.0 <= draw * 0.5 < 0.5
  {
    var distance := DistancePc(star);
    if distance.Some? {
      LogSign(log10, distance.value + 1.0);
    }
    if star.teff.Some? && TemperatureScore(star) == 2.5 {
      var t := star.teff.value;
      assert Abs(t - 5500.0) / 3000.0 <= 0.0;
      assert Abs(t - 5500.0) <= 0.0;
    }
  }

  /** The first pass's scores, visible star `k` taking draw `start + k`. */
  function FirstPass(user: User, vis: seq<StarObject>, pow15: real -> real, pow11: real -> real,
                     log10: real -> real, stream: nat -> real, start: nat): (r: seq<real>)
    ensures |r| == |vis|
  {
    seq(|vis|, k requires 0 <= k < |vis| => StarScore(user, vis[k], pow15, pow11, log10, stream(start + k)))
  }

  /** Visible star `i` is scored with draw `start + i`. */
  lemma FirstPassAt(user: User, vis: seq<StarObject>, pow15: real -> real, pow11: real -> real,
                    log10: real -> real, stream: nat -> real, start: nat, i: nat)
    requires i < |vis|
    ensures FirstPass(user, vis, pow15, pow11, log10, stream, start)[i] == StarScore(user, vis[i], pow15, pow11, log10, stream(start + i))
  {
  }

  /** `visibleStars.Max(s => s.Score)`. */
  function Best(scores: seq<real>): (r: real)
    requires |scores| > 0
    ensures r in scores
    ensures forall k :: 0 <= k < |scores| ==> scores[k] <= r
  {
    if |scores| == 1 then scores[0]
    else
      var rest := Best(scores[1..]);
      assert forall k :: 1 <= k < |scores| ==> scores[k] == scores[1..][k - 1];
      Max(scores[0], rest)
  }

  /** `Math.Round(Math.Min(100, score / (bestScore * 1.1) * 100), 2)`. */
  function Headroom(score: real, best: real): real {
    var scale := best * 1.1;
    if scale != 0.0 then Round2(Min(100.0, score / scale * 100.0)) else 0.0
  }

  /** A score over `best * 1.1` is the score over `best`, over 1.1. */
  lemma HeadroomScale(score: real, best: real)
    requires best > 0.0
    ensures score / (best * 1.1) == (score / best) / 1.1
  {
    var q := score / (best * 1.1);
    assert q * (best * 1.1) == score;
    assert (q * 1.1) * best == score;
    assert q * 1.1 == score / best;
  }

  /** For a positive best score, the best star's match is 90.91%, every
      star scoring at most the best gets at most that, and a star with a
      score that is not negative gets no negative percentage. */
  lemma HeadroomBounds(score: real, best: real)
    requires best > 0.0
    ensures Headroom(best, best) == 90.91
    ensures score <= best ==> Headroom(score, best) <= 90.91
    ensures score >= 0.0 ==> Headroom(score, best) >= 0.0
  {
    HeadroomScale(best, best);
    assert best / best == 1.0;
    assert Min(100.0, best / (best * 1.1) * 100.0) == 1000.0 / 11.0;
    assert (1000.0 / 11.0 * 100.0).Floor == 9090;
    assert RoundHalfEven(1000.0 / 11.0 * 100.0) == 9091;
    assert IsCents(90.91) by { assert (90.91 * 100.0).Floor == 9091; }
    assert IsCents(0.0) by { assert (0.0 * 100.0).Floor == 0; }
    if score <= best {
      HeadroomScale(score, best);
      DivMonotone(score, best, best);
      assert score / (best * 1.1) * 100.0 <= 1000.0 / 11.0;
      Round2AtMost(Min(100.0, score / (best * 1.1) * 100.0), 90.91);
    }
    if score >= 0.0 {
      DivNonNegative(score, best * 1.1);
      Round2AtLeast(Min(100.0, score / (best * 1.1) * 100.0), 0.0);
    }
  }

  /** The cards the two passes leave on the visible stars. */
  function HeadroomStates(scores: seq<real>, chance: real, reason: string): (r: seq<CardState>)
    requires |scores| > 0
    ensures |r| == |scores|
  {
    seq(|scores|, k requires 0 <= k < |scores| =>
      CardState(scores[k], Headroom(scores[k], Best(scores)), Round2(chance), reason, ""))
  }

  /** The recommended list starts with the best star, which shows 90.91%
      when its score is positive; no star shows more, and every star
      carries the one weather chance and reason of the call. */
  lemma HeadroomStatesSpec(scores: seq<real>, chance: real, reason: string)
    requires |scores| > 0 && Best(scores) > 0.0
    ensures var ranked := RankedStates(HeadroomStates(scores, chance, reason));
      NonIncreasing(Scores(ranked)) &&
      ranked[0].score == Best(scores) && ranked[0].matchPercentage == 90.91 &&
      forall k :: 0 <= k < |ranked| ==>
        ranked[k].matchPercentage <= 90.91 &&
        ranked[k].visibilityChance == Round2(chance) && ranked[k].chanceReason == reason
  {
    var states := HeadroomStates(scores, chance, reason);
    var best := Best(scores);
    var ranked := RankedStates(states);
    var order := OrderDescending(Scores(states));
    RankedStatesSpec(states);
    OrderDescendingSpec(Scores(states));
    forall k | 0 <= k < |ranked|
      ensures ranked[k].matchPercentage <= 90.91
      ensures ranked[k].visibilityChance == Round2(chance) && ranked[k].chanceReason == reason
    {
      assert ranked[k] == states[order[k]];
      HeadroomBounds(scores[order[k]], best);
    }
    var top :| 0 <= top < |scores| && scores[top] == best;
    assert top < |Scores(states)| && top in order;
    var t :| 0 <= t < |order| && order[t] == top;
    assert ranked[t].score == best;
    assert Scores(ranked)[0] >= Scores(ranked)[t];
    assert ranked[0].score == scores[order[0]] <= best;
    HeadroomBounds(best, best);
  }

  /** The cards after the first pass: the score written on unscored
      cards. */
  function Pending(scores: seq<real>): (r: seq<CardState>)
    ensures |r| == |scores|
  {
    seq(|scores|, k requires 0 <= k < |scores| => Unscored.(score := scores[k]))
  }

  /** The cards after the second pass. */
  function Normalized(states: seq<CardState>, best: real, chance: real, reason: string): (r: seq<CardState>)
    ensures |r| == |states|
  {
    seq(|states|, k requires 0 <= k < |states| =>
      states[k].(matchPercentage := Headroom(states[k].score, best), visibilityChance := Round2(chance), chanceReason := reason))
  }

  /** The second pass over the first pass's cards, on cards that start
      unscored, leaves the cards `HeadroomStates` describes. */
  lemma TwoPasses(scores: seq<real>, chance: real, reason: string)
    requires |scores| > 0
    ensures Normalized(Pending(scores), Best(scores), chance, reason) == HeadroomStates(scores, chance, reason)
  {
  }

  class Engine {
    const user: User
    const minAltitude: real

    /** `Layer1_Star_Engine(user, minAlt)`; `minAlt` defaults to
        `DefaultMinAltitude`. */
    constructor (user: User, minAlt: real)
      ensures this.user == user && minAltitude == minAlt
    {
      this.user := user;
      minAltitude := minAlt;
    }

    /** `GetStarViews`: one fresh, unscored view per star, in order. */
    method GetStarViews(stars: seq<StarObject>, altAz: StarObject -> (real, real)) returns (views: seq<StarView>)
      ensures |views| == |stars|
      ensures forall i :: 0 <= i < |stars| ==>
        StarEngine.ShowsStar(views[i], stars[i], altAz, minAltitude) && fresh(views[i].card) && views[i].card.State() == Unscored
      ensures DistinctCards(StarCards(views))
    {
      views := [];
      for i := 0 to |stars|
        invariant |views| == i
        invariant forall k :: 0 <= k < i ==>
          StarEngine.ShowsStar(views[k], stars[k], altAz, minAltitude) && fresh(views[k].card) && views[k].card.State() == Unscored
        invariant DistinctCards(StarCards(views))
      {
        var position := altAz(stars[i]);
        var alt, az := position.0, position.1;
        var visible := alt >= minAltitude;
        var view := new StarView(stars[i], alt, az, visible);
        views := views + [view];
      }
    }

    /** The six components of one star's score, as the first loop's body
        computes them. */
    method Components(star: StarObject, pow15: real -> real, log10: real -> real)
      returns (likedScore: real, brightnessScore: real, colorScore: real, distanceScore: real,
               tempScore: real, physicalScore: real)
      ensures likedScore == LikedScore(user, star) && brightnessScore == BrightnessScore(star, pow15)
      ensures colorScore == ColorScore(star) && distanceScore == DistanceScore(star, log10)
      ensures tempScore == TemperatureScore(star) && physicalScore == PhysicalScore(star, log10)
    {
      likedScore := if star.name in user.likedStars then 5.0 else 3.0;
      brightnessScore := pow15(Max(0.0, 5.0 - GetOrElse(star.gmag, 6.0)));
      colorScore := 0.0;
      var color := ColorIndex(star);
      if color.Some? {
        colorScore := Max(0.0, 2.0 - Abs(color.value - 1.2));
      }
      distanceScore := 0.0;
      var distance := DistancePc(star);
      if distance.Some? {
        distanceScore := Max(0.0, 3.0 - log10(distance.value + 1.0));
      }
      tempScore := 0.0;
      if star.teff.Some? {
        var teff := star.teff.value;
        tempScore := Max(0.0, 2.5 - Abs(teff - 5500.0) / 3000.0);
      }
      physicalScore := 0.0;
      if star.luminosity.Some? {
        physicalScore := physicalScore + log10(star.luminosity.value + 1.0);
      }
      if star.mass.Some? {
        physicalScore := physicalScore + log10(star.mass.value + 1.0);
      }
    }

    /** The first loop's body for visible star `i` of `vis`: the
        components, one draw, the stretch, and `s.Score = Math.Round(score, 2)`. */
    method ScoreStar(card: ScoreCard, vis: seq<StarObject>, i: nat, ghost start: nat, pow15: real -> real,
                     pow11: real -> real, log10: real -> real, rng: Random)
      requires rng.Valid() && i < |vis| && rng.position == start + i
      modifies card`score, rng
      ensures rng.position == old(rng.position) + 1
      ensures card.score == FirstPass(user, vis, pow15, pow11, log10, rng.stream, start)[i]
    {
      var star := vis[i];
      var likedScore, brightnessScore, colorScore, distanceScore, tempScore, physicalScore := Components(star, pow15, log10);
      var randomNudge := rng.NextDouble();
      randomNudge := randomNudge * 0.5;
      var score := 0.4 * likedScore + 0.9 * brightnessScore + 0.4 * colorScore + 0.45 * distanceScore +
                   0.2 * tempScore + 0.25 * physicalScore + randomNudge;
      assert score == WeightedScore(user, star, pow15, log10, rng.stream(start + i));
      score := pow11(score);
      card.score := Round2(score);
      FirstPassAt(user, vis, pow15, pow11, log10, rng.stream, start, i);
    }

    /** The first loop, over the unscored cards of the visible stars
        `vis`. */
    method ScoreVisible(cards: seq<ScoreCard>, vis: seq<StarObject>, pow15: real -> real, pow11: real -> real,
                        log10: real -> real, rng: Random)
      requires rng.Valid() && DistinctCards(cards) && |cards| == |vis|
      requires forall k :: 0 <= k < |cards| ==> cards[k].State() == Unscored
      modifies rng, cards
      ensures rng.position == old(rng.position) + |vis|
      ensures States(cards) == Pending(FirstPass(user, vis, pow15, pow11, log10, rng.stream, old(rng.position)))
    {
      ghost var start := rng.position;
      ghost var scores := FirstPass(user, vis, pow15, pow11, log10, rng.stream, start);
      for i := 0 to |cards|
        invariant rng.position == start + i
        invariant forall k :: 0 <= k < i ==> cards[k].State() == Pending(scores)[k]
        invariant forall k :: i <= k < |cards| ==> cards[k].State() == Unscored
      {
        ScoreStar(cards[i], vis, i, start, pow15, pow11, log10, rng);
      }
    }

    /** The second loop's body for one card: the match percentage against
        `bestScore` with headroom, and the weather verdict. */
    method NormalizeCard(s: ScoreCard, bestScore: real, weatherChance: real, weatherReason: string)
      modifies s
      ensures s.State() == old(s.State()).(matchPercentage := Headroom(old(s.score), bestScore),
                                           visibilityChance := Round2(weatherChance), chanceReason := weatherReason)
    {
      var headroomFactor := 1.1;
      var scale := bestScore * headroomFactor;
      var matchPercentage := 0.0;
      if scale != 0.0 {
        var normalized := (s.score / scale) * 100.0;
        matchPercentage := Round2(Min(100.0, normalized));
      }
      s.matchPercentage := matchPercentage;
      s.visibilityChance := Round2(weatherChance);
      s.chanceReason := weatherReason;
    }

    /** The second loop, over the scored cards. */
    method Normalize(cards: seq<ScoreCard>, bestScore: real, weatherChance: real, weatherReason: string)
      requires DistinctCards(cards)
      modifies cards
      ensures States(cards) == Normalized(old(States(cards)), bestScore, weatherChance, weatherReason)
    {
      ghost var before := States(cards);
      ghost var target := Normalized(before, bestScore, weatherChance, weatherReason);
      for i := 0 to |cards|
        invariant forall k :: 0 <= k < i ==> cards[k].State() == target[k]
        invariant forall k :: i <= k < |cards| ==> cards[k].State() == before[k]
      {
        NormalizeCard(cards[i], bestScore, weatherChance, weatherReason);
      }
    }

    /** The two loops of `GetRecommendedStars` over the cards of the
        visible stars `vis`, with `bestScore` taken between them. */
    method RateVisible(cards: seq<ScoreCard>, vis: seq<StarObject>, pow15: real -> real, pow11: real -> real,
                       log10: real -> real, rng: Random, weatherChance: real, weatherReason: string)
      requires rng.Valid() && DistinctCards(cards) && |cards| == |vis| && |vis| > 0
      requires forall k :: 0 <= k < |cards| ==> cards[k].State() == Unscored
      modifies rng, cards
      ensures rng.position == old(rng.position) + |vis|
      ensures States(cards) ==
        HeadroomStates(FirstPass(user, vis, pow15, pow11, log10, rng.stream, old(rng.position)), weatherChance, weatherReason)
    {
      ghost var scores := FirstPass(user, vis, pow15, pow11, log10, rng.stream, rng.position);
      ScoreVisible(cards, vis, pow15, pow11, log10, rng);
      var bestScore := Best(Scores(States(cards)));
      assert Scores(States(cards)) == scores;
      Normalize(cards, bestScore, weatherChance, weatherReason);
      TwoPasses(scores, weatherChance, weatherReason);
    }

    /** `GetStarViews(stars, utcTime).Where(s => s.IsVisible)`. */
    method VisibleViews(stars: seq<StarObject>, altAz: StarObject -> (real, real)) returns (visible: seq<StarView>)
      ensures StarEngine.StarsOf(visible) == StarEngine.VisibleStars(stars, altAz, minAltitude)
      ensures forall k :: 0 <= k < |visible| ==>
        StarEngine.ShowsStar(visible[k], visible[k].star, altAz, minAltitude) && fresh(visible[k].card) &&
        visible[k].card.State() == Unscored
      ensures DistinctCards(StarCards(visible))
    {
      var views := GetStarViews(stars, altAz);
      var flags := seq(|views|, i requires 0 <= i < |views| => views[i].isVisible);
      assert flags == StarEngine.Visibility(stars, altAz, minAltitude);
      var ids := Where(flags);
      visible := Pick(views, ids);
      assert StarCards(visible) == Pick(StarCards(views), ids);
      PickDistinctCards(StarCards(views), ids);
    }

    /** `OrderByDescending(s => s.Score)` over the scored views of the
        visible stars `vis`, whose cards hold `states`. */
    method RankByScore(visible: seq<StarView>, ghost vis: seq<StarObject>, altAz: StarObject -> (real, real),
                       ghost states: seq<CardState>)
      returns (ranked: seq<StarView>)
      requires |visible| == |vis| && States(StarCards(visible)) == states
      requires forall k :: 0 <= k < |visible| ==>
        StarEngine.ShowsStar(visible[k], vis[k], altAz, minAltitude)
      ensures var order := OrderDescending(Scores(states));
        |ranked| == |vis| &&
        (forall k :: 0 <= k < |ranked| ==>
          ranked[k] == visible[order[k]] && StarEngine.ShowsStar(ranked[k], vis[order[k]], altAz, minAltitude)) &&
        States(StarCards(ranked)) == RankedStates(states)
    {
      var order := OrderDescending(Scores(States(StarCards(visible))));
      ranked := Pick(visible, order);
      assert StarCards(ranked) == Pick(StarCards(visible), order);
      StatesOfPick(StarCards(visible), order);
    }

    /** `GetRecommendedStars`: score the visible stars, normalise against
        the best of them, and return them highest score first. With no
        visible star, `Max` throws. */
    method GetRecommendedStars(stars: seq<StarObject>, altAz: StarObject -> (real, real), pow15: real -> real,
                               pow11: real -> real, log10: real -> real, rng: Random,
                               weatherChance: real, weatherReason: string)
      returns (r: Result<seq<StarView>, Exception>)
      requires rng.Valid()
      modifies rng
      ensures var vis := StarEngine.VisibleStars(stars, altAz, minAltitude);
        var scores := FirstPass(user, vis, pow15, pow11, log10, rng.stream, old(rng.position));
        rng.position == old(rng.position) + |vis| &&
        (r.Err? <==> |vis| == 0) &&
        (r.Err? ==> r.error == InvalidOperationException("Sequence contains no elements")) &&
        (r.Ok? ==>
          var states := HeadroomStates(scores, weatherChance, weatherReason);
          var order := OrderDescending(Scores(states));
          |r.value| == |vis| &&
          (forall k :: 0 <= k < |r.value| ==> StarEngine.ShowsStar(r.value[k], vis[order[k]], altAz, minAltitude) && fresh(r.value[k].card)) &&
          States(StarCards(r.value)) == RankedStates(states))
    {
      var visible := VisibleViews(stars, altAz);
      var vis := StarEngine.StarsOf(visible);
      var cards := StarCards(visible);
      if |visible| == 0 {
        // the first loop draws nothing, and `Max` throws
        return Err(InvalidOperationException("Sequence contains no elements"));
      }
      ghost var states := HeadroomStates(FirstPass(user, vis, pow15, pow11, log10, rng.stream, rng.position),
                                         weatherChance, weatherReason);
      RateVisible(cards, vis, pow15, pow11, log10, rng, weatherChance, weatherReason);
      var ranked := RankByScore(visible, vis, altAz, states);
      r := Ok(ranked);
    }
  }
}
