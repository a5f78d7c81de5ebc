/** `Layer1_Star_Engine` of the stand-alone engine: one view per catalogue
    star, visible at or above the minimum altitude; every visible star is
    scored from the user's likes and favourite spectral types, its
    brightness and a random nudge, and the visible stars are returned
    highest score first. The altitude and azimuth of a star, the weather
    verdict, `Math.Pow(x, 1.5)` and the random draws are inputs. */
module StarEngine {
  import opened Wrappers
  import opened Numerics
  import opened Sorting
  import opened Views
  import opened RandomSource
  import opened Layer1
  import Boosting

  /** `maxScore`: 2.5 + 2.0 + 3.75 + 2.0. */
  const MaxScore: real := 10.25

  /** 5 points for a liked star. */
  function LikedScore(user: User, star: StarObject): real {
    if star.name in user.likedStars then 5.0 else 0.0
  }

  /** 5 points for a star whose spectral type is a favourite. */
  function SpectralScore(user: User, star: StarObject): real {
    if star.spectralType in user.favoriteSpectralTypes then 5.0 else 0.0
  }

  /** `Math.Pow(Math.Max(0, 5 - Gmag), 1.5)`. The stand-alone `Gmag` is a
      plain `double`, so a record without one carries 0. */
  function BrightnessScore(star: StarObject, pow: real -> real): real {
    pow(Max(0.0, 5.0 - GetOrElse(star.gmag, 0.0)))
  }

  /** 2 extra points when both preferences hold. */
  function SynergyBonus(likedScore: real, spectralScore: real): real {
    if likedScore > 0.0 && spectralScore > 0.0 then 2.0 else 0.0
  }

  /** The weighted sum, with the nudge `draw * 0.5`. */
  function RawScore(user: User, star: StarObject, pow: real -> real, draw: real): (r: real)
    ensures IsPower(pow) && 0.0 <= draw ==> r >= 0.0
  {
    var liked := LikedScore(user, star);
    var spectral := SpectralScore(user, star);
    0.5 * liked + 0.4 * spectral + 0.75 * BrightnessScore(star, pow) + SynergyBonus(liked, spectral) + draw * 0.5
  }

  /** The components are what their comments promise: 5 for a liked star,
      5 for a favourite spectral type, 2 for both together, a nudge in
      [0, 0.5), and no brightness at magnitude 5 or fainter. */
  lemma ScoreComponents(user: User, star: StarObject, pow: real -> real, draw: real)
    requires IsPower(pow) && 0.0 <= draw < 1.0
    ensures LikedScore(user, star) == (if star.name in user.likedStars then 5.0 else 0.0)
    ensures SpectralScore(user, star) == (if star.spectralType in user.favoriteSpectralTypes then 5.0 else 0.0)
    ensures SynergyBonus(LikedScore(user, star), SpectralScore(user, star)) == 2.0 <==>
            star.name in user.likedStars && star.spectralType in user.favoriteSpectralTypes
    ensures 0.0 <= draw * 0.5 < 0.5
    ensures BrightnessScore(star, pow) >= 0.0
    ensures GetOrElse(star.gmag, 0.0) >= 5.0 ==> BrightnessScore(star, pow) == 0.0
  {
  }

  /** A brighter star (smaller magnitude) never scores lower than a fainter
      one with the same name, the same spectral type and the same draw. */
  lemma BrighterScoresHigher(user: User, s: StarObject, t: StarObject, pow: real -> real, draw: real)
    requires IsPower(pow)
    requires s.name == t.name && s.spectralType == t.spectralType
    requires GetOrElse(s.gmag, 0.0) <= GetOrElse(t.gmag, 0.0)
    ensures RawScore(user, s, pow, draw) >= RawScore(user, t, pow, draw)
  {
    assert Max(0.0, 5.0 - GetOrElse(t.gmag, 0.0)) <= Max(0.0, 5.0 - GetOrElse(s.gmag, 0.0));
  }

  /** Liking a star of a favourite type lifts it by 4.5 points over the
      same star unliked: 2.5 for the like and 2 for the synergy. */
  lemma LikeLifts(user: User, star: StarObject, pow: real -> real, draw: real)
    requires star.spectralType in user.favoriteSpectralTypes
    ensures RawScore(user.(likedStars := user.likedStars + [star.name]), star, pow, draw)
            == RawScore(user.(likedStars := []), star, pow, draw) + 4.5
  {
    assert star.name in user.likedStars + [star.name];
  }

  /** The card of a visible star. */
  function StarState(user: User, star: StarObject, pow: real -> real, draw: real, chance: real, reason: string): CardState {
    Rated(RawScore(user, star, pow, draw), MaxScore, chance, reason)
  }

  /** Which stars stand at or above the minimum altitude. */
  function Visibility(stars: seq<StarObject>, altAz: StarObject -> (real, real), minAltitude: real): (r: seq<bool>)
    ensures |r| == |stars|
  {
    seq(|stars|, i requires 0 <= i < |stars| => altAz(stars[i]).0 >= minAltitude)
  }

  /** `starViews.Where(s => s.IsVisible)`, as the stars behind the views. */
  function VisibleStars(stars: seq<StarObject>, altAz: StarObject -> (real, real), minAltitude: real): (r: seq<StarObject>) {
    Pick(stars, Where(Visibility(stars, altAz, minAltitude)))
  }

  /** Exactly the stars at or above the minimum altitude are kept, in
      catalogue order. */
  lemma VisibleStarsSpec(stars: seq<StarObject>, altAz: StarObject -> (real, real), minAltitude: real)
    ensures forall k :: 0 <= k < |VisibleStars(stars, altAz, minAltitude)| ==>
      altAz(VisibleStars(stars, altAz, minAltitude)[k]).0 >= minAltitude
    ensures forall i :: 0 <= i < |stars| && altAz(stars[i]).0 >= minAltitude ==>
      stars[i] in VisibleStars(stars, altAz, minAltitude)
  {
    var ids := Where(Visibility(stars, altAz, minAltitude));
    forall i | 0 <= i < |stars| && altAz(stars[i]).0 >= minAltitude
      ensures stars[i] in VisibleStars(stars, altAz, minAltitude)
    {
      assert Visibility(stars, altAz, minAltitude)[i];
      var k :| 0 <= k < |ids| && ids[k] == i;
      assert VisibleStars(stars, altAz, minAltitude)[k] == stars[i];
    }
  }

  /** The cards the scoring loop writes, visible star `k` taking draw
      `start + k`. */
  function ScoredStates(user: User, vis: seq<StarObject>, pow: real -> real, stream: nat -> real, start: nat,
                        chance: real, reason: string): (r: seq<CardState>)
    ensures |r| == |vis|
  {
    seq(|vis|, k requires 0 <= k < |vis| => StarState(user, vis[k], pow, stream(start + k), chance, reason))
  }

  /** The returned cards come highest score first; each has a match
      percentage in [0, 100] and carries the one weather chance and reason
      of the call. */
  lemma RecommendedStarsSpec(user: User, vis: seq<StarObject>, pow: real -> real, stream: nat -> real, start: nat,
                             chance: real, reason: string)
    requires IsPower(pow) && IsUnitStream(stream)
    ensures var ranked := RankedStates(ScoredStates(user, vis, pow, stream, start, chance, reason));
      NonIncreasing(Scores(ranked)) &&
      multiset(ranked) == multiset(ScoredStates(user, vis, pow, stream, start, chance, reason)) &&
      forall k :: 0 <= k < |ranked| ==>
        0.0 <= ranked[k].matchPercentage <= 100.0 && ranked[k].score >= 0.0 &&
        ranked[k].visibilityChance == Round2(chance) && ranked[k].chanceReason == reason
  {
    var states := ScoredStates(user, vis, pow, stream, start, chance, reason);
    RankedStatesSpec(states);
    var order := OrderDescending(Scores(states));
    forall k | 0 <= k < |states|
      ensures 0.0 <= RankedStates(states)[k].matchPercentage <= 100.0 && RankedStates(states)[k].score >= 0.0
    {
      var j := order[k];
      assert RankedStates(states)[k] == states[j];
      assert 0.0 <= stream(start + j);
    }
  }

  /** The stars behind a list of views. */
  function StarsOf(views: seq<StarView>): (r: seq<StarObject>)
    ensures |r| == |views| && forall i :: 0 <= i < |views| ==> r[i] == views[i].star
  {
    seq(|views|, i requires 0 <= i < |views| => views[i].star)
  }

  /** A view of `star` as `GetStarViews` builds it. */
  predicate ShowsStar(v: StarView, star: StarObject, altAz: StarObject -> (real, real), minAltitude: real) {
    v.star == star && v.id == star.id && v.spectralType == star.spectralType &&
    v.altitude == altAz(star).0 && v.azimuth == altAz(star).1 &&
    v.isVisible == (altAz(star).0 >= minAltitude)
  }

  class Engine {
    const user: User
    const minAltitude: real

    /** `Layer1_Star_Engine(user, minAlt)`; `minAlt` defaults to
        `DefaultMinAltitude`. */
    constructor (user: User, minAlt: real)
      ensures this.user == user && minAltitude == minAlt
    {
      this.user := user;
      minAltitude := minAlt;
    }

    /** `GetStarViews`: one fresh, unscored view per star, in order. */
    method GetStarViews(stars: seq<StarObject>, altAz: StarObject -> (real, real)) returns (views: seq<StarView>)
      ensures |views| == |stars|
      ensures forall i :: 0 <= i < |stars| ==>
        ShowsStar(views[i], stars[i], altAz, minAltitude) && fresh(views[i].card) && views[i].card.State() == Unscored
      ensures DistinctCards(StarCards(views))
    {
      views := [];
      for i := 0 to |stars|
        invariant |views| == i
        invariant forall k :: 0 <= k < i ==>
          ShowsStar(views[k], stars[k], altAz, minAltitude) && fresh(views[k].card) && views[k].card.State() == Unscored
        invariant DistinctCards(StarCards(views))
      {
        var position := altAz(stars[i]);
        var alt, az := position.0, position.1;
        var visible := alt >= minAltitude;
        var view := new StarView(stars[i], alt, az, visible);
        views := views + [view];
      }
    }

    /** The loop body of `GetRecommendedStars` for one visible star: the
        score components, one draw, and the setters of the star's card. */
    method ScoreStar(card: ScoreCard, star: StarObject, pow: real -> real, rng: Random,
                     weatherChance: real, weatherReason: string)
      requires rng.Valid()
      modifies card, rng
      ensures rng.position == old(rng.position) + 1
      ensures card.State() == StarState(user, star, pow, rng.stream(old(rng.position)), weatherChance, weatherReason)
    {
      var maxScore := 2.5 + 2.0 + 3.75 + 2.0;
      var likedScore := if star.name in user.likedStars then 5.0 else 0.0;
      var spectralScore := if star.spectralType in user.favoriteSpectralTypes then 5.0 else 0.0;
      var brightnessScore := pow(Max(0.0, 5.0 - GetOrElse(star.gmag, 0.0)));
      var synergyBonus := if likedScore > 0.0 && spectralScore > 0.0 then 2.0 else 0.0;
      var randomNudge := rng.NextDouble();
      randomNudge := randomNudge * 0.5;
      var score := 0.5 * likedScore + 0.4 * spectralScore + 0.75 * brightnessScore + synergyBonus + randomNudge;
      assert score == RawScore(user, star, pow, rng.stream(old(rng.position)));
      // Score, MatchPercentage, VisibilityChance and ChanceReason
      Boosting.SetState(card, Rated(score, maxScore, weatherChance, weatherReason));
    }

    /** The scoring loop over the cards of the visible stars `vis`, one
        draw each. */
    method ScoreVisible(cards: seq<ScoreCard>, vis: seq<StarObject>, pow: real -> real, rng: Random,
                        weatherChance: real, weatherReason: string)
      requires rng.Valid() && DistinctCards(cards) && |cards| == |vis|
      modifies rng, cards
      ensures rng.position == old(rng.position) + |vis|
      ensures States(cards) == ScoredStates(user, vis, pow, rng.stream, old(rng.position), weatherChance, weatherReason)
    {
      ghost var start := rng.position;
      ghost var target := ScoredStates(user, vis, pow, rng.stream, start, weatherChance, weatherReason);
      for i := 0 to |cards|
        invariant rng.position == start + i
        invariant forall k :: 0 <= k < i ==> cards[k].State() == target[k]
      {
        assert target[i] == StarState(user, vis[i], pow, rng.stream(start + i), weatherChance, weatherReason);
        ScoreStar(cards[i], vis[i], pow, rng, weatherChance, weatherReason);
      }
    }

    /** `GetRecommendedStars`: score the visible stars in place and return
        them highest score first. `weatherChance` and `weatherReason` are
        the weather verdict of the call. */
    method GetRecommendedStars(stars: seq<StarObject>, altAz: StarObject -> (real, real), pow: real -> real,
                               rng: Random, weatherChance: real, weatherReason: string)
      returns (r: seq<StarView>)
      requires rng.Valid()
      modifies rng
      ensures var vis := VisibleStars(stars, altAz, minAltitude);
        var states := ScoredStates(user, vis, pow, rng.stream, old(rng.position), weatherChance, weatherReason);
        var order := OrderDescending(Scores(states));
        rng.position == old(rng.position) + |vis| && |r| == |vis| &&
        (forall k :: 0 <= k < |r| ==> ShowsStar(r[k], vis[order[k]], altAz, minAltitude) && fresh(r[k].card)) &&
        States(StarCards(r)) == RankedStates(states)
    {
      var views := GetStarViews(stars, altAz);
      var flags := seq(|views|, i requires 0 <= i < |views| => views[i].isVisible);
      assert flags == Visibility(stars, altAz, minAltitude);
      var ids := Where(flags);
      var visible := Pick(views, ids);
      assert StarsOf(visible) == VisibleStars(stars, altAz, minAltitude);
      assert StarCards(visible) == Pick(StarCards(views), ids);
      PickDistinctCards(StarCards(views), ids);
      ScoreVisible(StarCards(visible), StarsOf(visible), pow, rng, weatherChance, weatherReason);
      var order := OrderDescending(Scores(States(StarCards(visible))));
      r := Pick(visible, order);
      assert StarCards(r) == Pick(StarCards(visible), order);
      StatesOfPick(StarCards(visible), order);
    }
  }
}
