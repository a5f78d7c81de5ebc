/** `Layer1_Planet_Engine` of the stand-alone engine: one view per catalogue
    planet whose name the orbital-element table knows, placed by its
    geocentric position; every visible planet is scored from the user's
    likes, its rings, temperature, distance from the Sun and a magnitude
    term, plus a random nudge, and the visible planets are returned highest
    score first. The trigonometry (heliocentric position from the current
    elements, the equatorial conversion, the observer's altitude and
    azimuth), the weather verdict, `Math.Pow(x, 1.2)`, `Math.Log10` and the
    random draws are inputs. */
module PlanetEngine {
  import opened Wrappers
  import opened Numerics
  import opened Sorting
  import opened Views
  import opened RandomSource
  import opened Layer1
  import Boosting
  import Ephemeris
  import Text

  /** `maxScore`: 1.5 + 0.4 + 0.9 + 0.4 + 5.0 + 2.0. */
  const MaxScore: real := 10.2

  /** Where a supported planet stands at the time of the call. */
  datatype Sighting = Sighting(
    planet: PlanetObject,
    geocentric: Vector3,
    rightAscension: real,
    declination: real,
    altitude: real,
    azimuth: real)

  /** The heliocentric position of Earth, which the table always knows. */
  function EarthPosition(utcTime: Ephemeris.DateTime, position: Ephemeris.CurrentElements -> Vector3): Vector3 {
    Ephemeris.EarthIsKnown();
    position(Ephemeris.HeliocentricElements("earth", utcTime).value)
  }

  function Minus(p: Vector3, q: Vector3): Vector3 {
    Vector3(p.x - q.x, p.y - q.y, p.z - q.z)
  }

  /** A supported planet seen from Earth: the geocentric difference, its
      right ascension and declination in degrees, and the altitude and
      azimuth of that direction (right ascension passed in hours). */
  function Sight(planet: PlanetObject, el: Ephemeris.CurrentElements, earth: Vector3,
                 position: Ephemeris.CurrentElements -> Vector3, equatorial: Vector3 -> (real, real),
                 altAz: (real, real) -> (real, real)): Sighting
  {
    var geocentric := Minus(position(el), earth);
    var radec := equatorial(geocentric);
    var horizontal := altAz(radec.0 / 15.0, radec.1);
    Sighting(planet, geocentric, radec.0, radec.1, horizontal.0, horizontal.1)
  }

  /** `CalculateHeliocentricPosition`'s lookup at `utcTime`: the current
      elements of a body, or the table's exception for an unknown name. */
  function Lookup(utcTime: Ephemeris.DateTime): string -> Result<Ephemeris.CurrentElements, Exception> {
    name => Ephemeris.HeliocentricElements(name, utcTime)
  }

  /** The lookup at any time accepts exactly the names the table knows,
      in any case. */
  lemma LookupKnows(utcTime: Ephemeris.DateTime, name: string)
    ensures Lookup(utcTime)(name).Ok? <==> Text.ToLower(name) in Ephemeris.Bodies
  {
    Ephemeris.GetPlanetElementsSpec(name);
    Ephemeris.HeliocentricElementsSpec(name, utcTime);
  }

  /** The sighting of one planet from the answer `found` of the position
      service: none when it threw. */
  function SightingFrom(planet: PlanetObject, found: Result<Ephemeris.CurrentElements, Exception>, earth: Vector3,
                        position: Ephemeris.CurrentElements -> Vector3, equatorial: Vector3 -> (real, real),
                        altAz: (real, real) -> (real, real)): (r: seq<Sighting>)
    ensures |r| <= 1
  {
    match found
    case Err(_) => []
    case Ok(el) => [Sight(planet, el, earth, position, equatorial, altAz)]
  }

  /** The sighting of one planet, or none when `elements` throws for its
      name. */
  function SightingOf(planet: PlanetObject, elements: string -> Result<Ephemeris.CurrentElements, Exception>, earth: Vector3,
                      position: Ephemeris.CurrentElements -> Vector3, equatorial: Vector3 -> (real, real),
                      altAz: (real, real) -> (real, real)): (r: seq<Sighting>)
    ensures |r| <= 1
  {
    SightingFrom(planet, elements(planet.name), earth, position, equatorial, altAz)
  }

  /** The sightings `GetPlanetViews` turns into views, in catalogue order. */
  function Sightings(planets: seq<PlanetObject>, elements: string -> Result<Ephemeris.CurrentElements, Exception>,
                     earth: Vector3,
                     position: Ephemeris.CurrentElements -> Vector3, equatorial: Vector3 -> (real, real),
                     altAz: (real, real) -> (real, real)): (r: seq<Sighting>)
    ensures |r| <= |planets|
  {
    if |planets| == 0 then []
    else
      var last := |planets| - 1;
      Sightings(planets[..last], elements, earth, position, equatorial, altAz) +
      SightingOf(planets[last], elements, earth, position, equatorial, altAz)
  }

  /** One more planet of the catalogue adds its own sighting, if any, at
      the end. */
  lemma SightingsStep(planets: seq<PlanetObject>, i: nat,
                      elements: string -> Result<Ephemeris.CurrentElements, Exception>, earth: Vector3,
                      position: Ephemeris.CurrentElements -> Vector3, equatorial: Vector3 -> (real, real),
                      altAz: (real, real) -> (real, real))
    requires i < |planets|
    ensures Sightings(planets[..i + 1], elements, earth, position, equatorial, altAz) ==
      Sightings(planets[..i], elements, earth, position, equatorial, altAz) +
      SightingFrom(planets[i], elements(planets[i].name), earth, position, equatorial, altAz)
  {
    assert planets[..i + 1][..i] == planets[..i];
  }

  /** Exactly the planets whose name the table knows are sighted: every
      sighting is of such a catalogue planet, every such planet is sighted,
      and with every name known no planet is skipped. */
  lemma {:induction false} SightingsSpec(planets: seq<PlanetObject>,
                                         elements: string -> Result<Ephemeris.CurrentElements, Exception>, earth: Vector3,
                                         position: Ephemeris.CurrentElements -> Vector3,
                                         equatorial: Vector3 -> (real, real), altAz: (real, real) -> (real, real))
    ensures var r := Sightings(planets, elements, earth, position, equatorial, altAz);
      (forall k :: 0 <= k < |r| ==> r[k].planet in planets && elements(r[k].planet.name).Ok?) &&
      (forall i :: 0 <= i < |planets| && elements(planets[i].name).Ok? ==>
        exists k :: 0 <= k < |r| && r[k].planet == planets[i]) &&
      ((forall i :: 0 <= i < |planets| ==> elements(planets[i].name).Ok?) ==> |r| == |planets|)
  {
    if |planets| > 0 {
      var last := |planets| - 1;
      var prefix := planets[..last];
      SightingsSpec(prefix, elements, earth, position, equatorial, altAz);
      var front := Sightings(prefix, elements, earth, position, equatorial, altAz);
      var tail := SightingOf(planets[last], elements, earth, position, equatorial, altAz);
      var r := front + tail;
      assert Sightings(planets, elements, earth, position, equatorial, altAz) == r;
      forall k | 0 <= k < |r|
        ensures r[k].planet in planets && elements(r[k].planet.name).Ok?
      {
        if k < |front| {
          assert r[k] == front[k];
          assert front[k].planet in prefix;
        } else {
          assert r[k] == tail[0];
        }
      }
      forall i | 0 <= i < |planets| && elements(planets[i].name).Ok?
        ensures exists k :: 0 <= k < |r| && r[k].planet == planets[i]
      {
        if i < last {
          assert planets[i] == prefix[i];
          var k :| 0 <= k < |front| && front[k].planet == prefix[i];
          assert r[k] == front[k];
        } else {
          assert r[|front|] == tail[0];
        }
      }
      if forall i :: 0 <= i < |planets| ==> elements(planets[i].name).Ok? {
        assert forall i :: 0 <= i < |prefix| ==> prefix[i] == planets[i];
        assert elements(planets[last].name).Ok?;
      }
    }
  }

  /** Earth, under any spelling of its name, is seen at the geocentric
      origin. */
  lemma EarthAtOrigin(planet: PlanetObject, utcTime: Ephemeris.DateTime,
                      position: Ephemeris.CurrentElements -> Vector3, equatorial: Vector3 -> (real, real),
                      altAz: (real, real) -> (real, real))
    requires Text.EqualsIgnoreCase(planet.name, "earth")
    ensures var r := SightingOf(planet, Lookup(utcTime), EarthPosition(utcTime, position), position, equatorial, altAz);
      |r| == 1 && r[0].geocentric == Vector3(0.0, 0.0, 0.0)
  {
    Ephemeris.EarthIsKnown();
    Ephemeris.ElementsIgnoreCase(planet.name, "earth");
  }

  /** A view of `s` as `GetPlanetViews` builds it. */
  predicate ShowsPlanet(v: PlanetView, s: Sighting, minAltitude: real) {
    v.planet == s.planet && v.id == s.planet.id && v.planetType == s.planet.planetType &&
    v.altitude == s.altitude && v.azimuth == s.azimuth && v.isVisible == (s.altitude >= minAltitude) &&
    v.geocentric == s.geocentric && v.rightAscension == s.rightAscension && v.declination == s.declination
  }

  /** 3 points for a liked planet. */
  function LikedScore(user: User, planet: PlanetObject): real {
    if planet.name in user.likedPlanets then 3.0 else 0.0
  }

  /** 2 points for rings. */
  function RingsScore(planet: PlanetObject): real {
    if planet.hasRings then 2.0 else 0.0
  }

  /** 3 points for a mean temperature strictly between -50 and 60 degrees
      Celsius. */
  function TemperatureScore(planet: PlanetObject): real {
    if -50.0 < planet.meanTemperature < 60.0 then 3.0 else 0.0
  }

  /** `(1 / (DistanceFromSun + 1)) * 2`. */
  function DistanceScore(planet: PlanetObject): real {
    var d := planet.distanceFromSun + 1.0;
    if d != 0.0 then (1.0 / d) * 2.0 else 0.0
  }

  /** `Math.Pow(Math.Max(0, Math.Min(5 - (m + 5 * Math.Log10(sunAU * earthAU)), 5)), 1.2)`,
      with both distances converted to astronomical units and kept at least
      1e-6. */
  function MagnitudeScore(magnitude: real, distanceFromSun: real, distanceFromEarth: real,
                          pow12: real -> real, log10: real -> real): real
  {
    var sunAU := Max(distanceFromSun / 149.6, 0.000001);
    var earthAU := Max(distanceFromEarth / 149.6, 0.000001);
    var raw := 5.0 - (magnitude + 5.0 * log10(sunAU * earthAU));
    pow12(Max(0.0, Min(raw, 5.0)))
  }

  /** 2 extra points for a liked planet with a comfortable temperature. */
  function SynergyBonus(likedScore: real, tempScore: real): real {
    if likedScore > 0.0 && tempScore > 0.0 then 2.0 else 0.0
  }

  /** The weighted sum, with the magnitude term of a view as
      `GetPlanetViews` leaves it (magnitude and both distances 0) and the
      nudge `draw * 0.5`. */
  function RawScore(user: User, planet: PlanetObject, pow12: real -> real, log10: real -> real, draw: real): real {
    var liked := LikedScore(user, planet);
    var temp := TemperatureScore(planet);
    0.5 * liked + 0.2 * RingsScore(planet) + 0.3 * temp + 0.2 * DistanceScore(planet) +
    1.0 * MagnitudeScore(0.0, 0.0, 0.0, pow12, log10) + SynergyBonus(liked, temp) + draw * 0.5
  }

  /** Since no code assigns a view's magnitude and distances, both distances
      are clamped to 1e-6 AU, the raw magnitude term is 65, and every planet
      gets the capped magnitude score `Math.Pow(5, 1.2)`. */
  lemma MagnitudeScoreConstant(pow12: real -> real, log10: real -> real)
    requires IsLog10(log10)
    ensures MagnitudeScore(0.0, 0.0, 0.0, pow12, log10) == pow12(5.0)
  {
    var au := Max(0.0 / 149.6, 0.000001);
    assert au == 0.000001;
    assert 0.0 < au * au < 1.0;
    assert log10(au * au) < log10(1.0);
    assert 5.0 - (0.0 + 5.0 * log10(au * au)) > 5.0;
  }

  /** The components are what their comments promise: 3 for a liked planet,
      2 for rings, 3 for a comfortable temperature, 2 more for both a like
      and a comfortable temperature, a distance term in (0, 2] for a planet
      not closer than the Sun's centre, a magnitude term between 0 and
      `Math.Pow(5, 1.2)`, and a nudge in [0, 0.5). */
  lemma ScoreComponents(user: User, planet: PlanetObject, pow12: real -> real, log10: real -> real, draw: real)
    requires IsPower(pow12) && 0.0 <= draw < 1.0
    ensures LikedScore(user, planet) == (if planet.name in user.likedPlanets then 3.0 else 0.0)
    ensures RingsScore(planet) == (if planet.hasRings then 2.0 else 0.0)
    ensures TemperatureScore(planet) == 3.0 <==> -50.0 < planet.meanTemperature < 60.0
    ensures SynergyBonus(LikedScore(user, planet), TemperatureScore(planet)) == 2.0 <==>
            planet.name in user.likedPlanets && -50.0 < planet.meanTemperature < 60.0
    ensures planet.distanceFromSun >= 0.0 ==> 0.0 < DistanceScore(planet) <= 2.0
    ensures 0.0 <= MagnitudeScore(0.0, 0.0, 0.0, pow12, log10) <= pow12(5.0)
    ensures 0.0 <= draw * 0.5 < 0.5
  {
    if planet.distanceFromSun >= 0.0 {
      var d := planet.distanceFromSun + 1.0;
      assert 1.0 / d <= 1.0 by { DivMonotone(1.0, d, 1.0); }
    }
  }

  /** A planet liked and comfortable gains 3.5 points over the same planet
      unliked: 1.5 for the like and 2 for the synergy. */
  lemma LikeLifts(user: User, planet: PlanetObject, pow12: real -> real, log10: real -> real, draw: real)
    requires -50.0 < planet.meanTemperature < 60.0
    ensures RawScore(user.(likedPlanets := user.likedPlanets + [planet.name]), planet, pow12, log10, draw)
            == RawScore(user.(likedPlanets := []), planet, pow12, log10, draw) + 3.5
  {
    assert planet.name in user.likedPlanets + [planet.name];
  }

  /** The card of a visible planet. */
  function PlanetState(user: User, planet: PlanetObject, pow12: real -> real, log10: real -> real, draw: real,
                       chance: real, reason: string): CardState
  {
    Rated(RawScore(user, planet, pow12, log10, draw), MaxScore, chance, reason)
  }

  /** `planetViews.Where(p => p.IsVisible)`, as the sightings behind the
      views. */
  function VisibleSightings(sightings: seq<Sighting>, minAltitude: real): (r: seq<Sighting>) {
    Pick(sightings, Where(seq(|sightings|, i requires 0 <= i < |sightings| => sightings[i].altitude >= minAltitude)))
  }

  /** Exactly the sightings at or above the minimum altitude are kept. */
  lemma VisibleSightingsSpec(sightings: seq<Sighting>, minAltitude: real)
    ensures forall k :: 0 <= k < |VisibleSightings(sightings, minAltitude)| ==>
      VisibleSightings(sightings, minAltitude)[k].altitude >= minAltitude
    ensures forall i :: 0 <= i < |sightings| && sightings[i].altitude >= minAltitude ==>
      sightings[i] in VisibleSightings(sightings, minAltitude)
  {
    var flags := seq(|sightings|, i requires 0 <= i < |sightings| => sightings[i].altitude >= minAltitude);
    var ids := Where(flags);
    forall i | 0 <= i < |sightings| && sightings[i].altitude >= minAltitude
      ensures sightings[i] in VisibleSightings(sightings, minAltitude)
    {
      assert flags[i];
      var k :| 0 <= k < |ids| && ids[k] == i;
      assert VisibleSightings(sightings, minAltitude)[k] == sightings[i];
    }
  }

  /** The planets behind a list of sightings. */
  function PlanetsOf(sightings: seq<Sighting>): (r: seq<PlanetObject>)
    ensures |r| == |sightings| && forall i :: 0 <= i < |sightings| ==> r[i] == sightings[i].planet
  {
    seq(|sightings|, i requires 0 <= i < |sightings| => sightings[i].planet)
  }

  /** The planets behind a list of views. */
  function ViewedPlanets(views: seq<PlanetView>): (r: seq<PlanetObject>)
    ensures |r| == |views| && forall i :: 0 <= i < |views| ==> r[i] == views[i].planet
  {
    seq(|views|, i requires 0 <= i < |views| => views[i].planet)
  }

  /** The cards the scoring loop writes, visible planet `k` taking draw
      `start + k`. */
  function ScoredStates(user: User, vis: seq<PlanetObject>, pow12: real -> real, log10: real -> real,
                        stream: nat -> real, start: nat, chance: real, reason: string): (r: seq<CardState>)
    ensures |r| == |vis|
  {
    seq(|vis|, k requires 0 <= k < |vis| => PlanetState(user, vis[k], pow12, log10, stream(start + k), chance, reason))
  }

  /** The returned cards come highest score first; each has a match
      percentage in [0, 100], a score that is not negative when no planet
      lies closer than the Sun's centre, and carries the one weather chance
      and reason of the call. */
  lemma RecommendedPlanetsSpec(user: User, vis: seq<PlanetObject>, pow12: real -> real, log10: real -> real,
                               stream: nat -> real, start: nat, chance: real, reason: string)
    requires IsPower(pow12) && IsUnitStream(stream)
    requires forall k :: 0 <= k < |vis| ==> vis[k].distanceFromSun >= 0.0
    ensures var ranked := RankedStates(ScoredStates(user, vis, pow12, log10, stream, start, chance, reason));
      NonIncreasing(Scores(ranked)) &&
      multiset(ranked) == multiset(ScoredStates(user, vis, pow12, log10, stream, start, chance, reason)) &&
      forall k :: 0 <= k < |ranked| ==>
        0.0 <= ranked[k].matchPercentage <= 100.0 && ranked[k].score >= 0.0 &&
        ranked[k].visibilityChance == Round2(chance) && ranked[k].chanceReason == reason
  {
    var states := ScoredStates(user, vis, pow12, log10, stream, start, chance, reason);
    RankedStatesSpec(states);
    var order := OrderDescending(Scores(states));
    forall k | 0 <= k < |states|
      ensures 0.0 <= RankedStates(states)[k].matchPercentage <= 100.0 && RankedStates(states)[k].score >= 0.0
    {
      var j := order[k];
      assert RankedStates(states)[k] == states[j];
      ScoreComponents(user, vis[j], pow12, log10, stream(start + j));
    }
  }

  class Engine {
    const user: User
    const minAltitude: real

    /** `Layer1_Planet_Engine(user, minAlt)`; `minAlt` defaults to
        `DefaultMinAltitude`. */
    constructor (user: User, minAlt: real)
      ensures this.user == user && minAltitude == minAlt
    {
      this.user := user;
      minAltitude := minAlt;
    }

    /** `GetPlanetViews`: Earth's position first, then one fresh, unscored
        view per planet the table knows, in order; a planet whose name
        raises the table's `ArgumentException` is skipped. */
    method GetPlanetViews(planets: seq<PlanetObject>, utcTime: Ephemeris.DateTime,
                          position: Ephemeris.CurrentElements -> Vector3, equatorial: Vector3 -> (real, real),
                          altAz: (real, real) -> (real, real))
      returns (views: seq<PlanetView>)
      ensures var sightings := Sightings(planets, Lookup(utcTime), EarthPosition(utcTime, position), position, equatorial, altAz);
        |views| == |sightings| &&
        forall k :: 0 <= k < |views| ==>
          ShowsPlanet(views[k], sightings[k], minAltitude) && fresh(views[k].card) && views[k].card.State() == Unscored
      ensures DistinctCards(PlanetCards(views))
    {
      Ephemeris.EarthIsKnown();
      var earthPos := position(Ephemeris.HeliocentricElements("earth", utcTime).value);
      views := [];
      for i := 0 to |planets|
        invariant var sightings := Sightings(planets[..i], Lookup(utcTime), earthPos, position, equatorial, altAz);
          |views| == |sightings| &&
          forall k :: 0 <= k < |views| ==>
            ShowsPlanet(views[k], sightings[k], minAltitude) && fresh(views[k].card) && views[k].card.State() == Unscored
        invariant DistinctCards(PlanetCards(views))
      {
        var planet := planets[i];
        var elements := Ephemeris.HeliocentricElements(planet.name, utcTime);
        views := AddView(views, Sightings(planets[..i], Lookup(utcTime), earthPos, position, equatorial, altAz),
                         planet, elements, earthPos, position, equatorial, altAz);
        SightingsStep(planets, i, Lookup(utcTime), earthPos, position, equatorial, altAz);
      }
      assert planets[..|planets|] == planets;
    }

    /** The loop body of `GetPlanetViews` for one planet, given what the
        position service answered for it: the views so far with the
        planet's view added, or unchanged when the service threw (the
        `catch (ArgumentException)` and `continue`). */
    method AddView(views: seq<PlanetView>, ghost sightings: seq<Sighting>, planet: PlanetObject,
                   found: Result<Ephemeris.CurrentElements, Exception>, earthPos: Vector3,
                   position: Ephemeris.CurrentElements -> Vector3, equatorial: Vector3 -> (real, real),
                   altAz: (real, real) -> (real, real))
      returns (result: seq<PlanetView>)
      requires |views| == |sightings| && DistinctCards(PlanetCards(views))
      requires forall k :: 0 <= k < |views| ==> ShowsPlanet(views[k], sightings[k], minAltitude)
      ensures var next := sightings + SightingFrom(planet, found, earthPos, position, equatorial, altAz);
        |result| == |next| && DistinctCards(PlanetCards(result)) &&
        (forall k :: 0 <= k < |views| ==> result[k] == views[k]) &&
        (forall k :: |views| <= k < |result| ==> fresh(result[k].card) && result[k].card.State() == Unscored) &&
        forall k :: 0 <= k < |result| ==> ShowsPlanet(result[k], next[k], minAltitude)
    {
      if found.Err? {
        return views;
      }
      var planetPos := position(found.value);
      // geocentric: the planet's position less Earth's, coordinate by coordinate
      var geocentric := Minus(planetPos, earthPos);
      var radec := equatorial(geocentric);
      var ra, dec := radec.0, radec.1;
      var horizontal := altAz(ra / 15.0, dec);
      var alt, az := horizontal.0, horizontal.1;
      var visible := alt >= minAltitude;
      var view := new PlanetView(planet, alt, az, visible, geocentric, ra, dec);
      result := views + [view];
    }

    /** The loop body of `GetRecommendedPlanets` for one visible planet: the
        score components, one draw, and the setters of the planet's card. */
    method ScorePlanet(card: ScoreCard, p: PlanetView, pow12: real -> real, log10: real -> real, rng: Random,
                       weatherChance: real, weatherReason: string)
      requires rng.Valid()
      modifies card, rng
      ensures rng.position == old(rng.position) + 1
      ensures card.State() == PlanetState(user, p.planet, pow12, log10, rng.stream(old(rng.position)),
                                          weatherChance, weatherReason)
    {
      var maxScore := 1.5 + 0.4 + 0.9 + 0.4 + 5.0 + 2.0;
      var likedScore := if p.planet.name in user.likedPlanets then 3.0 else 0.0;
      var ringsScore := if p.planet.hasRings then 2.0 else 0.0;
      var tempScore := if -50.0 < p.planet.meanTemperature < 60.0 then 3.0 else 0.0;
      var distanceScore := DistanceScore(p.planet);
      var sunAU := Max(p.distanceFromSun / 149.6, 0.000001);
      var earthAU := Max(p.distanceFromEarth / 149.6, 0.000001);
      var magScoreRaw := 5.0 - (p.magnitude + 5.0 * log10(sunAU * earthAU));
      var magScore := pow12(Max(0.0, Min(magScoreRaw, 5.0)));
      assert magScore == MagnitudeScore(0.0, 0.0, 0.0, pow12, log10);
      var synergyBonus := if likedScore > 0.0 && tempScore > 0.0 then 2.0 else 0.0;
      var randomNudge := rng.NextDouble();
      randomNudge := randomNudge * 0.5;
      var score := 0.5 * likedScore + 0.2 * ringsScore + 0.3 * tempScore + 0.2 * distanceScore +
                   1.0 * magScore + synergyBonus + randomNudge;
      assert score == RawScore(user, p.planet, pow12, log10, rng.stream(old(rng.position)));
      // Score, MatchPercentage, VisibilityChance and ChanceReason
      Boosting.SetState(card, Rated(score, maxScore, weatherChance, weatherReason));
    }

    /** The scoring loop over the visible views, one draw each. */
    method ScoreVisible(visible: seq<PlanetView>, pow12: real -> real, log10: real -> real, rng: Random,
                        weatherChance: real, weatherReason: string)
      requires rng.Valid() && DistinctCards(PlanetCards(visible))
      modifies rng, PlanetCards(visible)
      ensures rng.position == old(rng.position) + |visible|
      ensures States(PlanetCards(visible)) ==
        ScoredStates(user, ViewedPlanets(visible), pow12, log10, rng.stream, old(rng.position), weatherChance, weatherReason)
    {
      ghost var start := rng.position;
      ghost var target := ScoredStates(user, ViewedPlanets(visible), pow12, log10, rng.stream, start,
                                       weatherChance, weatherReason);
      ghost var cards := PlanetCards(visible);
      for i := 0 to |visible|
        invariant rng.position == start + i
        invariant forall k :: 0 <= k < i ==> cards[k].State() == target[k]
      {
        assert target[i] == PlanetState(user, visible[i].planet, pow12, log10, rng.stream(start + i),
                                        weatherChance, weatherReason);
        ScorePlanet(visible[i].card, visible[i], pow12, log10, rng, weatherChance, weatherReason);
      }
    }

    /** `GetRecommendedPlanets`: score the visible planets in place and
        return them highest score first. `weatherChance` and `weatherReason`
        are the weather verdict of the call. */
    method GetRecommendedPlanets(planets: seq<PlanetObject>, utcTime: Ephemeris.DateTime,
                                 position: Ephemeris.CurrentElements -> Vector3, equatorial: Vector3 -> (real, real),
                                 altAz: (real, real) -> (real, real), pow12: real -> real, log10: real -> real,
                                 rng: Random, weatherChance: real, weatherReason: string)
      returns (r: seq<PlanetView>)
      requires rng.Valid()
      modifies rng
      ensures var vis := VisibleSightings(Sightings(planets, Lookup(utcTime), EarthPosition(utcTime, position),
                                                    position, equatorial, altAz), minAltitude);
        var states := ScoredStates(user, PlanetsOf(vis), pow12, log10, rng.stream, old(rng.position),
                                   weatherChance, weatherReason);
        var order := OrderDescending(Scores(states));
        rng.position == old(rng.position) + |vis| && |r| == |vis| &&
        (forall k :: 0 <= k < |r| ==> ShowsPlanet(r[k], vis[order[k]], minAltitude) && fresh(r[k].card)) &&
        States(PlanetCards(r)) == RankedStates(states)
    {
      var visible := VisiblePlanetViews(planets, utcTime, position, equatorial, altAz);
      ghost var vis := VisibleSightings(Sightings(planets, Lookup(utcTime), EarthPosition(utcTime, position),
                                                  position, equatorial, altAz), minAltitude);
      ghost var states := ScoredStates(user, PlanetsOf(vis), pow12, log10, rng.stream, rng.position,
                                       weatherChance, weatherReason);
      ScoreVisible(visible, pow12, log10, rng, weatherChance, weatherReason);
      r := RankByScore(visible, vis, states);
    }

    /** `GetPlanetViews(planets, utcTime).Where(p => p.IsVisible)`. */
    method VisiblePlanetViews(planets: seq<PlanetObject>, utcTime: Ephemeris.DateTime,
                              position: Ephemeris.CurrentElements -> Vector3, equatorial: Vector3 -> (real, real),
                              altAz: (real, real) -> (real, real))
      returns (visible: seq<PlanetView>)
      ensures var vis := VisibleSightings(Sightings(planets, Lookup(utcTime), EarthPosition(utcTime, position),
                                                    position, equatorial, altAz), minAltitude);
        |visible| == |vis| && ViewedPlanets(visible) == PlanetsOf(vis) &&
        forall k :: 0 <= k < |visible| ==>
          ShowsPlanet(visible[k], vis[k], minAltitude) && fresh(visible[k].card) && visible[k].card.State() == Unscored
      ensures DistinctCards(PlanetCards(visible))
    {
      var views := GetPlanetViews(planets, utcTime, position, equatorial, altAz);
      ghost var sightings := Sightings(planets, Lookup(utcTime), EarthPosition(utcTime, position), position, equatorial, altAz);
      var flags := seq(|views|, i requires 0 <= i < |views| => views[i].isVisible);
      assert flags == seq(|sightings|, i requires 0 <= i < |sightings| => sightings[i].altitude >= minAltitude);
      var ids := Where(flags);
      visible := Pick(views, ids);
      assert PlanetCards(visible) == Pick(PlanetCards(views), ids);
      PickDistinctCards(PlanetCards(views), ids);
    }

    /** `OrderByDescending(p => p.Score)` over the scored views of the
        visible sightings `vis`. */
    method RankByScore(visible: seq<PlanetView>, ghost vis: seq<Sighting>, ghost states: seq<CardState>)
      returns (ranked: seq<PlanetView>)
      requires |visible| == |vis| && States(PlanetCards(visible)) == states
      requires forall k :: 0 <= k < |visible| ==> ShowsPlanet(visible[k], vis[k], minAltitude)
      ensures var order := OrderDescending(Scores(states));
        |ranked| == |vis| &&
        (forall k :: 0 <= k < |ranked| ==>
          ranked[k] == visible[order[k]] && ShowsPlanet(ranked[k], vis[order[k]], minAltitude)) &&
        States(PlanetCards(ranked)) == RankedStates(states)
    {
      var order := OrderDescending(Scores(States(PlanetCards(visible))));
      ranked := Pick(visible, order);
      assert PlanetCards(ranked) == Pick(PlanetCards(visible), order);
      StatesOfPick(PlanetCards(visible), order);
    }
  }
}
