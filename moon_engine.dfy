/** `Layer1_Moon_Engine` of the stand-alone engine: a moon is placed only
    when its parent planet is in the list of planet views handed in; its
    position comes from its own orbital elements around that parent (mean
    anomaly at the date, Kepler's equation, the parent's geocentric
    position), and it is visible when it stands high enough and its parent
    is visible. Every visible moon is scored from the user's likes, whether
    its composition and surface are described, its distance from Earth and
    its magnitude, plus a random nudge, and the visible moons are returned
    highest score first. Sine, cosine, square root, `Math.Pow(x, 1.2)`, the
    rotation of the orbit into the ecliptic frame, the equatorial
    conversion, the observer's altitude and azimuth, the weather verdict and
    the random draws are inputs. */
module MoonEngine {
  import opened Wrappers
  import opened Numerics
  import opened Sorting
  import opened Views
  import opened RandomSource
  import opened Layer1
  import Boosting
  import Ephemeris
  import Text

  /** `maxScore`: 0.3 + 1.0 + 0.4 + 0.4 + 0.9 + 1.5 + 1.0. */
  const MaxScore: real := 5.5

  /** `Math.PI`. */
  const Pi: real := 3.141592653589793

  /** `2 * Math.PI`, which doubles exactly. */
  const TwoPi: real := 6.283185307179586

  /** The default tolerance of `SolveKeplerEquation`, `1e-8`. */
  const KeplerTolerance: real := 0.00000001

  /** The functions of the sky the engine relies on. `orbitOffset` is the
      moon's position relative to its parent, in AU, from its elements and
      the eccentric anomaly (true anomaly, distance, and the rotation by
      node, inclination and argument of periapsis); `equatorial` is the
      rotation by the J2000 obliquity 23.43928 degrees to right ascension
      and declination in degrees, the same conversion as the position
      service's `ConvertToEquatorial`; `altAz` is the observer's altitude
      and azimuth for a right ascension in hours and a declination. */
  datatype Sky = Sky(
    sqrt: real -> real,
    sin: real -> real,
    cos: real -> real,
    orbitOffset: (MoonObject, real) -> Vector3,
    equatorial: Vector3 -> (real, real),
    altAz: (real, real) -> (real, real))

  /** Where a moon with a listed parent stands at the time of the call. */
  datatype MoonSighting = MoonSighting(
    moon: MoonObject,
    parent: PlanetView,
    altitude: real,
    azimuth: real,
    visible: bool)

  /** `visiblePlanets.FirstOrDefault(p => string.Equals(p.Planet.Name,
      parent, StringComparison.OrdinalIgnoreCase))`, as a position: the
      first planet view whose name matches in any case, or none. */
  function ParentIndex(planets: seq<PlanetView>, parent: string): (r: Option<nat>)
    ensures r.Some? ==> r.value < |planets|
  {
    if |planets| == 0 then None
    else if Text.EqualsIgnoreCase(planets[0].planet.name, parent) then Some(0)
    else
      match ParentIndex(planets[1..], parent)
      case None => None
      case Some(j) => Some(j + 1)
  }

  /** The parent found is the first planet view whose name matches the
      moon's parent in any case, and none is found exactly when no name
      matches. */
  lemma {:induction false} ParentIndexSpec(planets: seq<PlanetView>, parent: string)
    ensures var r := ParentIndex(planets, parent);
      (r.Some? ==>
        Text.EqualsIgnoreCase(planets[r.value].planet.name, parent) &&
        (forall j :: 0 <= j < r.value ==> !Text.EqualsIgnoreCase(planets[j].planet.name, parent))) &&
      (r.None? <==> forall j :: 0 <= j < |planets| ==> !Text.EqualsIgnoreCase(planets[j].planet.name, parent))
  {
    if |planets| > 0 && !Text.EqualsIgnoreCase(planets[0].planet.name, parent) {
      var rest := planets[1..];
      ParentIndexSpec(rest, parent);
      assert forall j :: 0 < j < |planets| ==> planets[j] == rest[j - 1];
    }
  }

  /** The mean motion `n` in radians per day: the catalogue's mean motion
      in degrees per day when positive, else `2 * PI / OrbitalPeriod` when
      the period is positive, else the period estimated from Kepler's third
      law against the Earth-Moon system,
      `Math.Sqrt(Math.Pow(SemiMajorAxisKm / 384400, 3)) * 27.3` days. */
  function MeanMotion(moon: MoonObject, sqrt: real -> real): real {
    if moon.meanMotion > 0.0 then moon.meanMotion * Pi / 180.0
    else if moon.orbitalPeriod > 0.0 then TwoPi / moon.orbitalPeriod
    else
      var ratio := moon.semiMajorAxisKm / 384400.0;
      var periodDays := sqrt(ratio * ratio * ratio) * 27.3;
      if periodDays != 0.0 then TwoPi / periodDays else 0.0
  }

  /** The mean motion turns the catalogue's degrees per day into radians
      per day, makes one revolution per orbital period, and in the fallback
      gives a period whose square grows as the cube of the semi-major axis,
      27.3 days at 384400 km. */
  lemma MeanMotionSpec(moon: MoonObject, sqrt: real -> real)
    requires IsSqrt(sqrt)
    ensures moon.meanMotion > 0.0 ==> MeanMotion(moon, sqrt) * 180.0 == moon.meanMotion * Pi
    ensures moon.meanMotion <= 0.0 && moon.orbitalPeriod > 0.0 ==>
      MeanMotion(moon, sqrt) * moon.orbitalPeriod == TwoPi
    ensures moon.meanMotion <= 0.0 && moon.orbitalPeriod <= 0.0 && moon.semiMajorAxisKm > 0.0 ==>
      var ratio := moon.semiMajorAxisKm / 384400.0;
      var n := MeanMotion(moon, sqrt);
      n > 0.0 && Square(TwoPi / n) == 27.3 * 27.3 * (ratio * ratio * ratio)
  {
    if moon.meanMotion <= 0.0 && moon.orbitalPeriod > 0.0 {
      assert TwoPi / moon.orbitalPeriod * moon.orbitalPeriod == TwoPi;
    }
    if moon.meanMotion <= 0.0 && moon.orbitalPeriod <= 0.0 && moon.semiMajorAxisKm > 0.0 {
      var ratio := moon.semiMajorAxisKm / 384400.0;
      var cube := ratio * ratio * ratio;
      assert ratio > 0.0;
      MulNonNegative(ratio, ratio);
      assert cube > 0.0 by { assert ratio * ratio > 0.0; }
      var s := sqrt(cube);
      assert s >= 0.0 && s * s == cube;
      assert s > 0.0;
      var period := s * 27.3;
      assert period > 0.0;
      var n := TwoPi / period;
      assert n == MeanMotion(moon, sqrt);
      assert TwoPi / n == period;
      assert Square(period) == 27.3 * 27.3 * (s * s);
    }
  }

  /** A whole number of revolutions. */
  predicate WholeRevolutions(d: real) {
    (d / TwoPi).Floor as real == d / TwoPi
  }

  /** C#'s `x % (2 * Math.PI)` on doubles: the remainder of the quotient
      truncated toward zero, carrying the sign of `x`. */
  function RemainderTurn(x: real): real {
    x - TwoPi * Truncate(x / TwoPi) as real
  }

  /** The remainder carries the sign of `x`, is smaller than a revolution,
      and differs from `x` by whole revolutions. */
  lemma RemainderTurnSpec(x: real)
    ensures x >= 0.0 ==> 0.0 <= RemainderTurn(x) < TwoPi
    ensures x < 0.0 ==> -TwoPi < RemainderTurn(x) <= 0.0
    ensures WholeRevolutions(x - RemainderTurn(x))
  {
    var q := Truncate(x / TwoPi);
    assert x >= 0.0 ==> q as real <= x / TwoPi < q as real + 1.0;
    assert x < 0.0 ==> q as real - 1.0 < x / TwoPi <= q as real;
    assert x - RemainderTurn(x) == TwoPi * q as real;
    assert TwoPi * q as real / TwoPi == q as real;
  }

  /** The mean anomaly normalised the way the engine does it: the
      remainder, plus `2 * PI` when it is negative. */
  function NormalizeRadians(x: real): real {
    var m := RemainderTurn(x);
    if m < 0.0 then m + TwoPi else m
  }

  /** The normalised angle lies in [0, 2 PI), differs from `x` by whole
      revolutions, and is `x` itself when that already lies in range. */
  lemma NormalizeRadiansSpec(x: real)
    ensures 0.0 <= NormalizeRadians(x) < TwoPi
    ensures WholeRevolutions(x - NormalizeRadians(x))
    ensures 0.0 <= x < TwoPi ==> NormalizeRadians(x) == x
  {
    RemainderTurnSpec(x);
    var m := RemainderTurn(x);
    if m < 0.0 {
      var k := ((x - m) / TwoPi).Floor;
      assert (x - (m + TwoPi)) / TwoPi == (k - 1) as real;
    }
    if 0.0 <= x < TwoPi {
      assert Truncate(x / TwoPi) == 0;
    }
  }

  /** The current mean anomaly `M0 + n * (jd - 2451545)` in radians,
      before normalisation. */
  function AdvancedAnomaly(moon: MoonObject, jd: real, sqrt: real -> real): real {
    moon.meanAnomalyAtEpoch * Pi / 180.0 + MeanMotion(moon, sqrt) * (jd - 2451545.0)
  }

  /** The current mean anomaly `M`, normalised. */
  function MeanAnomaly(moon: MoonObject, jd: real, sqrt: real -> real): real {
    NormalizeRadians(AdvancedAnomaly(moon, jd, sqrt))
  }

  /** The mean anomaly lies in [0, 2 PI) and differs from the
      unnormalised one by whole revolutions. */
  lemma MeanAnomalySpec(moon: MoonObject, jd: real, sqrt: real -> real)
    ensures var r := MeanAnomaly(moon, jd, sqrt);
      0.0 <= r < TwoPi &&
      WholeRevolutions(AdvancedAnomaly(moon, jd, sqrt) - r)
  {
    NormalizeRadiansSpec(AdvancedAnomaly(moon, jd, sqrt));
  }

  /** At the J2000 epoch the mean anomaly is the catalogue's mean anomaly
      at epoch, converted to radians, when that lies in [0, 360). */
  lemma EpochMeanAnomaly(moon: MoonObject, sqrt: real -> real)
    requires 0.0 <= moon.meanAnomalyAtEpoch < 360.0
    ensures MeanAnomaly(moon, 2451545.0, sqrt) == moon.meanAnomalyAtEpoch * Pi / 180.0
  {
    var m0 := moon.meanAnomalyAtEpoch * Pi / 180.0;
    assert AdvancedAnomaly(moon, 2451545.0, sqrt) == m0;
    assert 0.0 <= m0 < TwoPi;
    NormalizeRadiansSpec(m0);
  }

  /** The Newton correction `(E - e sin E - M) / (1 - e cos E)` that
      `SolveKeplerEquation` subtracts at each step; 0 where the slope
      vanishes. */
  function KeplerCorrection(m: real, e: real, sin: real -> real, cos: real -> real): real -> real {
    bigE =>
      var slope := 1.0 - e * cos(bigE);
      if slope != 0.0 then (bigE - e * sin(bigE) - m) / slope else 0.0
  }

  /** On a circular orbit the eccentric anomaly is the mean anomaly: the
      first correction is 0 and the iteration stops there. */
  lemma CircularOrbit(m: real, sin: real -> real, cos: real -> real)
    ensures Ephemeris.KeplerSolution(m, KeplerCorrection(m, 0.0, sin, cos), KeplerTolerance) == m
  {
    assert KeplerCorrection(m, 0.0, sin, cos)(m) == 0.0;
    Ephemeris.FirstStepConverges(m, KeplerCorrection(m, 0.0, sin, cos), KeplerTolerance);
  }

  function Plus(p: Vector3, q: Vector3): Vector3 {
    Vector3(p.x + q.x, p.y + q.y, p.z + q.z)
  }

  /** `CalculateMoonPosition`: right ascension and declination in degrees
      of the moon's geocentric position, its parent's geocentric position
      plus its offset from the parent at the eccentric anomaly solved from
      the current mean anomaly. */
  function MoonRaDec(moon: MoonObject, parentGeocentric: Vector3, utcTime: Ephemeris.DateTime, sky: Sky): (real, real) {
    var m := MeanAnomaly(moon, Ephemeris.JulianDate(utcTime), sky.sqrt);
    var bigE := Ephemeris.KeplerSolution(m, KeplerCorrection(m, moon.eccentricity, sky.sin, sky.cos), KeplerTolerance);
    sky.equatorial(Plus(parentGeocentric, sky.orbitOffset(moon, bigE)))
  }

  /** The altitude and azimuth of a moon whose parent stands at
      `parentGeocentric`, its right ascension passed in hours. */
  function Horizontal(moon: MoonObject, parentGeocentric: Vector3, utcTime: Ephemeris.DateTime, sky: Sky): (real, real) {
    var radec := MoonRaDec(moon, parentGeocentric, utcTime, sky);
    sky.altAz(radec.0 / 15.0, radec.1)
  }

  /** Where a moon stands at `utcTime`, given where its parent stands. */
  function Place(utcTime: Ephemeris.DateTime, sky: Sky): (MoonObject, Vector3) -> (real, real) {
    (moon, parentGeocentric) => Horizontal(moon, parentGeocentric, utcTime, sky)
  }

  /** A moon of planet view `parent` placed by `place`, and whether it is
      visible: high enough and with its parent visible. */
  function SightMoon(moon: MoonObject, parent: PlanetView, place: (MoonObject, Vector3) -> (real, real),
                     minAltitude: real): MoonSighting
  {
    var horizontal := place(moon, parent.geocentric);
    MoonSighting(moon, parent, horizontal.0, horizontal.1, horizontal.0 >= minAltitude && parent.isVisible)
  }

  /** The sighting of one moon, or none when its parent is not listed. */
  function MoonSightingOf(moon: MoonObject, planets: seq<PlanetView>, place: (MoonObject, Vector3) -> (real, real),
                          minAltitude: real): (r: seq<MoonSighting>)
    ensures |r| <= 1
  {
    SightingFrom(moon, ParentIndex(planets, moon.parent), planets, place, minAltitude)
  }

  /** The sighting of one moon given the position of its parent among the
      planet views, or none when the parent was not found. */
  function SightingFrom(moon: MoonObject, found: Option<nat>, planets: seq<PlanetView>,
                        place: (MoonObject, Vector3) -> (real, real), minAltitude: real): (r: seq<MoonSighting>)
    requires found.Some? ==> found.value < |planets|
    ensures |r| <= 1
  {
    match found
    case None => []
    case Some(j) => [SightMoon(moon, planets[j], place, minAltitude)]
  }

  /** The sightings `GetMoonViews` turns into views, in catalogue order. */
  function MoonSightings(moons: seq<MoonObject>, planets: seq<PlanetView>, place: (MoonObject, Vector3) -> (real, real),
                         minAltitude: real): (r: seq<MoonSighting>)
    ensures |r| <= |moons|
  {
    if |moons| == 0 then []
    else
      var last := |moons| - 1;
      MoonSightings(moons[..last], planets, place, minAltitude) +
      MoonSightingOf(moons[last], planets, place, minAltitude)
  }

  /** One more moon of the catalogue adds its own sighting, if any, at the
      end. */
  lemma MoonSightingsStep(moons: seq<MoonObject>, i: nat, planets: seq<PlanetView>, place: (MoonObject, Vector3) -> (real, real),
                          minAltitude: real)
    requires i < |moons|
    ensures MoonSightings(moons[..i + 1], planets, place, minAltitude) ==
      MoonSightings(moons[..i], planets, place, minAltitude) +
      MoonSightingOf(moons[i], planets, place, minAltitude)
  {
    assert moons[..i + 1][..i] == moons[..i];
  }

  /** Every sighting is of a catalogue moon whose parent is listed, made
      against the first listed planet of the parent's name, and is visible
      exactly when the moon is at or above the minimum altitude and its
      parent is visible. */
  lemma {:induction false} MoonSightingsSound(moons: seq<MoonObject>, planets: seq<PlanetView>,
                                              place: (MoonObject, Vector3) -> (real, real), minAltitude: real)
    ensures forall s :: s in MoonSightings(moons, planets, place, minAltitude) ==>
      s.moon in moons && ParentIndex(planets, s.moon.parent).Some? &&
      s.parent == planets[ParentIndex(planets, s.moon.parent).value] &&
      (s.visible <==> s.altitude >= minAltitude && s.parent.isVisible)
  {
    if |moons| > 0 {
      var last := |moons| - 1;
      var prefix := moons[..last];
      MoonSightingsSound(prefix, planets, place, minAltitude);
      var front := MoonSightings(prefix, planets, place, minAltitude);
      var tail := MoonSightingOf(moons[last], planets, place, minAltitude);
      var r := front + tail;
      assert MoonSightings(moons, planets, place, minAltitude) == r;
      forall s | s in r
        ensures s.moon in moons && ParentIndex(planets, s.moon.parent).Some? &&
          s.parent == planets[ParentIndex(planets, s.moon.parent).value] &&
          (s.visible <==> s.altitude >= minAltitude && s.parent.isVisible)
      {
        if s in front {
          assert s.moon in prefix;
        } else {
          assert s == tail[0];
        }
      }
    }
  }

  /** Every catalogue moon whose parent is listed is sighted, and with all
      parents listed no moon is skipped. */
  lemma {:induction false} MoonSightingsComplete(moons: seq<MoonObject>, planets: seq<PlanetView>,
                                                 place: (MoonObject, Vector3) -> (real, real), minAltitude: real)
    ensures var r := MoonSightings(moons, planets, place, minAltitude);
      (forall i :: 0 <= i < |moons| && ParentIndex(planets, moons[i].parent).Some? ==>
        exists k :: 0 <= k < |r| && r[k].moon == moons[i]) &&
      ((forall i :: 0 <= i < |moons| ==> ParentIndex(planets, moons[i].parent).Some?) ==> |r| == |moons|)
  {
    if |moons| > 0 {
      var last := |moons| - 1;
      var prefix := moons[..last];
      MoonSightingsComplete(prefix, planets, place, minAltitude);
      var front := MoonSightings(prefix, planets, place, minAltitude);
      var tail := MoonSightingOf(moons[last], planets, place, minAltitude);
      var r := front + tail;
      assert MoonSightings(moons, planets, place, minAltitude) == r;
      forall i | 0 <= i < |moons| && ParentIndex(planets, moons[i].parent).Some?
        ensures exists k :: 0 <= k < |r| && r[k].moon == moons[i]
      {
        if i < last {
          assert moons[i] == prefix[i];
          var k :| 0 <= k < |front| && front[k].moon == prefix[i];
          assert r[k] == front[k];
        } else {
          assert r[|front|] == tail[0];
        }
      }
      if forall i :: 0 <= i < |moons| ==> ParentIndex(planets, moons[i].parent).Some? {
        assert forall i :: 0 <= i < |prefix| ==> prefix[i] == moons[i];
        assert ParentIndex(planets, moons[last].parent).Some?;
      }
    }
  }

  /** With no visible planet among those handed in, no moon is visible. */
  lemma NoVisibleParentNoMoon(moons: seq<MoonObject>, planets: seq<PlanetView>,
                              place: (MoonObject, Vector3) -> (real, real), minAltitude: real)
    requires forall j :: 0 <= j < |planets| ==> !planets[j].isVisible
    ensures forall s :: s in MoonSightings(moons, planets, place, minAltitude) ==> !s.visible
  {
    MoonSightingsSound(moons, planets, place, minAltitude);
  }

  /** A view of `s` as `GetMoonViews` builds it. */
  predicate ShowsMoon(v: MoonView, s: MoonSighting) {
    v.moon == s.moon && v.id == s.moon.id && v.parent == s.moon.parent &&
    v.altitude == s.altitude && v.azimuth == s.azimuth && v.isVisible == s.visible
  }

  /** 1 point when the user likes the parent planet (`Contains`, so the
      exact spelling). */
  function LikedParentScore(user: User, moon: MoonObject): real {
    if moon.parent in user.likedPlanets then 1.0 else 0.0
  }

  /** 2 points when the user likes the moon. */
  function LikedMoonScore(user: User, moon: MoonObject): real {
    if moon.name in user.likedMoons then 2.0 else 0.0
  }

  /** 2 points for a described composition or surface. */
  function DescribedScore(text: string): real {
    if text != "" then 2.0 else 0.0
  }

  /** `Math.Min(3, Math.Pow(1000 / (DistanceFromEarth + 1), 1.2))` for a
      positive distance, else 0. */
  function DistanceScore(moon: MoonObject, pow12: real -> real): real {
    if moon.distanceFromEarth > 0.0 then Min(3.0, pow12(1000.0 / (moon.distanceFromEarth + 1.0))) else 0.0
  }

  /** `Math.Max(0, Math.Min(2, Math.Pow(2 - Magnitude / 10, 1.2)))` for a
      positive magnitude, else 0. */
  function MagnitudeScore(moon: MoonObject, pow12: real -> real): real {
    if moon.magnitude > 0.0 then Max(0.0, Min(2.0, pow12(2.0 - moon.magnitude / 10.0))) else 0.0
  }

  /** 1 extra point when both the moon and its parent are liked. */
  function SynergyBonus(likedParent: real, likedMoon: real): real {
    if likedParent > 0.0 && likedMoon > 0.0 then 1.0 else 0.0
  }

  /** The weighted sum, with the nudge `draw * 0.3`. */
  function RawScore(user: User, moon: MoonObject, pow12: real -> real, draw: real): real {
    var likedParent := LikedParentScore(user, moon);
    var likedMoon := LikedMoonScore(user, moon);
    0.3 * likedParent + 0.5 * likedMoon + 0.2 * DescribedScore(moon.composition) +
    0.2 * DescribedScore(moon.surfaceFeatures) + 0.3 * DistanceScore(moon, pow12) +
    0.75 * MagnitudeScore(moon, pow12) + SynergyBonus(likedParent, likedMoon) + draw * 0.3
  }

  /** The distance term lies in [0, 3], the magnitude term in [0, 2] and
      the nudge in [0, 0.3); without the nudge the score lies between 0 and
      `maxScore`, which it reaches for a liked, described moon of a liked
      parent when both capped terms are at their caps. */
  lemma ScoreComponents(user: User, moon: MoonObject, pow12: real -> real, draw: real)
    requires IsPower(pow12) && 0.0 <= draw < 1.0
    ensures 0.0 <= DistanceScore(moon, pow12) <= 3.0
    ensures 0.0 <= MagnitudeScore(moon, pow12) <= 2.0
    ensures 0.0 <= draw * 0.3 < 0.3
    ensures 0.0 <= RawScore(user, moon, pow12, draw) - draw * 0.3 <= MaxScore
    ensures moon.parent in user.likedPlanets && moon.name in user.likedMoons &&
            moon.composition != "" && moon.surfaceFeatures != "" &&
            DistanceScore(moon, pow12) == 3.0 && MagnitudeScore(moon, pow12) == 2.0 ==>
            RawScore(user, moon, pow12, draw) - draw * 0.3 == MaxScore
  {
    if moon.distanceFromEarth > 0.0 {
      DivNonNegative(1000.0, moon.distanceFromEarth + 1.0);
    }
  }

  /** Of two moons at positive distances, the closer scores at least as
      high on distance. */
  lemma CloserScoresHigher(near: MoonObject, far: MoonObject, pow12: real -> real)
    requires IsPower(pow12)
    requires 0.0 < near.distanceFromEarth <= far.distanceFromEarth
    ensures DistanceScore(near, pow12) >= DistanceScore(far, pow12)
  {
    DivAntitone(1000.0, near.distanceFromEarth + 1.0, far.distanceFromEarth + 1.0);
    DivNonNegative(1000.0, far.distanceFromEarth + 1.0);
  }

  /** Of two moons with magnitudes in (0, 20], the brighter (lower
      magnitude) scores at least as high on magnitude. */
  lemma BrighterScoresHigher(bright: MoonObject, faint: MoonObject, pow12: real -> real)
    requires IsPower(pow12)
    requires 0.0 < bright.magnitude <= faint.magnitude <= 20.0
    ensures MagnitudeScore(bright, pow12) >= MagnitudeScore(faint, pow12)
  {
    assert 0.0 <= 2.0 - faint.magnitude / 10.0 <= 2.0 - bright.magnitude / 10.0;
  }

  /** Liking both a moon and its parent adds 2.3 points to its score: 0.3
      for the parent, 1.0 for the moon and 1 for the synergy. */
  lemma LikeLifts(user: User, moon: MoonObject, pow12: real -> real, draw: real)
    ensures RawScore(user.(likedPlanets := user.likedPlanets + [moon.parent], likedMoons := user.likedMoons + [moon.name]),
                     moon, pow12, draw)
            == RawScore(user.(likedPlanets := [], likedMoons := []), moon, pow12, draw) + 2.3
  {
    assert moon.parent in user.likedPlanets + [moon.parent];
    assert moon.name in user.likedMoons + [moon.name];
  }

  /** The card of a visible moon. */
  function MoonState(user: User, moon: MoonObject, pow12: real -> real, draw: real,
                     chance: real, reason: string): CardState
  {
    Rated(RawScore(user, moon, pow12, draw), MaxScore, chance, reason)
  }

  /** `moonViews.Where(m => m.IsVisible)`, as the sightings behind the
      views. */
  function VisibleMoonSightings(sightings: seq<MoonSighting>): (r: seq<MoonSighting>) {
    Pick(sightings, Where(seq(|sightings|, i requires 0 <= i < |sightings| => sightings[i].visible)))
  }

  /** Exactly the visible sightings are kept. */
  lemma VisibleMoonSightingsSpec(sightings: seq<MoonSighting>)
    ensures forall k :: 0 <= k < |VisibleMoonSightings(sightings)| ==> VisibleMoonSightings(sightings)[k].visible
    ensures forall i :: 0 <= i < |sightings| && sightings[i].visible ==> sightings[i] in VisibleMoonSightings(sightings)
  {
    var flags := seq(|sightings|, i requires 0 <= i < |sightings| => sightings[i].visible);
    var ids := Where(flags);
    forall i | 0 <= i < |sightings| && sightings[i].visible
      ensures sightings[i] in VisibleMoonSightings(sightings)
    {
      assert flags[i];
      var k :| 0 <= k < |ids| && ids[k] == i;
      assert VisibleMoonSightings(sightings)[k] == sightings[i];
    }
  }

  /** The moons behind a list of sightings. */
  function MoonsOf(sightings: seq<MoonSighting>): (r: seq<MoonObject>)
    ensures |r| == |sightings| && forall i :: 0 <= i < |sightings| ==> r[i] == sightings[i].moon
  {
    seq(|sightings|, i requires 0 <= i < |sightings| => sightings[i].moon)
  }

  /** The moons behind a list of views. */
  function ViewedMoons(views: seq<MoonView>): (r: seq<MoonObject>)
    ensures |r| == |views| && forall i :: 0 <= i < |views| ==> r[i] == views[i].moon
  {
    seq(|views|, i requires 0 <= i < |views| => views[i].moon)
  }

  /** The cards the scoring loop writes, visible moon `k` taking draw
      `start + k`. */
  function ScoredStates(user: User, vis: seq<MoonObject>, pow12: real -> real, stream: nat -> real, start: nat,
                        chance: real, reason: string): (r: seq<CardState>)
    ensures |r| == |vis|
  {
    seq(|vis|, k requires 0 <= k < |vis| => MoonState(user, vis[k], pow12, stream(start + k), chance, reason))
  }

  /** The returned cards come highest score first; each has a score that
      is not negative, a match percentage in [0, 100], and the one weather
      chance and reason of the call. */
  lemma RecommendedMoonsSpec(user: User, vis: seq<MoonObject>, pow12: real -> real, stream: nat -> real, start: nat,
                             chance: real, reason: string)
    requires IsPower(pow12) && IsUnitStream(stream)
    ensures var ranked := RankedStates(ScoredStates(user, vis, pow12, stream, start, chance, reason));
      NonIncreasing(Scores(ranked)) &&
      multiset(ranked) == multiset(ScoredStates(user, vis, pow12, stream, start, chance, reason)) &&
      forall k :: 0 <= k < |ranked| ==>
        0.0 <= ranked[k].matchPercentage <= 100.0 && ranked[k].score >= 0.0 &&
        ranked[k].visibilityChance == Round2(chance) && ranked[k].chanceReason == reason
  {
    var states := ScoredStates(user, vis, pow12, stream, start, chance, reason);
    RankedStatesSpec(states);
    var order := OrderDescending(Scores(states));
    forall k | 0 <= k < |states|
      ensures 0.0 <= RankedStates(states)[k].matchPercentage <= 100.0 && RankedStates(states)[k].score >= 0.0
    {
      var j := order[k];
      assert RankedStates(states)[k] == states[j];
      ScoreComponents(user, vis[j], pow12, stream(start + j));
    }
  }

  class Engine {
    const user: User
    const minAltitude: real

    /** `Layer1_Moon_Engine(user, minAlt)`; `minAlt` defaults to
        `DefaultMinAltitude`. */
    constructor (user: User, minAlt: real)
      ensures this.user == user && minAltitude == minAlt
    {
      this.user := user;
      minAltitude := minAlt;
    }

    /** `CalculateMoonPosition`: the Julian date, the mean motion, the
        normalised mean anomaly, Kepler's equation, the offset from the
        parent added to the parent's geocentric position, and the
        equatorial conversion. */
    method CalculateMoonPosition(moon: MoonObject, parentPlanet: PlanetView, utcTime: Ephemeris.DateTime, sky: Sky)
      returns (ra: real, dec: real)
      ensures (ra, dec) == MoonRaDec(moon, parentPlanet.geocentric, utcTime, sky)
    {
      var jd := Ephemeris.ToJulianDate(utcTime);
      // the mean anomaly `M0 + n * (jd - 2451545)` in radians, normalised
      var m := MeanAnomaly(moon, jd, sky.sqrt);
      var e := moon.eccentricity;
      var bigE;
      ghost var steps;
      bigE, steps := Ephemeris.SolveKeplerEquation(m, KeplerCorrection(m, e, sky.sin, sky.cos), KeplerTolerance);
      var offset := sky.orbitOffset(moon, bigE);
      var moonGeo := Plus(parentPlanet.geocentric, offset);
      var radec := sky.equatorial(moonGeo);
      ra, dec := radec.0, radec.1;
    }

    /** `GetMoonViews`: one fresh, unscored view per moon whose parent is
        among the planet views handed in, in catalogue order; a moon
        without one is skipped. */
    method GetMoonViews(moons: seq<MoonObject>, visiblePlanets: seq<PlanetView>, utcTime: Ephemeris.DateTime, sky: Sky)
      returns (views: seq<MoonView>)
      ensures var sightings := MoonSightings(moons, visiblePlanets, Place(utcTime, sky), minAltitude);
        |views| == |sightings| &&
        forall k :: 0 <= k < |views| ==>
          ShowsMoon(views[k], sightings[k]) && fresh(views[k].card) && views[k].card.State() == Unscored
      ensures DistinctCards(MoonCards(views))
    {
      views := [];
      ghost var place := Place(utcTime, sky);
      ghost var sightings: seq<MoonSighting> := [];
      for i := 0 to |moons|
        invariant sightings == MoonSightings(moons[..i], visiblePlanets, place, minAltitude)
        invariant |views| == |sightings|
        invariant forall k :: 0 <= k < |views| ==>
          ShowsMoon(views[k], sightings[k]) && fresh(views[k].card) && views[k].card.State() == Unscored
        invariant DistinctCards(MoonCards(views))
      {
        var found := ParentIndex(visiblePlanets, moons[i].parent);
        views := AddView(views, sightings, moons[i], found, visiblePlanets, utcTime, sky);
        MoonSightingsStep(moons, i, visiblePlanets, place, minAltitude);
        sightings := sightings + SightingFrom(moons[i], found, visiblePlanets, place, minAltitude);
      }
      assert moons[..|moons|] == moons;
    }

    /** The loop body of `GetMoonViews` for one moon: the views so far with
        the moon's view added, or unchanged when its parent is not listed. */
    method AddView(views: seq<MoonView>, ghost sightings: seq<MoonSighting>, moon: MoonObject, found: Option<nat>,
                   visiblePlanets: seq<PlanetView>, utcTime: Ephemeris.DateTime, sky: Sky)
      returns (result: seq<MoonView>)
      requires |views| == |sightings| && DistinctCards(MoonCards(views))
      requires forall k :: 0 <= k < |views| ==> ShowsMoon(views[k], sightings[k])
      requires found.Some? ==> found.value < |visiblePlanets|
      ensures var next := sightings + SightingFrom(moon, found, visiblePlanets, Place(utcTime, sky), minAltitude);
        |result| == |next| && DistinctCards(MoonCards(result)) &&
        (forall k :: 0 <= k < |views| ==> result[k] == views[k]) &&
        (forall k :: |views| <= k < |result| ==> fresh(result[k].card) && result[k].card.State() == Unscored) &&
        forall k :: 0 <= k < |result| ==> ShowsMoon(result[k], next[k])
    {
      if found.None? {
        return views;
      }
      var parentPlanet := visiblePlanets[found.value];
      var ra, dec := CalculateMoonPosition(moon, parentPlanet, utcTime, sky);
      var horizontal := sky.altAz(ra / 15.0, dec);
      var alt, az := horizontal.0, horizontal.1;
      var visible := alt >= minAltitude && parentPlanet.isVisible;
      var view := new MoonView(moon, alt, az, visible);
      result := views + [view];
    }

    /** The loop body of `GetRecommendedMoons` for one visible moon: the
        score components, one draw, and the setters of the moon's card. */
    method ScoreMoon(card: ScoreCard, m: MoonView, pow12: real -> real, rng: Random,
                     weatherChance: real, weatherReason: string)
      requires rng.Valid()
      modifies card, rng
      ensures rng.position == old(rng.position) + 1
      ensures card.State() == MoonState(user, m.moon, pow12, rng.stream(old(rng.position)), weatherChance, weatherReason)
    {
      var maxScore := 0.3 + 1.0 + 0.4 + 0.4 + 0.9 + 1.5 + 1.0;
      var likedPlanetScore := if m.moon.parent in user.likedPlanets then 1.0 else 0.0;
      var likedMoonScore := if m.moon.name in user.likedMoons then 2.0 else 0.0;
      var compositionScore := if m.moon.composition != "" then 2.0 else 0.0;
      var surfaceScore := if m.moon.surfaceFeatures != "" then 2.0 else 0.0;
      var distanceScore := 0.0;
      if m.moon.distanceFromEarth > 0.0 {
        distanceScore := Min(3.0, pow12(1000.0 / (m.moon.distanceFromEarth + 1.0)));
      }
      var magScore := 0.0;
      if m.moon.magnitude > 0.0 {
        magScore := Max(0.0, Min(2.0, pow12(2.0 - m.moon.magnitude / 10.0)));
      }
      var synergyBonus := if likedPlanetScore > 0.0 && likedMoonScore > 0.0 then 1.0 else 0.0;
      var randomNudge := rng.NextDouble();
      randomNudge := randomNudge * 0.3;
      var score := 0.3 * likedPlanetScore + 0.5 * likedMoonScore + 0.2 * compositionScore + 0.2 * surfaceScore +
                   0.3 * distanceScore + 0.75 * magScore + synergyBonus + randomNudge;
      assert score == RawScore(user, m.moon, pow12, rng.stream(old(rng.position)));
      // Score, MatchPercentage, VisibilityChance and ChanceReason
      Boosting.SetState(card, Rated(score, maxScore, weatherChance, weatherReason));
    }

    /** The scoring loop over the visible views, one draw each. */
    method ScoreVisible(visible: seq<MoonView>, pow12: real -> real, rng: Random,
                        weatherChance: real, weatherReason: string)
      requires rng.Valid() && DistinctCards(MoonCards(visible))
      modifies rng, MoonCards(visible)
      ensures rng.position == old(rng.position) + |visible|
      ensures States(MoonCards(visible)) ==
        ScoredStates(user, ViewedMoons(visible), pow12, rng.stream, old(rng.position), weatherChance, weatherReason)
    {
      ghost var start := rng.position;
      ghost var target := ScoredStates(user, ViewedMoons(visible), pow12, rng.stream, start, weatherChance, weatherReason);
      ghost var cards := MoonCards(visible);
      for i := 0 to |visible|
        invariant rng.position == start + i
        invariant forall k :: 0 <= k < i ==> cards[k].State() == target[k]
      {
        assert target[i] == MoonState(user, visible[i].moon, pow12, rng.stream(start + i), weatherChance, weatherReason);
        ScoreMoon(visible[i].card, visible[i], pow12, rng, weatherChance, weatherReason);
      }
    }

    /** `GetMoonViews(moons, visiblePlanets, utcTime).Where(m => m.IsVisible)`. */
    method VisibleMoonViews(moons: seq<MoonObject>, visiblePlanets: seq<PlanetView>, utcTime: Ephemeris.DateTime,
                            sky: Sky)
      returns (visible: seq<MoonView>)
      ensures var vis := VisibleMoonSightings(MoonSightings(moons, visiblePlanets, Place(utcTime, sky), minAltitude));
        |visible| == |vis| && ViewedMoons(visible) == MoonsOf(vis) &&
        forall k :: 0 <= k < |visible| ==>
          ShowsMoon(visible[k], vis[k]) && fresh(visible[k].card) && visible[k].card.State() == Unscored
      ensures DistinctCards(MoonCards(visible))
    {
      var views := GetMoonViews(moons, visiblePlanets, utcTime, sky);
      ghost var sightings := MoonSightings(moons, visiblePlanets, Place(utcTime, sky), minAltitude);
      var flags := seq(|views|, i requires 0 <= i < |views| => views[i].isVisible);
      assert flags == seq(|sightings|, i requires 0 <= i < |sightings| => sightings[i].visible);
      var ids := Where(flags);
      visible := Pick(views, ids);
      assert MoonCards(visible) == Pick(MoonCards(views), ids);
      PickDistinctCards(MoonCards(views), ids);
    }

    /** `OrderByDescending(m => m.Score)` over the scored views of the
        visible sightings `vis`. */
    method RankByScore(visible: seq<MoonView>, ghost vis: seq<MoonSighting>, ghost states: seq<CardState>)
      returns (ranked: seq<MoonView>)
      requires |visible| == |vis| && States(MoonCards(visible)) == states
      requires forall k :: 0 <= k < |visible| ==> ShowsMoon(visible[k], vis[k])
      ensures var order := OrderDescending(Scores(states));
        |ranked| == |vis| &&
        (forall k :: 0 <= k < |ranked| ==> ranked[k] == visible[order[k]] && ShowsMoon(ranked[k], vis[order[k]])) &&
        States(MoonCards(ranked)) == RankedStates(states)
    {
      var order := OrderDescending(Scores(States(MoonCards(visible))));
      ranked := Pick(visible, order);
      assert MoonCards(ranked) == Pick(MoonCards(visible), order);
      StatesOfPick(MoonCards(visible), order);
    }

    /** `GetRecommendedMoons`: score the visible moons in place and return
        them highest score first. `weatherChance` and `weatherReason` are
        the weather verdict of the call. */
    method GetRecommendedMoons(moons: seq<MoonObject>, visiblePlanets: seq<PlanetView>, utcTime: Ephemeris.DateTime,
                               sky: Sky, pow12: real -> real, rng: Random, weatherChance: real, weatherReason: string)
      returns (r: seq<MoonView>)
      requires rng.Valid()
      modifies rng
      ensures var vis := VisibleMoonSightings(MoonSightings(moons, visiblePlanets, Place(utcTime, sky), minAltitude));
        var states := ScoredStates(user, MoonsOf(vis), pow12, rng.stream, old(rng.position), weatherChance, weatherReason);
        var order := OrderDescending(Scores(states));
        rng.position == old(rng.position) + |vis| && |r| == |vis| &&
        (forall k :: 0 <= k < |r| ==> ShowsMoon(r[k], vis[order[k]]) && fresh(r[k].card)) &&
        States(MoonCards(r)) == RankedStates(states)
    {
      var visible := VisibleMoonViews(moons, visiblePlanets, utcTime, sky);
      ghost var vis := VisibleMoonSightings(MoonSightings(moons, visiblePlanets, Place(utcTime, sky), minAltitude));
      ghost var states := ScoredStates(user, MoonsOf(vis), pow12, rng.stream, rng.position, weatherChance, weatherReason);
      ScoreVisible(visible, pow12, rng, weatherChance, weatherReason);
      r := RankByScore(visible, vis, states);
    }
  }
}
