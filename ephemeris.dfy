/** `Planetary_Position_Service`: the table of J2000 orbital elements with
    their rates per Julian century, the Julian Date of a calendar time, the
    linear propagation of the elements to that date, the normalisation of
    the angles into [0, 360), and the Newton iteration for Kepler's
    equation. The trigonometric rotation into ecliptic coordinates is not
    modelled; the Layer 1 engines receive its result as an input. */
module Ephemeris {
  import opened Wrappers
  import opened Numerics
  import Text

  /** `OrbitalElements`: each element at J2000 and its change per Julian
      century. Angles are in degrees. */
  datatype OrbitalElements = OrbitalElements(
    a: real, aCy: real,
    e: real, eCy: real,
    i: real, iCy: real,
    l: real, lCy: real,
    wBar: real, wBarCy: real,
    omega: real, omegaCy: real)

  /** The lower-case names the table accepts: the eight planets and five
      dwarf planets. */
  const Bodies: seq<string> := ["mercury", "venus", "earth", "mars", "jupiter", "saturn", "uranus", "neptune",
                                "ceres", "pluto", "eris", "haumea", "makemake"]

  const DwarfPlanets: seq<string> := ["ceres", "pluto", "eris", "haumea", "makemake"]

  /** `GetPlanetElements`: the elements of a body named case-insensitively;
      any other name is an `ArgumentException`. */
  function GetPlanetElements(planetName: string): Result<OrbitalElements, Exception> {
    var key := Text.ToLower(planetName);
    if key == "mercury" then
      Ok(OrbitalElements(0.38709927, 0.00000037, 0.20563593, 0.00001906, 7.00497902, -0.00594749,
                         252.25032350, 149472.67411175, 77.45779628, 0.16047689, 48.33076593, -0.12534081))
    else if key == "venus" then
      Ok(OrbitalElements(0.72333566, 0.00000390, 0.00677672, -0.00004107, 3.39467605, -0.00078890,
                         181.97909950, 58517.81538729, 131.60246718, 0.00268329, 76.67984255, -0.27769418))
    else if key == "earth" then
      Ok(OrbitalElements(1.00000261, 0.00000562, 0.01671123, -0.00004392, -0.00001531, -0.01294668,
                         100.46457166, 35999.37244981, 102.93768193, 0.32327364, 0.0, 0.0))
    else if key == "mars" then
      Ok(OrbitalElements(1.52371034, 0.00001847, 0.09339410, 0.00007882, 1.84969142, -0.00813131,
                         -4.55343205, 19140.30268499, -23.94362959, 0.44441088, 49.55953891, -0.29257343))
    else if key == "jupiter" then
      Ok(OrbitalElements(5.20288700, -0.00011607, 0.04838624, -0.00013253, 1.30439695, -0.00183714,
                         34.39644051, 3034.74612775, 14.72847983, 0.21252668, 100.47390909, 0.20469106))
    else if key == "saturn" then
      Ok(OrbitalElements(9.53667594, -0.00125060, 0.05386179, -0.00050991, 2.48599187, 0.00193609,
                         49.95424423, 1222.49362201, 92.59887831, -0.41897216, 113.66242448, -0.28867794))
    else if key == "uranus" then
      Ok(OrbitalElements(19.18916464, -0.00196176, 0.04725744, -0.00004397, 0.77263783, -0.00242939,
                         313.23810451, 428.48202785, 170.95427630, 0.40805281, 74.01692503, 0.04240589))
    else if key == "neptune" then
      Ok(OrbitalElements(30.06992276, 0.00026291, 0.00859048, 0.00005105, 1.77004347, 0.00035372,
                         -55.12002969, 218.45945325, 44.96476227, -0.32241464, 131.78422574, -0.00508664))
    else if key == "ceres" then
      Ok(OrbitalElements(2.766, 0.0, 0.078, 0.0, 10.59, 0.0, 92.5, 43258.9, 73.6, 0.0, 80.5, 0.0))
    else if key == "pluto" then
      Ok(OrbitalElements(39.482, 0.0, 0.2488, 0.0, 17.14, 0.0, 238.9, 1.45, 224.1, 0.0, 110.3, 0.0))
    else if key == "eris" then
      Ok(OrbitalElements(67.8, 0.0, 0.437, 0.0, 44.0, 0.0, 197.8, 0.39, 320.1, 0.0, 35.8, 0.0))
    else if key == "haumea" then
      Ok(OrbitalElements(43.1, 0.0, 0.188, 0.0, 28.2, 0.0, 216.9, 0.54, 240.5, 0.0, 121.2, 0.0))
    else if key == "makemake" then
      Ok(OrbitalElements(45.8, 0.0, 0.160, 0.0, 28.9, 0.0, 351.4, 0.49, 295.1, 0.0, 79.5, 0.0))
    else
      Err(ArgumentException("Unknown planet or dwarf planet: " + planetName))
  }

  /** A name is accepted exactly when its lower-case form is one of the
      thirteen bodies; any other name raises the exception naming it. */
  lemma GetPlanetElementsSpec(planetName: string)
    ensures GetPlanetElements(planetName).Ok? <==> Text.ToLower(planetName) in Bodies
    ensures GetPlanetElements(planetName).Err? ==>
      GetPlanetElements(planetName).error == ArgumentException("Unknown planet or dwarf planet: " + planetName)
  {
  }

  /** The lookup ignores case: two names that differ only in case give the
      same answer. */
  lemma ElementsIgnoreCase(a: string, b: string)
    requires Text.EqualsIgnoreCase(a, b)
    ensures GetPlanetElements(a).Ok? == GetPlanetElements(b).Ok?
    ensures GetPlanetElements(a).Ok? ==> GetPlanetElements(a).value == GetPlanetElements(b).value
  {
  }

  /** Exactly thirteen distinct names are accepted. */
  lemma ThirteenBodies()
    ensures |Bodies| == 13
    ensures forall p, q :: 0 <= p < q < |Bodies| ==> Bodies[p] != Bodies[q]
  {
  }

  /** "Earth", whose position every planet is measured from, is in the
      table. */
  lemma EarthIsKnown()
    ensures GetPlanetElements("earth").Ok?
  {
    assert Text.ToLower("earth") == "earth";
  }

  /** "Sun" is not a body of the table, so asking for it raises the
      exception a Layer 1 planet engine catches. */
  lemma SunIsUnknown()
    ensures GetPlanetElements("Sun") == Err(ArgumentException("Unknown planet or dwarf planet: Sun"))
  {
    assert Text.ToLower("Sun") == "sun";
    assert "sun" !in Bodies;
    assert "Unknown planet or dwarf planet: " + "Sun" == "Unknown planet or dwarf planet: Sun";
  }

  /** The dwarf planets move only in mean longitude: every other rate is
      zero and the mean-longitude rate is positive. */
  lemma DwarfPlanetRates(name: string)
    requires name in DwarfPlanets
    ensures GetPlanetElements(name).Ok?
    ensures var el := GetPlanetElements(name).value;
      el.aCy == 0.0 && el.eCy == 0.0 && el.iCy == 0.0 && el.wBarCy == 0.0 && el.omegaCy == 0.0 && el.lCy > 0.0
  {
    DwarfNamesLower(name);
  }

  /** The dwarf-planet names are already in lower case. */
  lemma DwarfNamesLower(name: string)
    requires name in DwarfPlanets
    ensures Text.ToLower(name) == name
  {
    if name == "ceres" { assert Text.ToLower("ceres") == "ceres"; }
    else if name == "pluto" { assert Text.ToLower("pluto") == "pluto"; }
    else if name == "eris" { assert Text.ToLower("eris") == "eris"; }
    else if name == "haumea" { assert Text.ToLower("haumea") == "haumea"; }
    else { assert Text.ToLower("makemake") == "makemake"; }
  }

  /** A UTC calendar time. */
  datatype DateTime = DateTime(year: int, month: int, day: int, hour: int, minute: int, second: int)

  /** The day of the month with the time of day as its fraction. */
  function DayFraction(t: DateTime): real {
    t.day as real + t.hour as real / 24.0 + t.minute as real / 1440.0 + t.second as real / 86400.0
  }

  /** The Julian Date of `t`: January and February count as months 13 and
      14 of the year before, and the Gregorian correction is
      `B = 2 - A + A / 4` with `A = year / 100`, both C# integer divisions. */
  function JulianDate(t: DateTime): real {
    var year := if t.month <= 2 then t.year - 1 else t.year;
    var month := if t.month <= 2 then t.month + 12 else t.month;
    var a := DivTrunc(year, 100);
    var b := 2 - a + DivTrunc(a, 4);
    (365.25 * (year + 4716) as real).Floor as real + (30.6001 * (month + 1) as real).Floor as real
      + DayFraction(t) + b as real - 1524.5
  }

  /** `ToJulianDate`, reassigning `year` and `month` as the source does. */
  method ToJulianDate(utcTime: DateTime) returns (jd: real)
    ensures jd == JulianDate(utcTime)
  {
    var year := utcTime.year;
    var month := utcTime.month;
    var day := DayFraction(utcTime);
    if month <= 2 {
      year := year - 1;
      month := month + 12;
    }
    var a := DivTrunc(year, 100);
    var b := 2 - a + DivTrunc(a, 4);
    jd := (365.25 * (year + 4716) as real).Floor as real + (30.6001 * (month + 1) as real).Floor as real
          + day + b as real - 1524.5;
  }

  /** The J2000 epoch, 2000-01-01 12:00 UTC, is Julian Date 2451545.0: the
      date the propagation counts its centuries from. */
  lemma J2000Epoch()
    ensures JulianDate(DateTime(2000, 1, 1, 12, 0, 0)) == 2451545.0
  {
    assert DivTrunc(1999, 100) == 19;
    assert DivTrunc(19, 4) == 4;
    assert 365.25 * 6715.0 == 2452653.75;
    assert (365.25 * 6715.0).Floor == 2452653;
    assert 30.6001 * 14.0 == 428.4014;
    assert (30.6001 * 14.0).Floor == 428;
  }

  /** The next day of the same month is one Julian day later. */
  lemma NextDay(t: DateTime)
    ensures JulianDate(t.(day := t.day + 1)) == JulianDate(t) + 1.0
  {
  }

  /** The Gregorian correction makes 2000 a leap year (two days from
      28 February to 1 March) and 1900 a common year (one day). */
  lemma CenturyLeapYears()
    ensures JulianDate(DateTime(2000, 3, 1, 0, 0, 0)) - JulianDate(DateTime(2000, 2, 28, 0, 0, 0)) == 2.0
    ensures JulianDate(DateTime(1900, 3, 1, 0, 0, 0)) - JulianDate(DateTime(1900, 2, 28, 0, 0, 0)) == 1.0
  {
    assert DivTrunc(1999, 100) == 19 && DivTrunc(2000, 100) == 20;
    assert DivTrunc(19, 4) == 4 && DivTrunc(20, 4) == 5;
    assert DivTrunc(1899, 100) == 18 && DivTrunc(1900, 100) == 19;
    assert DivTrunc(18, 4) == 4;
    assert (365.25 * 6715.0).Floor == 2452653;
    assert 365.25 * 6716.0 == 2453019.0;
    assert (365.25 * 6716.0).Floor == 2453019;
    assert 365.25 * 6615.0 == 2416128.75;
    assert (365.25 * 6615.0).Floor == 2416128;
    assert 365.25 * 6616.0 == 2416494.0;
    assert (365.25 * 6616.0).Floor == 2416494;
    assert 30.6001 * 15.0 == 459.0015;
    assert (30.6001 * 15.0).Floor == 459;
    assert 30.6001 * 4.0 == 122.4004;
    assert (30.6001 * 4.0).Floor == 122;
  }

  /** Julian centuries since J2000. */
  function Centuries(jd: real): (r: real)
    ensures jd == 2451545.0 ==> r == 0.0
    ensures (jd > 2451545.0 ==> r > 0.0) && (jd < 2451545.0 ==> r < 0.0)
  {
    (jd - 2451545.0) / 36525.0
  }

  /** One element propagated linearly to `t` centuries after J2000. */
  function Propagate(x: real, xCy: real, t: real): real {
    x + xCy * t
  }

  /** At the epoch every element is its tabulated value, and an element
      with rate zero never changes. */
  lemma PropagateAtEpoch(x: real, xCy: real, t: real)
    ensures Propagate(x, xCy, 0.0) == x
    ensures xCy == 0.0 ==> Propagate(x, xCy, t) == x
    ensures Propagate(x, xCy, t) - x == xCy * t
  {
  }

  /** C#'s `x % 360.0` on doubles: the remainder of the quotient truncated
      toward zero, carrying the sign of `x`. */
  function Remainder360(x: real): (r: real)
    ensures x >= 0.0 ==> 0.0 <= r < 360.0
    ensures x < 0.0 ==> -360.0 < r <= 0.0
    ensures WholeTurns(x - r)
  {
    var q := Truncate(x / 360.0);
    assert x >= 0.0 ==> q as real <= x / 360.0 < q as real + 1.0;
    assert x < 0.0 ==> q as real - 1.0 < x / 360.0 <= q as real;
    WholeTurnsOf(q);
    x - 360.0 * q as real
  }

  /** A whole number of turns. */
  predicate WholeTurns(d: real) {
    (d / 360.0).Floor as real == d / 360.0
  }

  lemma WholeTurnsOf(q: int)
    ensures WholeTurns(360.0 * q as real)
  {
    assert 360.0 * q as real / 360.0 == q as real;
  }

  lemma WholeTurnsAddTurn(d: real)
    requires WholeTurns(d)
    ensures WholeTurns(d - 360.0)
  {
    var k := (d / 360.0).Floor;
    assert (d - 360.0) / 360.0 == (k - 1) as real;
  }

  /** An angle normalised the way `L`, `w_bar` and `Omega` are: the
      remainder, plus 360 when it is negative. */
  function NormalizeAngle(x: real): (r: real)
    ensures 0.0 <= r < 360.0
    ensures WholeTurns(x - r)
    ensures 0.0 <= x < 360.0 ==> r == x
  {
    var m := Remainder360(x);
    if m < 0.0 then
      assert WholeTurns(x - (m + 360.0)) by { WholeTurnsAddTurn(x - m); }
      m + 360.0
    else m
  }

  /** The elements of a body at a date, with `L`, `w_bar` and `Omega`
      normalised; `w = w_bar - Omega` and `M = L - w_bar` (plus 360 when
      negative). Inclination is kept in degrees: its conversion to radians
      only feeds the trigonometry. */
  datatype CurrentElements = CurrentElements(
    a: real, e: real, inclination: real, l: real, wBar: real, omega: real, w: real, m: real)

  function ElementsAt(el: OrbitalElements, t: real): CurrentElements {
    var l := NormalizeAngle(Propagate(el.l, el.lCy, t));
    var wBar := NormalizeAngle(Propagate(el.wBar, el.wBarCy, t));
    var omega := NormalizeAngle(Propagate(el.omega, el.omegaCy, t));
    var m := l - wBar;
    CurrentElements(Propagate(el.a, el.aCy, t), Propagate(el.e, el.eCy, t), Propagate(el.i, el.iCy, t),
                    l, wBar, omega, wBar - omega, if m < 0.0 then m + 360.0 else m)
  }

  /** The normalised angles lie in [0, 360), `w` in (-360, 360), the
      semi-major axis and eccentricity are the propagated ones, and the mean
      longitude differs from its propagated value by whole turns. */
  lemma ElementsAtSpec(el: OrbitalElements, t: real)
    ensures var r := ElementsAt(el, t);
      0.0 <= r.l < 360.0 && 0.0 <= r.wBar < 360.0 && 0.0 <= r.omega < 360.0 &&
      0.0 <= r.m < 360.0 && -360.0 < r.w < 360.0 &&
      r.a == Propagate(el.a, el.aCy, t) && r.e == Propagate(el.e, el.eCy, t) &&
      WholeTurns(Propagate(el.l, el.lCy, t) - r.l)
  {
  }

  /** The elements `CalculateHeliocentricPosition` works from, or the
      lookup's exception. */
  function HeliocentricElements(planetName: string, utcTime: DateTime): Result<CurrentElements, Exception> {
    match GetPlanetElements(planetName)
    case Err(e) => Err(e)
    case Ok(el) => Ok(ElementsAt(el, Centuries(JulianDate(utcTime))))
  }

  /** The position service knows exactly the names of the table, throws
      the table's exception for any other, and works from the table's
      elements propagated to the time. */
  lemma HeliocentricElementsSpec(planetName: string, utcTime: DateTime)
    ensures HeliocentricElements(planetName, utcTime).Ok? <==> GetPlanetElements(planetName).Ok?
    ensures HeliocentricElements(planetName, utcTime).Err? ==>
      HeliocentricElements(planetName, utcTime).error == GetPlanetElements(planetName).error
    ensures HeliocentricElements(planetName, utcTime).Ok? ==>
      HeliocentricElements(planetName, utcTime).value ==
        ElementsAt(GetPlanetElements(planetName).value, Centuries(JulianDate(utcTime)))
  {
  }

  /** The Newton estimate after `k` corrections, starting from `m`.
      `correction(E)` is `(E - e sin E - M) / (1 - e cos E)`, which needs the
      trigonometry and is an input. */
  function Estimate(m: real, correction: real -> real, k: nat): real {
    if k == 0 then m
    else
      var prev := Estimate(m, correction, k - 1);
      prev - correction(prev)
  }

  /** The correction made by step `k + 1` was within the tolerance. */
  predicate Converged(m: real, correction: real -> real, tolerance: real, k: nat) {
    Abs(correction(Estimate(m, correction, k))) < tolerance
  }

  /** The number of Newton steps taken when step `k + 1` is the next to
      try: up to the first step whose correction is below the tolerance,
      and never more than 30. */
  function StepsFrom(m: real, correction: real -> real, tolerance: real, k: nat): (r: nat)
    requires k < 30
    ensures k < r <= 30
    decreases 30 - k
  {
    if k == 29 || Converged(m, correction, tolerance, k) then k + 1
    else StepsFrom(m, correction, tolerance, k + 1)
  }

  /** The eccentric anomaly `SolveKeplerEquation` returns. */
  function KeplerSolution(m: real, correction: real -> real, tolerance: real): real {
    Estimate(m, correction, StepsFrom(m, correction, tolerance, 0))
  }

  /** A first correction within the tolerance ends the iteration after one
      step. */
  lemma FirstStepConverges(m: real, correction: real -> real, tolerance: real)
    requires Abs(correction(m)) < tolerance
    ensures KeplerSolution(m, correction, tolerance) == m - correction(m)
  {
    assert Converged(m, correction, tolerance, 0);
  }

  /** `SolveKeplerEquation`: at most 30 Newton steps starting from `M`,
      stopping after the first step whose correction is below the
      tolerance; the last estimate is returned. */
  method SolveKeplerEquation(m: real, correction: real -> real, tolerance: real)
    returns (e: real, ghost steps: nat)
    ensures 1 <= steps <= 30 && e == Estimate(m, correction, steps)
    ensures forall j :: 0 <= j < steps - 1 ==> !Converged(m, correction, tolerance, j)
    ensures steps < 30 ==> Converged(m, correction, tolerance, steps - 1)
    ensures e == KeplerSolution(m, correction, tolerance)
  {
    e := m;
    steps := 0;
    var i := 0;
    while i < 30
      invariant 0 <= i <= 30 && steps == i
      invariant e == Estimate(m, correction, i)
      invariant i < 30 ==> StepsFrom(m, correction, tolerance, 0) == StepsFrom(m, correction, tolerance, i)
      invariant i == 30 ==> StepsFrom(m, correction, tolerance, 0) == 30
    {
      var dE := correction(e);
      e := e - dE;
      steps := i + 1;
      StepsFromAt(m, correction, tolerance, i);
      if Abs(dE) < tolerance {
        assert Converged(m, correction, tolerance, i);
        break;
      }
      i := i + 1;
    }
    StepsFromSpec(m, correction, tolerance, 0);
  }

  /** The steps counted from `k + 1` on: none of them but the last
      converged, and the last did unless it is the 30th. */
  lemma {:induction false} StepsFromSpec(m: real, correction: real -> real, tolerance: real, k: nat)
    requires k < 30
    ensures var r := StepsFrom(m, correction, tolerance, k);
      (forall j :: k <= j < r - 1 ==> !Converged(m, correction, tolerance, j)) &&
      (r < 30 ==> Converged(m, correction, tolerance, r - 1))
    decreases 30 - k
  {
    if k < 29 && !Converged(m, correction, tolerance, k) {
      StepsFromSpec(m, correction, tolerance, k + 1);
    }
  }

  /** One step of `StepsFrom`: it stops at step `k + 1` when that step
      converged or is the 30th, and otherwise goes on. */
  lemma StepsFromAt(m: real, correction: real -> real, tolerance: real, k: nat)
    requires k < 30
    ensures Estimate(m, correction, k + 1) == Estimate(m, correction, k) - correction(Estimate(m, correction, k))
    ensures k == 29 || Converged(m, correction, tolerance, k) ==> StepsFrom(m, correction, tolerance, k) == k + 1
    ensures k < 29 && !Converged(m, correction, tolerance, k) ==>
      StepsFrom(m, correction, tolerance, k) == StepsFrom(m, correction, tolerance, k + 1)
  {
  }
}
