/** The catalogue records (`Star_Objects`, `Planet_Objects`, `Moon_Objects`),
    the user profile, and the per-observation views (`Star_View`,
    `Planet_View`, `Moon_View`) that Layers 1-5 hand to each other.

    Catalogue records are values. A view is an object: Layer 1 creates it
    with its position, and Layers 1-4 then overwrite its score fields in
    place. Those mutable fields (`Score`, `MatchPercentage`,
    `VisibilityChance`, `ChanceReason`, `BoostDescription`) are grouped in a
    `ScoreCard` that the view owns, so that one generic booster can update
    stars, planets and moons alike, as the C# generic `BoostScores<T>` does
    through its setter delegates. */
module Views {
  import opened Wrappers

  /** A catalogue star. Identifiers are strings, as in the cloud catalogue;
      photometric and physical fields may be missing. */
  datatype StarObject = StarObject(
    id: string,
    name: string,
    spectralType: string,
    gmag: Option<real>,
    bpMag: Option<real>,
    rpMag: Option<real>,
    parallax: Option<real>,
    teff: Option<real>,
    luminosity: Option<real>,
    mass: Option<real>)

  /** `ColorIndexBP_RP`: BP - RP when both magnitudes are known. */
  function ColorIndex(s: StarObject): (r: Option<real>)
    ensures r.Some? <==> s.bpMag.Some? && s.rpMag.Some?
    ensures r.Some? ==> r.value == s.bpMag.value - s.rpMag.value
  {
    if s.bpMag.Some? && s.rpMag.Some? then Some(s.bpMag.value - s.rpMag.value) else None
  }

  /** `DistancePc`: 1000 / parallax (milliarcseconds) for a positive parallax. */
  function DistancePc(s: StarObject): (r: Option<real>)
    ensures r.Some? <==> s.parallax.Some? && s.parallax.value > 0.0
    ensures r.Some? ==> r.value > 0.0 && r.value * s.parallax.value == 1000.0
  {
    if s.parallax.Some? && s.parallax.value > 0.0 then Some(1000.0 / s.parallax.value) else None
  }

  datatype PlanetObject = PlanetObject(
    id: string,
    name: string,
    planetType: string,
    color: string,
    distanceFromSun: real,
    diameter: Option<real>,
    mass: Option<real>,
    meanTemperature: real,
    hasRings: bool)

  datatype MoonObject = MoonObject(
    id: string,
    name: string,
    parent: string,
    color: string,
    diameter: Option<real>,
    mass: Option<real>,
    composition: string,
    surfaceFeatures: string,
    magnitude: real,
    distanceFromEarth: real,
    semiMajorAxisKm: real,
    eccentricity: real,
    inclination: real,
    longitudeOfAscendingNode: real,
    argumentOfPeriapsis: real,
    meanAnomalyAtEpoch: real,
    meanMotion: real,
    orbitalPeriod: real)

  /** `User_Object`: the liked objects and favourite categories Layer 1
      scores against, and the observer's location. */
  datatype User = User(
    id: int,
    name: string,
    likedStars: seq<string>,
    favoriteSpectralTypes: seq<string>,
    likedPlanets: seq<string>,
    favoritePlanetColors: seq<string>,
    likedMoons: seq<string>,
    favoriteMoonCompositions: seq<string>,
    latitude: real,
    longitude: real)

  /** `Layer2_Interaction_Object`: one row of the trend model's output for
      one catalogue object. */
  datatype Interaction = Interaction(
    objectType: string,
    objectId: int,
    totalInteractions: real,
    numViews: real,
    numClicks: real,
    numFavorites: real,
    trendingScore: real)

  /** The mutable score fields of a view, as a value. */
  datatype CardState = CardState(
    score: real,
    matchPercentage: real,
    visibilityChance: real,
    chanceReason: string,
    boostDescription: string)

  /** What a freshly created view carries before Layer 1 scores it. */
  const Unscored := CardState(0.0, 0.0, 0.0, "", "")

  class ScoreCard {
    var score: real
    var matchPercentage: real
    var visibilityChance: real
    var chanceReason: string
    var boostDescription: string

    constructor ()
      ensures State() == Unscored
    {
      score, matchPercentage, visibilityChance := 0.0, 0.0, 0.0;
      chanceReason, boostDescription := "", "";
    }

    function State(): CardState
      reads this
    {
      CardState(score, matchPercentage, visibilityChance, chanceReason, boostDescription)
    }
  }

  /** The states of a list of cards, in order. */
  function States(cards: seq<ScoreCard>): (r: seq<CardState>)
    reads cards
    ensures |r| == |cards|
    ensures forall i :: 0 <= i < |cards| ==> r[i] == cards[i].State()
  {
    seq(|cards|, i reads cards requires 0 <= i < |cards| => cards[i].State())
  }

  /** The scores of a list of card states, in order. */
  function Scores(states: seq<CardState>): (r: seq<real>)
    ensures |r| == |states|
    ensures forall i :: 0 <= i < |states| ==> r[i] == states[i].score
  {
    seq(|states|, i requires 0 <= i < |states| => states[i].score)
  }

  /** No card is listed twice. */
  predicate DistinctCards(cards: seq<ScoreCard>) {
    forall i, j :: 0 <= i < j < |cards| ==> cards[i] != cards[j]
  }

  /** No card of one list appears in the other. */
  predicate DisjointCards(a: seq<ScoreCard>, b: seq<ScoreCard>) {
    forall k :: 0 <= k < |a| ==> a[k] !in b
  }

  lemma DisjointSwap(a: seq<ScoreCard>, b: seq<ScoreCard>)
    requires DisjointCards(a, b)
    ensures DisjointCards(b, a)
  {
    forall k | 0 <= k < |b| ensures b[k] !in a {
      forall j | 0 <= j < |a| ensures a[j] != b[k] {
        assert a[j] !in b;
      }
    }
  }

  class StarView {
    const star: StarObject
    const id: string
    const spectralType: string
    const altitude: real
    const azimuth: real
    const isVisible: bool
    const card: ScoreCard

    /** Layer 1's object initialiser: identity and position from the star,
        scores zero and reasons empty. */
    constructor (star: StarObject, altitude: real, azimuth: real, isVisible: bool)
      ensures this.star == star && id == star.id && spectralType == star.spectralType
      ensures this.altitude == altitude && this.azimuth == azimuth && this.isVisible == isVisible
      ensures fresh(card) && card.State() == Unscored
    {
      this.star := star;
      id := star.id;
      spectralType := star.spectralType;
      this.altitude := altitude;
      this.azimuth := azimuth;
      this.isVisible := isVisible;
      card := new ScoreCard();
    }
  }

  /** The ecliptic position of a body, in astronomical units. */
  datatype Vector3 = Vector3(x: real, y: real, z: real)

  class PlanetView {
    const planet: PlanetObject
    const id: string
    const planetType: string
    const altitude: real
    const azimuth: real
    const isVisible: bool
    const geocentric: Vector3
    const rightAscension: real
    const declination: real
    /** `Magnitude`, `DistanceFromSun` and `DistanceFromEarth` of the view:
        no code in the engine assigns them, so they keep their default 0. */
    const magnitude: real := 0.0
    const distanceFromSun: real := 0.0
    const distanceFromEarth: real := 0.0
    const card: ScoreCard

    constructor (planet: PlanetObject, altitude: real, azimuth: real, isVisible: bool,
                 geocentric: Vector3, rightAscension: real, declination: real)
      ensures this.planet == planet && id == planet.id && planetType == planet.planetType
      ensures this.altitude == altitude && this.azimuth == azimuth && this.isVisible == isVisible
      ensures this.geocentric == geocentric
      ensures this.rightAscension == rightAscension && this.declination == declination
      ensures fresh(card) && card.State() == Unscored
    {
      this.planet := planet;
      id := planet.id;
      planetType := planet.planetType;
      this.altitude := altitude;
      this.azimuth := azimuth;
      this.isVisible := isVisible;
      this.geocentric := geocentric;
      this.rightAscension := rightAscension;
      this.declination := declination;
      card := new ScoreCard();
    }
  }

  class MoonView {
    const moon: MoonObject
    const id: string
    const parent: string
    const altitude: real
    const azimuth: real
    const isVisible: bool
    const card: ScoreCard

    constructor (moon: MoonObject, altitude: real, azimuth: real, isVisible: bool)
      ensures this.moon == moon && id == moon.id && parent == moon.parent
      ensures this.altitude == altitude && this.azimuth == azimuth && this.isVisible == isVisible
      ensures fresh(card) && card.State() == Unscored
    {
      this.moon := moon;
      id := moon.id;
      parent := moon.parent;
      this.altitude := altitude;
      this.azimuth := azimuth;
      this.isVisible := isVisible;
      card := new ScoreCard();
    }
  }

  function StarCards(views: seq<StarView>): (r: seq<ScoreCard>)
    ensures |r| == |views| && forall i :: 0 <= i < |views| ==> r[i] == views[i].card
  {
    seq(|views|, i requires 0 <= i < |views| => views[i].card)
  }

  function PlanetCards(views: seq<PlanetView>): (r: seq<ScoreCard>)
    ensures |r| == |views| && forall i :: 0 <= i < |views| ==> r[i] == views[i].card
  {
    seq(|views|, i requires 0 <= i < |views| => views[i].card)
  }

  function MoonCards(views: seq<MoonView>): (r: seq<ScoreCard>)
    ensures |r| == |views| && forall i :: 0 <= i < |views| ==> r[i] == views[i].card
  {
    seq(|views|, i requires 0 <= i < |views| => views[i].card)
  }

  function StarIds(views: seq<StarView>): (r: seq<string>)
    ensures |r| == |views| && forall i :: 0 <= i < |views| ==> r[i] == views[i].id
  {
    seq(|views|, i requires 0 <= i < |views| => views[i].id)
  }

  function PlanetIds(views: seq<PlanetView>): (r: seq<string>)
    ensures |r| == |views| && forall i :: 0 <= i < |views| ==> r[i] == views[i].id
  {
    seq(|views|, i requires 0 <= i < |views| => views[i].id)
  }

  function MoonIds(views: seq<MoonView>): (r: seq<string>)
    ensures |r| == |views| && forall i :: 0 <= i < |views| ==> r[i] == views[i].id
  {
    seq(|views|, i requires 0 <= i < |views| => views[i].id)
  }
}
