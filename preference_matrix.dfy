/** `Layer3_User_Matrix_Object`: the user's preference matrix that both
    Layer 3 boosters read, one 0-10 value per spectral class, planet category
    and parent planet, and the table lookups the boosters make into it. */
module PreferenceMatrix {
  import opened Numerics

  datatype UserMatrix = UserMatrix(
    userId: int,
    a: real, b: real, f: real, g: real, k: real, m: real, o: real,
    dwarfPlanet: real, gasGiant: real, iceGiant: real, terrestrial: real,
    earth: real, eris: real, haumea: real, jupiter: real, makemake: real,
    mars: real, neptune: real, pluto: real, saturn: real, uranus: real)

  /** The spectral classes the matrix has a column for. */
  const SpectralClasses: seq<string> := ["A", "B", "F", "G", "K", "M", "O"]

  /** The planet categories of the catalogue. */
  const PlanetCategories: seq<string> := ["Dwarf Planet", "Gas Giant", "Ice Giant", "Terrestrial"]

  /** The parent planets the matrix has a column for. */
  const ParentPlanets: seq<string> :=
    ["Earth", "Eris", "Haumea", "Jupiter", "Makemake", "Mars", "Neptune", "Pluto", "Saturn", "Uranus"]

  /** `Normalize`: a preference clamped to `[0, 10]`, as a fraction of 10. */
  function Normalize(v: real): (r: real)
    ensures 0.0 <= r <= 1.0
    ensures 0.0 <= v <= 10.0 ==> r * 10.0 == v
    ensures v <= 0.0 ==> r == 0.0
    ensures v >= 10.0 ==> r == 1.0
  {
    Max(0.0, Min(10.0, v)) / 10.0
  }

  /** The `switch` on a spectral class: the matrix entry of a class letter,
      `otherwise` for any other text. */
  function SpectralPreference(t: string, prefs: UserMatrix, otherwise: real): (r: real)
    ensures t !in SpectralClasses ==> r == otherwise
  {
    if t == "A" then prefs.a
    else if t == "B" then prefs.b
    else if t == "F" then prefs.f
    else if t == "G" then prefs.g
    else if t == "K" then prefs.k
    else if t == "M" then prefs.m
    else if t == "O" then prefs.o
    else otherwise
  }

  /** The `switch` on a planet category (exact, case-sensitive): the matrix
      entry of the category, `otherwise` for any other text. */
  function CategoryPreference(cat: string, prefs: UserMatrix, otherwise: real): (r: real)
    ensures cat !in PlanetCategories ==> r == otherwise
  {
    if cat == "Dwarf Planet" then prefs.dwarfPlanet
    else if cat == "Gas Giant" then prefs.gasGiant
    else if cat == "Ice Giant" then prefs.iceGiant
    else if cat == "Terrestrial" then prefs.terrestrial
    else otherwise
  }

  /** The `switch` on a moon's parent planet (exact, case-sensitive): the
      matrix entry of the parent, `otherwise` for any other text. */
  function ParentPreference(parent: string, prefs: UserMatrix, otherwise: real): (r: real)
    ensures parent !in ParentPlanets ==> r == otherwise
  {
    if parent == "Earth" then prefs.earth
    else if parent == "Eris" then prefs.eris
    else if parent == "Haumea" then prefs.haumea
    else if parent == "Jupiter" then prefs.jupiter
    else if parent == "Makemake" then prefs.makemake
    else if parent == "Mars" then prefs.mars
    else if parent == "Neptune" then prefs.neptune
    else if parent == "Pluto" then prefs.pluto
    else if parent == "Saturn" then prefs.saturn
    else if parent == "Uranus" then prefs.uranus
    else otherwise
  }
}
