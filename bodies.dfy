/**
 * A body record as the Solar System OpenData API delivers it. Every field is
 * optional; numbers are exact reals here, and an absent number is kept apart
 * from a present 0 (the components then treat both as falsy).
 */
module Bodies {
  import opened Js

  /** One entry of a body's `moons` array; the dashboard and the detail view only count these. */
  datatype MoonRef = MoonRef(moon: string, rel: string)

  /** The `mass` object. */
  datatype Mass = Mass(massValue: real, massExponent: int)

  datatype Body = Body(
    id: Option<string>,
    englishName: Option<string>,
    name: Option<string>,
    isPlanet: Option<bool>,
    bodyType: Option<string>,
    moons: Option<seq<MoonRef>>,
    gravity: Option<real>,
    density: Option<real>,
    escape: Option<real>,
    discoveryDate: Option<string>,
    discoveredBy: Option<string>,
    mass: Option<Mass>,
    meanRadius: Option<real>,
    equaRadius: Option<real>,
    polarRadius: Option<real>,
    flattening: Option<real>,
    inclination: Option<real>,
    eccentricity: Option<real>,
    semimajorAxis: Option<real>,
    sideralOrbit: Option<real>,
    sideralRotation: Option<real>,
    perihelion: Option<real>,
    aphelion: Option<real>,
    axialTilt: Option<real>,
    avgTemp: Option<real>,
    mainAnomaly: Option<real>,
    argPeriapsis: Option<real>,
    longAscNode: Option<real>)

  /** The discovery text both views show for a body without a discovery date. */
  const Prehistoric: string := "Prehistoric"

  /** `body.moons ? body.moons.length : 0`: an empty array is still truthy. */
  function MoonCount(moons: Option<seq<MoonRef>>): (n: nat)
    ensures moons.Some? ==> n == |moons.value|
    ensures moons.None? ==> n == 0
    ensures n == 0 <==> moons.None? || moons.value == []
  {
    if moons.Some? then |moons.value| else 0
  }
}
