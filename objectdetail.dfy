/**
 * The detail view's data shaping: the normalised record built from one API
 * body, `formatMass`, and the twelve orbit samples drawn in its charts.
 */
module ObjectDetail {
  import opened Js
  import opened Bodies

  const PlanetType: string := "Planet"
  const Unknown: string := "Unknown"

  /** The normalised record; `kind` is its `type` field (a reserved word here). */
  datatype Detail = Detail(
    id: Option<string>,
    name: Option<string>,
    latinName: Option<string>,
    kind: Option<string>,
    moons: nat,
    moonsList: seq<MoonRef>,
    gravity: Option<real>,
    density: Option<real>,
    discoveryDate: string,
    discoveryBy: string,
    mass: Option<Mass>,
    meanRadius: Option<real>,
    equaRadius: Option<real>,
    polarRadius: Option<real>,
    flattening: Option<real>,
    inclination: Option<real>,
    eccentricity: Option<real>,
    semimajorAxis: Option<real>,
    sideralOrbit: Option<real>,
    sideralRotation: Option<real>,
    perihelion: Option<real>,
    aphelion: Option<real>,
    axialTilt: Option<real>,
    avgTemp: Option<real>,
    mainAnomaly: Option<real>,
    argPeriapsis: Option<real>,
    longAscNode: Option<real>,
    bodyType: Option<string>)

  /** `transformedData`: the API body with the detail view's defaults applied. */
  function Transform(data: Body): (d: Detail)
    ensures d.kind == (if TruthyFlag(data.isPlanet) then Some(PlanetType) else data.bodyType)
    ensures d.moons == |d.moonsList|
    ensures d.moonsList == [] <==> data.moons.None? || data.moons.value == []
    ensures data.moons.Some? ==> d.moonsList == data.moons.value
    ensures d.discoveryDate == Prehistoric <==> !TruthyText(data.discoveryDate) || data.discoveryDate.value == Prehistoric
    ensures TruthyText(data.discoveryDate) ==> d.discoveryDate == data.discoveryDate.value
    ensures d.discoveryBy == Unknown <==> !TruthyText(data.discoveredBy) || data.discoveredBy.value == Unknown
    ensures TruthyText(data.discoveredBy) ==> d.discoveryBy == data.discoveredBy.value
    ensures d.mass.None? <==> data.mass.None?
    ensures d.mass.Some? ==> d.mass.value.massValue == data.mass.value.massValue
    ensures d.mass.Some? ==> d.mass.value.massExponent == data.mass.value.massExponent
  {
    Detail(
      id := data.id,
      name := data.englishName,
      latinName := data.name,
      kind := if TruthyFlag(data.isPlanet) then Some(PlanetType) else data.bodyType,
      moons := MoonCount(data.moons),
      moonsList := if data.moons.Some? then data.moons.value else [],
      gravity := data.gravity,
      density := data.density,
      discoveryDate := OrText(data.discoveryDate, Prehistoric),
      discoveryBy := OrText(data.discoveredBy, Unknown),
      mass := if data.mass.Some? then Some(Mass(data.mass.value.massValue, data.mass.value.massExponent)) else None,
      meanRadius := data.meanRadius,
      equaRadius := data.equaRadius,
      polarRadius := data.polarRadius,
      flattening := data.flattening,
      inclination := data.inclination,
      eccentricity := data.eccentricity,
      semimajorAxis := data.semimajorAxis,
      sideralOrbit := data.sideralOrbit,
      sideralRotation := data.sideralRotation,
      perihelion := data.perihelion,
      aphelion := data.aphelion,
      axialTilt := data.axialTilt,
      avgTemp := data.avgTemp,
      mainAnomaly := data.mainAnomaly,
      argPeriapsis := data.argPeriapsis,
      longAscNode := data.longAscNode,
      bodyType := data.bodyType)
  }

  /**
   * The orbital and physical measurements pass through untouched: no
   * defaulting, so an absent field stays absent and a present 0 stays 0.
   */
  lemma TransformCopiesMeasurements(data: Body)
    ensures var d := Transform(data);
            && d.id == data.id && d.name == data.englishName && d.latinName == data.name
            && d.gravity == data.gravity && d.density == data.density
            && d.meanRadius == data.meanRadius && d.equaRadius == data.equaRadius
            && d.polarRadius == data.polarRadius && d.flattening == data.flattening
            && d.inclination == data.inclination && d.eccentricity == data.eccentricity
            && d.semimajorAxis == data.semimajorAxis && d.sideralOrbit == data.sideralOrbit
            && d.sideralRotation == data.sideralRotation && d.perihelion == data.perihelion
            && d.aphelion == data.aphelion && d.axialTilt == data.axialTilt
            && d.avgTemp == data.avgTemp && d.mainAnomaly == data.mainAnomaly
            && d.argPeriapsis == data.argPeriapsis && d.longAscNode == data.longAscNode
            && d.bodyType == data.bodyType
  {
  }

  /**
   * `formatMass`: "Unknown" for a missing mass, else "<value> × 10^<exponent> kg".
   * `show` stands for JavaScript's number-to-string conversion.
   */
  function FormatMass(mass: Option<Mass>, show: real -> string): (text: string)
    ensures mass.None? ==> text == Unknown
    ensures mass.Some? ==> |text| >= 3 && text[|text| - 3..] == " kg"
  {
    if mass.None? then Unknown
    else
      var prefix := show(mass.value.massValue) + " × 10^" + show(mass.value.massExponent as real);
      assert (prefix + " kg")[|prefix|..] == " kg";
      prefix + " kg"
  }

  /** The text is "Unknown" exactly when the mass is missing, whatever the number rendering. */
  lemma FormatMassUnknownIff(mass: Option<Mass>, show: real -> string)
    ensures FormatMass(mass, show) == Unknown <==> mass.None?
  {
    if mass.Some? {
      var s := FormatMass(mass, show);
      assert s[|s| - 1] == 'g';
      assert Unknown[|Unknown| - 1] == 'n';
    }
  }

  /** A detail record's mass is shown as "Unknown" exactly when the API body has none. */
  lemma DetailMassUnknownIff(data: Body, show: real -> string)
    ensures FormatMass(Transform(data).mass, show) == Unknown <==> data.mass.None?
  {
    FormatMassUnknownIff(Transform(data).mass, show);
  }

  // Orbit samples

  const DataPoints: nat := 12
  /** Earth's fallbacks: period in days, eccentricity, semimajor axis in km. */
  const EarthPeriod: real := 365.0
  const EarthEccentricity: real := 0.01667
  const EarthSemimajorAxis: real := 149598000.0
  const KmPerMillionKm: real := 1000000.0
  /** Temperatures are lowered by up to this many kelvin of jitter. */
  const JitterRange: real := 10.0

  /**
   * One chart sample; `distance` (million km) and `temperature` (K) are the
   * exact values before `toFixed(2)` and `toFixed(1)`.
   */
  datatype Sample = Sample(time: real, distance: real, temperature: real)

  function OrbitalPeriod(d: Detail): real {
    Or(d.sideralOrbit, EarthPeriod)
  }

  function UsedEccentricity(d: Detail): real {
    Or(d.eccentricity, EarthEccentricity)
  }

  function UsedSemimajorAxis(d: Detail): real {
    Or(d.semimajorAxis, EarthSemimajorAxis)
  }

  /**
   * Sample `i`. `cosTurn(t)` stands for `Math.cos(2 * Math.PI * t)`, so the
   * angle `(i / 12) * 2π` is passed as the fraction of a turn `i / 12`;
   * `random(i)` stands for the `Math.random()` drawn for sample `i`.
   */
  function SampleAt(d: Detail, i: nat, cosTurn: real -> real, random: nat -> real): (s: Sample)
    ensures s.time * DataPoints as real == i as real * OrbitalPeriod(d)
    ensures !Truthy(d.avgTemp) ==> s.temperature == 0.0
    ensures s.distance * KmPerMillionKm
              == UsedSemimajorAxis(d) * (1.0 - UsedEccentricity(d) * cosTurn(i as real / DataPoints as real))
  {
    var distanceFactor := 1.0 - UsedEccentricity(d) * cosTurn(i as real / DataPoints as real);
    Sample(
      i as real * (OrbitalPeriod(d) / DataPoints as real),
      UsedSemimajorAxis(d) * distanceFactor / KmPerMillionKm,
      if Truthy(d.avgTemp) then d.avgTemp.value - random(i) * JitterRange else 0.0)
  }

  /** None of the three parameters the samples use can be 0: a falsy 0 takes Earth's value. */
  lemma FallbacksNeverZero(d: Detail)
    ensures OrbitalPeriod(d) != 0.0 && UsedEccentricity(d) != 0.0 && UsedSemimajorAxis(d) != 0.0
    ensures d.eccentricity == Some(0.0) ==> UsedEccentricity(d) == EarthEccentricity
    ensures d.sideralOrbit == Some(0.0) ==> OrbitalPeriod(d) == EarthPeriod
    ensures d.semimajorAxis == Some(0.0) ==> UsedSemimajorAxis(d) == EarthSemimajorAxis
  {
    OrFallsBack(d.sideralOrbit, EarthPeriod);
    OrFallsBack(d.eccentricity, EarthEccentricity);
    OrFallsBack(d.semimajorAxis, EarthSemimajorAxis);
  }

  /**
   * A body with eccentricity 0 and Earth's semimajor axis does not get a
   * circular orbit: its first sample (cosine 1) lies at
   * 147.10420134 million km, not at 149.598.
   */
  lemma ZeroEccentricityIsNotCircular(d: Detail, cosTurn: real -> real, random: nat -> real)
    requires d.eccentricity == Some(0.0) && d.semimajorAxis == Some(EarthSemimajorAxis)
    requires cosTurn(0.0) == 1.0
    ensures SampleAt(d, 0, cosTurn, random).distance == 147.10420134
  {
    assert 0 as real / DataPoints as real == 0.0;
  }

  /**
   * Sample `i` lies `i` twelfths of the period into the orbit, and its
   * temperature is 0 without a known average, else the average lowered by
   * less than `JitterRange` for a draw in [0, 1).
   */
  lemma SampleAtSpec(d: Detail, i: nat, cosTurn: real -> real, random: nat -> real)
    ensures var s := SampleAt(d, i, cosTurn, random);
            && s.time * DataPoints as real == i as real * OrbitalPeriod(d)
            && (i < DataPoints && OrbitalPeriod(d) > 0.0 ==> 0.0 <= s.time < OrbitalPeriod(d))
            && (!Truthy(d.avgTemp) ==> s.temperature == 0.0)
            && (Truthy(d.avgTemp) && 0.0 <= random(i) < 1.0 ==>
                  d.avgTemp.value - JitterRange < s.temperature <= d.avgTemp.value)
  {
    var step := OrbitalPeriod(d) / DataPoints as real;
    assert DataPoints as real * step == OrbitalPeriod(d);
    if i < DataPoints && OrbitalPeriod(d) > 0.0 {
      StepsIncrease(i, DataPoints, step);
    }
  }

  /** With a positive period the sample times grow strictly with the index. */
  lemma SampleTimesIncrease(d: Detail, i: nat, j: nat, cosTurn: real -> real, random: nat -> real)
    requires i < j && OrbitalPeriod(d) > 0.0
    ensures SampleAt(d, i, cosTurn, random).time < SampleAt(d, j, cosTurn, random).time
  {
    var step := OrbitalPeriod(d) / DataPoints as real;
    assert step > 0.0;
    StepsIncrease(i, j, step);
    assert SampleAt(d, i, cosTurn, random).time == i as real * step;
    assert SampleAt(d, j, cosTurn, random).time == j as real * step;
  }

  lemma StepsIncrease(i: nat, j: nat, step: real)
    requires i < j && step > 0.0
    ensures 0.0 <= i as real * step < j as real * step
  {
    assert j as real * step - i as real * step == (j - i) as real * step;
  }

  /** `generateHistoricalData`: the loop that pushes one sample per index. */
  method GenerateHistoricalData(data: Detail, cosTurn: real -> real, random: nat -> real)
    returns (mockData: seq<Sample>)
    ensures |mockData| == DataPoints
    ensures forall i :: 0 <= i < |mockData| ==> mockData[i] == SampleAt(data, i, cosTurn, random)
    ensures mockData[0].time == 0.0
    ensures forall i :: 0 <= i < |mockData| ==>
              mockData[i].time * DataPoints as real == i as real * OrbitalPeriod(data)
    ensures OrbitalPeriod(data) > 0.0 ==>
              forall i, j :: 0 <= i < j < |mockData| ==> mockData[i].time < mockData[j].time
    ensures OrbitalPeriod(data) > 0.0 ==>
              forall i :: 0 <= i < |mockData| ==> 0.0 <= mockData[i].time < OrbitalPeriod(data)
    ensures !Truthy(data.avgTemp) ==> forall i :: 0 <= i < |mockData| ==> mockData[i].temperature == 0.0
    ensures Truthy(data.avgTemp) ==>
              forall i :: 0 <= i < |mockData| && 0.0 <= random(i) < 1.0 ==>
                data.avgTemp.value - JitterRange < mockData[i].temperature <= data.avgTemp.value
  {
    mockData := [];
    var orbitalPeriod := Or(data.sideralOrbit, EarthPeriod);
    for i := 0 to DataPoints
      invariant |mockData| == i
      invariant forall k :: 0 <= k < i ==> mockData[k] == SampleAt(data, k, cosTurn, random)
    {
      var distanceFactor := 1.0 - Or(data.eccentricity, EarthEccentricity) * cosTurn(i as real / DataPoints as real);
      var distance := Or(data.semimajorAxis, EarthSemimajorAxis) * distanceFactor / KmPerMillionKm;
      var temperature := if Truthy(data.avgTemp) then data.avgTemp.value - random(i) * JitterRange else 0.0;
      mockData := mockData + [Sample(i as real * (orbitalPeriod / DataPoints as real), distance, temperature)];
    }
    forall i | 0 <= i < |mockData|
      ensures var s := mockData[i];
              && s.time * DataPoints as real == i as real * OrbitalPeriod(data)
              && (OrbitalPeriod(data) > 0.0 ==> 0.0 <= s.time < OrbitalPeriod(data))
              && (!Truthy(data.avgTemp) ==> s.temperature == 0.0)
              && (Truthy(data.avgTemp) && 0.0 <= random(i) < 1.0 ==>
                    data.avgTemp.value - JitterRange < s.temperature <= data.avgTemp.value)
    {
      SampleAtSpec(data, i, cosTurn, random);
    }
    forall i, j | 0 <= i < j < |mockData| && orbitalPeriod > 0.0
      ensures mockData[i].time < mockData[j].time
    {
      SampleTimesIncrease(data, i, j, cosTurn, random);
    }
  }
}
