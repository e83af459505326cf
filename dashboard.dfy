/**
 * The data shaping of the dashboard view: projecting the API's body list
 * onto catalogue rows, the search and type filter over those rows, the
 * summary statistics and the data behind the three charts.
 */
module Dashboard {
  import opened Js
  import opened Seqs
  import opened Bodies

  /** At most this many rows are listed. */
  const MaxRows: nat := 15
  /** The kilometres per astronomical unit the dashboard divides by. */
  const KmPerAu: real := 149598000.0

  const PlanetKind: string := "planet"
  const DwarfKind: string := "dwarf planet"
  /** The type selection that keeps every row. */
  const AllKinds: string := "all"
  const DwarfPlanetBodyType: string := "Dwarf Planet"

  /**
   * One catalogue row. `kind` is the row's `type` field (a reserved word
   * here); `distanceFromSun` is the exact quotient, before `toFixed(2)`.
   */
  datatype Row = Row(
    id: nat,
    name: Option<string>,
    kind: string,
    distanceFromSun: real,
    diameter: real,
    moons: nat,
    discoveryYear: string,
    gravity: real,
    density: real,
    escape: real,
    sideralOrbit: real,
    sideralRotation: real)

  /** Planets and dwarf planets are listed; moons, asteroids and comets are not. */
  predicate IsListed(b: Body) {
    TruthyFlag(b.isPlanet) || b.bodyType == Some(DwarfPlanetBodyType)
  }

  /** The row built for body `b` at position `id - 1` of the kept list. */
  function ToRow(b: Body, id: nat): (r: Row)
    ensures r.id == id && r.name == b.englishName
    ensures r.kind == PlanetKind || r.kind == DwarfKind
    ensures r.kind == PlanetKind <==> TruthyFlag(b.isPlanet)
    ensures r.distanceFromSun * KmPerAu == Or(b.semimajorAxis, 0.0)
    ensures r.diameter == 2.0 * Or(b.meanRadius, 0.0)
    ensures r.diameter == 0.0 <==> !Truthy(b.meanRadius)
    ensures r.moons == 0 <==> b.moons.None? || b.moons.value == []
    ensures b.moons.Some? ==> r.moons == |b.moons.value|
    ensures r.discoveryYear == Prehistoric <==> !TruthyText(b.discoveryDate) || b.discoveryDate.value == Prehistoric
    ensures TruthyText(b.discoveryDate) ==> r.discoveryYear == b.discoveryDate.value
    ensures r.gravity == 0.0 <==> !Truthy(b.gravity)
    ensures r.density == 0.0 <==> !Truthy(b.density)
    ensures r.escape == 0.0 <==> !Truthy(b.escape)
    ensures r.sideralOrbit == 0.0 <==> !Truthy(b.sideralOrbit)
    ensures r.sideralRotation == 0.0 <==> !Truthy(b.sideralRotation)
    ensures Truthy(b.gravity) ==> r.gravity == b.gravity.value
    ensures Truthy(b.density) ==> r.density == b.density.value
    ensures Truthy(b.escape) ==> r.escape == b.escape.value
    ensures Truthy(b.sideralOrbit) ==> r.sideralOrbit == b.sideralOrbit.value
    ensures Truthy(b.sideralRotation) ==> r.sideralRotation == b.sideralRotation.value
  {
    Row(
      id := id,
      name := b.englishName,
      kind := if TruthyFlag(b.isPlanet) then PlanetKind else DwarfKind,
      distanceFromSun := if Truthy(b.semimajorAxis) then b.semimajorAxis.value / KmPerAu else 0.0,
      diameter := if Truthy(b.meanRadius) then b.meanRadius.value * 2.0 else 0.0,
      moons := MoonCount(b.moons),
      discoveryYear := OrText(b.discoveryDate, Prehistoric),
      gravity := Or(b.gravity, 0.0),
      density := Or(b.density, 0.0),
      escape := Or(b.escape, 0.0),
      sideralOrbit := Or(b.sideralOrbit, 0.0),
      sideralRotation := Or(b.sideralRotation, 0.0))
  }

  /** A body whose semimajor axis is exactly one unit lies at distance 1. */
  lemma OneAuIsOne(b: Body)
    requires b.semimajorAxis == Some(KmPerAu)
    ensures ToRow(b, 1).distanceFromSun == 1.0
  {
  }

  /** `bodies.filter(...)`: the planets and dwarf planets, in input order. */
  function Listed(bodies: seq<Body>): (listed: seq<Body>)
    ensures |listed| <= |bodies|
    ensures forall b :: b in listed <==> b in bodies && IsListed(b)
  {
    FilterMembership(bodies, IsListed);
    Filter(bodies, IsListed)
  }

  /** The catalogue: the first `MaxRows` listed bodies, as rows numbered from 1. */
  function Project(bodies: seq<Body>): (rows: seq<Row>)
    ensures |rows| == Min(MaxRows, |Listed(bodies)|) && |rows| <= MaxRows
    ensures forall k :: 0 <= k < |rows| ==> rows[k].id == k + 1
    ensures forall k :: 0 <= k < |rows| ==> rows[k].kind == PlanetKind || rows[k].kind == DwarfKind
  {
    var kept := Listed(bodies)[..Min(MaxRows, |Listed(bodies)|)];
    seq(|kept|, k requires 0 <= k < |kept| => ToRow(kept[k], k + 1))
  }

  /**
   * The rows are built, in order, from a subsequence of the input made of
   * listed bodies only; when no more than `MaxRows` bodies are listed, every
   * listed body has its row.
   */
  lemma ProjectSources(bodies: seq<Body>)
    ensures var rows := Project(bodies);
            var sources := Listed(bodies)[..|rows|];
            && IsSubsequence(sources, bodies)
            && (forall k :: 0 <= k < |sources| ==> IsListed(sources[k]))
            && (forall k :: 0 <= k < |rows| ==> rows[k] == ToRow(sources[k], k + 1))
            && (|Listed(bodies)| <= MaxRows ==> forall b :: b in bodies && IsListed(b) ==> b in sources)
  {
    var rows := Project(bodies);
    FilterIsSubsequence(bodies, IsListed);
    SubsequencePrefix(Listed(bodies), bodies, |rows|);
    FilterMembership(bodies, IsListed);
    if |Listed(bodies)| <= MaxRows {
      assert Listed(bodies)[..|rows|] == Listed(bodies);
    }
  }

  /** Every row's name is present: the search filter calls `toLowerCase` on it. */
  predicate AllNamed(rows: seq<Row>) {
    forall k :: 0 <= k < |rows| ==> rows[k].name.Some?
  }

  /** The search box and type selection: case-insensitive substring match and exact type match. */
  predicate MatchesFilter(r: Row, searchTerm: string, objectType: string) {
    && r.name.Some?
    && Contains(Lower(r.name.value), Lower(searchTerm))
    && (objectType == AllKinds || r.kind == objectType)
  }

  function Matcher(searchTerm: string, objectType: string): Row -> bool {
    r => MatchesFilter(r, searchTerm, objectType)
  }

  /** `filteredObjects`: the rows the search box and type selection let through. */
  function SearchFilter(rows: seq<Row>, searchTerm: string, objectType: string): (results: seq<Row>)
    requires AllNamed(rows)
    ensures |results| <= |rows|
    ensures forall r :: r in results <==> r in rows && MatchesFilter(r, searchTerm, objectType)
  {
    FilterMembership(rows, Matcher(searchTerm, objectType));
    Filter(rows, Matcher(searchTerm, objectType))
  }

  /**
   * The filtered list keeps the catalogue order and keeps a row exactly when
   * its lowercased name includes the lowercased term and its type is the
   * selected one (or the selection is "all"), as often as the catalogue holds it.
   */
  lemma SearchFilterSpec(rows: seq<Row>, searchTerm: string, objectType: string)
    requires AllNamed(rows)
    ensures var results := SearchFilter(rows, searchTerm, objectType);
            && IsSubsequence(results, rows)
            && (forall r :: r in results <==> r in rows && MatchesFilter(r, searchTerm, objectType))
            && (forall r :: multiset(results)[r] == if MatchesFilter(r, searchTerm, objectType) then multiset(rows)[r] else 0)
            && (forall k :: 0 <= k < |results| ==>
                  && Contains(Lower(results[k].name.value), Lower(searchTerm))
                  && (objectType == AllKinds || results[k].kind == objectType))
  {
    var results := SearchFilter(rows, searchTerm, objectType);
    FilterIsSubsequence(rows, Matcher(searchTerm, objectType));
    FilterMembership(rows, Matcher(searchTerm, objectType));
    assert forall k :: 0 <= k < |results| ==> Matcher(searchTerm, objectType)(results[k]);
    forall r
      ensures multiset(results)[r] == if MatchesFilter(r, searchTerm, objectType) then multiset(rows)[r] else 0
    {
      FilterMultiplicity(rows, Matcher(searchTerm, objectType), r);
    }
  }

  /** The search ignores the case of the term: terms that lowercase alike select the same rows. */
  lemma SearchIgnoresCase(rows: seq<Row>, term1: string, term2: string, objectType: string)
    requires AllNamed(rows) && Lower(term1) == Lower(term2)
    ensures SearchFilter(rows, term1, objectType) == SearchFilter(rows, term2, objectType)
  {
    FilterCongruent(rows, Matcher(term1, objectType), Matcher(term2, objectType));
  }

  /** Searching for a term is searching for its lowercased form. */
  lemma SearchByLowercasedTerm(rows: seq<Row>, searchTerm: string, objectType: string)
    requires AllNamed(rows)
    ensures SearchFilter(rows, searchTerm, objectType) == SearchFilter(rows, Lower(searchTerm), objectType)
  {
    LowerIdempotent(searchTerm);
    SearchIgnoresCase(rows, searchTerm, Lower(searchTerm), objectType);
  }

  /** With an empty search term and "all" selected, every row is shown. */
  lemma EmptySearchShowsAll(rows: seq<Row>)
    requires AllNamed(rows)
    ensures SearchFilter(rows, "", AllKinds) == rows
  {
    forall k | 0 <= k < |rows|
      ensures Matcher("", AllKinds)(rows[k])
    {
      ContainsEmpty(Lower(rows[k].name.value));
    }
    FilterAll(rows, Matcher("", AllKinds));
  }

  // Statistics

  function TotalObjects(rows: seq<Row>): nat {
    |rows|
  }

  function DiameterOf(r: Row): real {
    r.diameter
  }

  function MoonsOf(r: Row): real {
    r.moons as real
  }

  /** Sum of the rows' moon counts: the `nat` form of `SumBy(rows, MoonsOf)`, as `totalMoons` is an integer. */
  function SumMoons(rows: seq<Row>): (n: nat)
    ensures n as real == SumBy(rows, MoonsOf)
    decreases |rows|
  {
    if rows == [] then 0 else rows[0].moons + SumMoons(rows[1..])
  }

  /** `totalMoons`, with the source's guard for the empty catalogue. */
  function TotalMoons(rows: seq<Row>): (n: nat)
    ensures n as real == SumBy(rows, MoonsOf)
    ensures rows == [] ==> n == 0
  {
    if |rows| > 0 then SumMoons(rows) else 0
  }

  /** `averageDiameter`, as the exact quotient before `toFixed(2)`. */
  function AverageDiameter(rows: seq<Row>): (average: real)
    ensures rows == [] ==> average == 0.0
    ensures rows != [] ==> average * |rows| as real == SumBy(rows, DiameterOf)
  {
    if |rows| > 0 then SumBy(rows, DiameterOf) / |rows| as real else 0.0
  }

  /** The average lies between the smallest and the largest diameter. */
  lemma AverageDiameterSpec(rows: seq<Row>, lo: real, hi: real)
    requires forall k :: 0 <= k < |rows| ==> lo <= rows[k].diameter <= hi
    ensures rows != [] ==> lo <= AverageDiameter(rows) <= hi
  {
    if rows != [] {
      SumByBounds(rows, DiameterOf, lo, hi);
      QuotientBounds(AverageDiameter(rows), |rows| as real, SumBy(rows, DiameterOf), lo, hi);
    }
  }

  /** A quotient of a sum bounded by `n * lo` and `n * hi` lies in [lo, hi]. */
  lemma QuotientBounds(average: real, n: real, sum: real, lo: real, hi: real)
    requires n > 0.0 && average * n == sum && n * lo <= sum <= n * hi
    ensures lo <= average <= hi
  {
    assert (average - lo) * n == sum - n * lo;
    assert (hi - average) * n == n * hi - sum;
  }

  // Chart data

  datatype DiameterPoint = DiameterPoint(name: Option<string>, diameter: real)
  datatype MoonPoint = MoonPoint(name: Option<string>, moons: nat)
  datatype Slice = Slice(name: string, value: nat)

  predicate HasDiameter(r: Row) {
    r.diameter > 0.0
  }

  predicate HasMoons(r: Row) {
    r.moons > 0
  }

  function ToDiameterPoint(r: Row): DiameterPoint {
    DiameterPoint(r.name, r.diameter)
  }

  function ToMoonPoint(r: Row): MoonPoint {
    MoonPoint(r.name, r.moons)
  }

  function PointDiameter(p: DiameterPoint): real {
    p.diameter
  }

  function PointMoons(p: MoonPoint): real {
    p.moons as real
  }

  /** `diameterChartData`: rows with a positive diameter, largest first. */
  function DiameterChartData(rows: seq<Row>): (points: seq<DiameterPoint>)
    ensures |points| == |Filter(rows, HasDiameter)| && |points| <= |rows|
    ensures forall k :: 0 <= k < |points| ==> points[k].diameter > 0.0
  {
    SortedFilter(rows, HasDiameter, DiameterOf);
    Map(SortDesc(Filter(rows, HasDiameter), DiameterOf), ToDiameterPoint)
  }

  /** `moonChartData`: rows with at least one moon, most moons first. */
  function MoonChartData(rows: seq<Row>): (points: seq<MoonPoint>)
    ensures |points| == |Filter(rows, HasMoons)| && |points| <= |rows|
    ensures forall k :: 0 <= k < |points| ==> points[k].moons > 0
  {
    SortedFilter(rows, HasMoons, MoonsOf);
    Map(SortDesc(Filter(rows, HasMoons), MoonsOf), ToMoonPoint)
  }

  /** The diameter chart is a permutation of the points of exactly the rows with a positive diameter. */
  lemma DiameterChartIsPermutation(rows: seq<Row>)
    ensures multiset(DiameterChartData(rows)) == multiset(Map(Filter(rows, HasDiameter), ToDiameterPoint))
  {
    var kept := Filter(rows, HasDiameter);
    MapPermutation(SortDesc(kept, DiameterOf), kept, ToDiameterPoint);
  }

  /** The diameter chart runs from the largest diameter down, and every diameter in it is positive. */
  lemma DiameterChartIsSorted(rows: seq<Row>)
    ensures var points := DiameterChartData(rows);
            && (forall i, j :: 0 <= i < j < |points| ==> points[i].diameter >= points[j].diameter)
            && (forall k :: 0 <= k < |points| ==> points[k].diameter > 0.0)
  {
    SortedFilter(rows, HasDiameter, DiameterOf);
  }

  /** The moon chart is a permutation of the points of exactly the rows with moons. */
  lemma MoonChartIsPermutation(rows: seq<Row>)
    ensures multiset(MoonChartData(rows)) == multiset(Map(Filter(rows, HasMoons), ToMoonPoint))
  {
    var kept := Filter(rows, HasMoons);
    MapPermutation(SortDesc(kept, MoonsOf), kept, ToMoonPoint);
  }

  /** The moon chart runs from the most moons down, and every count in it is positive. */
  lemma MoonChartIsSorted(rows: seq<Row>)
    ensures var points := MoonChartData(rows);
            && (forall i, j :: 0 <= i < j < |points| ==> points[i].moons >= points[j].moons)
            && (forall k :: 0 <= k < |points| ==> points[k].moons > 0)
  {
    var sorted := SortDesc(Filter(rows, HasMoons), MoonsOf);
    SortedFilter(rows, HasMoons, MoonsOf);
    forall i, j | 0 <= i < j < |sorted|
      ensures sorted[i].moons >= sorted[j].moons
    {
      assert MoonsOf(sorted[i]) >= MoonsOf(sorted[j]);
    }
  }

  /** The moon chart shows every moon counted in the total. */
  lemma MoonChartCountsEveryMoon(rows: seq<Row>)
    ensures SumBy(MoonChartData(rows), PointMoons) == TotalMoons(rows) as real
  {
    var kept := Filter(rows, HasMoons);
    var sorted := SortDesc(kept, MoonsOf);
    SumByMap(sorted, ToMoonPoint, PointMoons, MoonsOf);
    SumByPermutation(sorted, kept, MoonsOf);
    SumByFilter(rows, HasMoons, MoonsOf);
  }

  /** With no negative diameter, the diameter chart adds up to the same total as the catalogue. */
  lemma DiameterChartKeepsTotal(rows: seq<Row>)
    requires forall k :: 0 <= k < |rows| ==> rows[k].diameter >= 0.0
    ensures SumBy(DiameterChartData(rows), PointDiameter) == SumBy(rows, DiameterOf)
  {
    var kept := Filter(rows, HasDiameter);
    var sorted := SortDesc(kept, DiameterOf);
    SumByMap(sorted, ToDiameterPoint, PointDiameter, DiameterOf);
    SumByPermutation(sorted, kept, DiameterOf);
    SumByFilter(rows, HasDiameter, DiameterOf);
  }

  predicate IsPlanetRow(r: Row) {
    r.kind == PlanetKind
  }

  predicate IsDwarfRow(r: Row) {
    r.kind == DwarfKind
  }

  function KindOf(r: Row): string {
    r.kind
  }

  /** Filtering by a predicate that tests for one type counts the rows of that type. */
  lemma {:induction false} FilterCountsKind(rows: seq<Row>, p: Row -> bool, kind: string)
    requires forall k :: 0 <= k < |rows| ==> (p(rows[k]) <==> rows[k].kind == kind)
    ensures |Filter(rows, p)| == multiset(Map(rows, KindOf))[kind]
    decreases |rows|
  {
    if rows != [] {
      FilterCountsKind(rows[1..], p, kind);
      assert Map(rows, KindOf) == [rows[0].kind] + Map(rows[1..], KindOf);
    }
  }

  /** `typeDistributionData`: the planet and dwarf-planet counts. */
  function TypeDistributionData(rows: seq<Row>): (slices: seq<Slice>)
    ensures |slices| == 2 && slices[0].name == "Planets" && slices[1].name == "Dwarf Planets"
    ensures slices[0].value <= |rows| && slices[1].value <= |rows|
    ensures slices[0].value == 0 <==> forall r :: r in rows ==> r.kind != PlanetKind
    ensures slices[1].value == 0 <==> forall r :: r in rows ==> r.kind != DwarfKind
    ensures slices[0].value == multiset(Map(rows, KindOf))[PlanetKind]
    ensures slices[1].value == multiset(Map(rows, KindOf))[DwarfKind]
  {
    FilterCountsKind(rows, IsPlanetRow, PlanetKind);
    FilterCountsKind(rows, IsDwarfRow, DwarfKind);
    var planets, dwarfs := Filter(rows, IsPlanetRow), Filter(rows, IsDwarfRow);
    FilterMembership(rows, IsPlanetRow);
    FilterMembership(rows, IsDwarfRow);
    assert planets != [] ==> planets[0] in planets;
    assert dwarfs != [] ==> dwarfs[0] in dwarfs;
    [Slice("Planets", |Filter(rows, IsPlanetRow)|), Slice("Dwarf Planets", |Filter(rows, IsDwarfRow)|)]
  }

  /** On the catalogue, the two slices of the type chart add up to the number of rows. */
  lemma TypeDistributionCoversCatalog(bodies: seq<Body>)
    ensures var rows := Project(bodies);
            var slices := TypeDistributionData(rows);
            |slices| == 2 && slices[0].value + slices[1].value == TotalObjects(rows)
  {
    var rows := Project(bodies);
    FilterPartition(rows, IsPlanetRow, IsDwarfRow);
  }
}
