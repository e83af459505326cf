# Space dashboard data shaping, in Dafny

This project models the client-side data logic of a React dashboard. The dashboard lists planets and dwarf planets from the Solar System OpenData API and shows a detail page per body. Two components hold the logic:

- **Dashboard** (`src/routes/Dashboard.jsx`). It projects the API's body list onto at most 15 catalogue rows. It filters those rows by a search term and a type selection. It computes the summary statistics (count, mean diameter, total moons) and the data behind the diameter, type-distribution and moon charts.
- **ObjectDetail** (`src/components/ObjectDetail.jsx`). It normalises one API body into a detail record and renders the mass. It generates twelve orbit samples (time, distance, temperature) for the charts.

JavaScript truthiness decides every default. A present `0` behaves exactly like a missing field. Module `Js` models this with an `Option` type and the predicates `Truthy` (numbers), `TruthyText` (strings) and `TruthyFlag` (booleans). It also defines `Or`, which stands for `x || d`. Numbers are exact `real`s.

Files and modules:

- `js.dfy` (`Js`): optional fields, truthiness, `||`, ASCII `toLowerCase`, `includes`.
- `seqs.dfy` (`Seqs`): `filter`, `map`, sums (`reduce`), and a stable descending sort. It proves subsequence, multiplicity, permutation and sortedness lemmas for them.
- `bodies.dfy` (`Bodies`): the API body record.
- `dashboard.dfy` (`Dashboard`): projection, search filter, statistics, chart data.
- `objectdetail.dfy` (`ObjectDetail`): detail record, `formatMass`, and the sample generator. The generator is a method with a `for` loop that appends one sample per index, like the source's `push` loop.
- `consistency.dfy` (`Consistency`): the catalogue row and the detail record agree for a listed body.

The source field `type` is called `kind` here, because `type` is a reserved word in Dafny.

The orbit samples read the eccentricity as `data.eccentricity || 0.01667` (`src/components/ObjectDetail.jsx:88`). An eccentricity of exactly 0 is falsy, so it becomes 0.01667. With cosine 1 at Earth's semimajor axis, the first sample of such a body lies at 147.10420134 million km before rounding, not at 149.598. `ObjectDetail.ZeroEccentricityIsNotCircular` proves this.

## Model

| member | source | states |
|---|---|---|
| `Js.OrFallsBack` | src/routes/Dashboard.jsx:41-46 | `x \|\| d` yields `d` exactly when `x` is falsy or equals `d`. A present 0 therefore yields the default. A nonzero default never gives 0. |
| `Js.LowerIdempotent` | src/routes/Dashboard.jsx:66 | Lowercasing twice equals lowercasing once. No upper-case ASCII letter is left. |
| `Js.Lower` | src/routes/Dashboard.jsx:66 | `toLowerCase` keeps the length and lowercases each character in place (ASCII letters only). |
| `Js.Contains` | src/routes/Dashboard.jsx:66 | `includes` never finds a needle longer than the haystack, and every string includes itself. `Js.ContainsIff` gives its full meaning. |
| `Js.ContainsIff` | src/routes/Dashboard.jsx:66 | `includes` holds exactly when the needle occurs at some offset of the haystack. |
| `Js.ContainsEmpty` | src/routes/Dashboard.jsx:66 | Every string includes the empty search term. |
| `Seqs.Filter` | src/routes/Dashboard.jsx:32 | `filter` returns no more elements than its input, and each of them satisfies the predicate. |
| `Seqs.FilterIsSubsequence` | src/routes/Dashboard.jsx:32 | `filter` keeps the input order: its result is a subsequence of the input. |
| `Seqs.FilterMultiplicity` | src/routes/Dashboard.jsx:32 | `filter` keeps each element that satisfies the predicate as often as it occurs, and drops the others. |
| `Seqs.FilterCongruent` | src/routes/Dashboard.jsx:65-69 | Two predicates that agree on every element give the same filtered list. |
| `Seqs.Map` | src/routes/Dashboard.jsx:34 | `map` keeps the length and applies the function at every index. |
| `Seqs.SumBy` | src/routes/Dashboard.jsx:76-79 | `reduce` with `+` from 0 gives 0 for an empty list and the single term for a one-element list. The append, permutation, filter and bounds lemmas beside it give the rest. |
| `Seqs.Insert` | src/routes/Dashboard.jsx:88 | One insertion step of the sort adds exactly one element, `x`, and keeps all the others. |
| `Seqs.SortDesc` | src/routes/Dashboard.jsx:88 | The sorted list is a permutation of its input. |
| `Seqs.SortDescSorted` | src/routes/Dashboard.jsx:88 | The sorted list is in non-increasing order of the key, as the comparator `b - a` asks. |
| `Seqs.SortedFilter` | src/routes/Dashboard.jsx:86-88 | Sorting a filtered list gives a permutation of the filtered list, in key order, made only of elements that pass the filter. |
| `Bodies.MoonCount` | src/routes/Dashboard.jsx:40 | The moon count is the length of the moons array when it is present, and 0 when it is absent. It is 0 exactly when the array is absent or empty. |
| `Dashboard.ToRow` | src/routes/Dashboard.jsx:34-47 | A row's type is "planet" exactly when `isPlanet` is truthy, and "dwarf planet" otherwise. Diameter is twice the mean radius, and 0 exactly when the radius is falsy. Distance times 149598000 is the semimajor axis, or 0. Moons is the list length. Discovery year defaults to "Prehistoric". Gravity, density, escape, orbit and rotation are 0 exactly when their source is falsy, and copied otherwise. |
| `Dashboard.OneAuIsOne` | src/routes/Dashboard.jsx:38 | A semimajor axis of 149598000 km gives distance 1 AU. |
| `Dashboard.Listed` | src/routes/Dashboard.jsx:32 | The listed bodies are exactly the input's planets (`isPlanet` truthy) and bodies of type "Dwarf Planet", and there are no more of them than input bodies. `Dashboard.ProjectSources` adds that they keep the input order. |
| `Dashboard.Project` | src/routes/Dashboard.jsx:31-37 | The catalogue has exactly min(15, number of listed bodies) rows. The row at index k has id k+1. Every row's type is "planet" or "dwarf planet". |
| `Dashboard.ProjectSources` | src/routes/Dashboard.jsx:31-35 | The rows come, in order, from an order-preserving subsequence of the input. That subsequence holds only planets and dwarf planets. With at most 15 listed bodies, every listed body has a row. |
| `Dashboard.SearchFilter` | src/routes/Dashboard.jsx:65-69 | A row is in the result exactly when it is in the catalogue, its lowercased name includes the lowercased term, and its type equals the selection (or the selection is "all"). |
| `Dashboard.SearchFilterSpec` | src/routes/Dashboard.jsx:65-69 | The filtered list is a subsequence of the catalogue. A row is kept exactly when its lowercased name includes the lowercased term and its type equals the selection (or the selection is "all"). A kept row appears as often as in the catalogue. |
| `Dashboard.SearchIgnoresCase` | src/routes/Dashboard.jsx:66 | Two search terms that lowercase to the same text select the same rows, in the same order. |
| `Dashboard.SearchByLowercasedTerm` | src/routes/Dashboard.jsx:66 | Searching for a term gives the same rows as searching for its lowercased form. |
| `Dashboard.EmptySearchShowsAll` | src/routes/Dashboard.jsx:65-69 | An empty term with "all" selected returns every row. |
| `Dashboard.SumMoons` | src/routes/Dashboard.jsx:82 | The integer moon sum equals the real sum of the rows' moon counts. |
| `Dashboard.TotalMoons` | src/routes/Dashboard.jsx:81-83 | `totalMoons` is the sum of the rows' moon counts, and 0 for an empty catalogue. |
| `Dashboard.AverageDiameter` | src/routes/Dashboard.jsx:75-80 | The average diameter is 0 for an empty catalogue. Otherwise, the average times the number of rows equals the sum of the diameters. |
| `Dashboard.AverageDiameterSpec` | src/routes/Dashboard.jsx:75-80 | When every diameter lies in [lo, hi], the average does too. |
| `Dashboard.DiameterChartData` | src/routes/Dashboard.jsx:86-92 | The diameter chart has one point per row with a positive diameter, and every diameter in it is positive. |
| `Dashboard.DiameterChartIsPermutation` | src/routes/Dashboard.jsx:86-92 | The diameter chart is a permutation of the points of exactly the rows with a positive diameter. |
| `Dashboard.DiameterChartIsSorted` | src/routes/Dashboard.jsx:86-92 | The diameter chart is sorted in non-increasing order of diameter, and every diameter in it is positive. |
| `Dashboard.DiameterChartKeepsTotal` | src/routes/Dashboard.jsx:86-92 | With no negative diameter, the chart's diameters add up to the catalogue's total. |
| `Dashboard.MoonChartData` | src/routes/Dashboard.jsx:100-106 | The moon chart has one point per row with moons, and every count in it is positive. |
| `Dashboard.MoonChartIsPermutation` | src/routes/Dashboard.jsx:100-106 | The moon chart is a permutation of the points of exactly the rows with moons. |
| `Dashboard.MoonChartIsSorted` | src/routes/Dashboard.jsx:100-106 | The moon chart is sorted in non-increasing order of moon count, and every count in it is positive. |
| `Dashboard.MoonChartCountsEveryMoon` | src/routes/Dashboard.jsx:100-106 | The moon chart's counts add up to `totalMoons`. |
| `Dashboard.TypeDistributionData` | src/routes/Dashboard.jsx:94-97 | There are two slices, "Planets" and "Dwarf Planets". Each slice's value is the number of rows of that type (the multiplicity of the type among the rows' types). Neither count exceeds the number of rows. A count is 0 exactly when no row has that type. |
| `Dashboard.FilterCountsKind` | src/routes/Dashboard.jsx:95-96 | Filtering the rows by a test for one type keeps as many rows as there are rows of that type. |
| `Dashboard.TypeDistributionCoversCatalog` | src/routes/Dashboard.jsx:74-97 | On the catalogue, the planet and dwarf-planet slices add up to `totalObjects` (`Dashboard.TotalObjects`, the number of rows). |
| `ObjectDetail.Transform` | src/components/ObjectDetail.jsx:27-41 | The type is "Planet" when `isPlanet` is truthy, and otherwise the raw `bodyType`. `moons` is the length of `moonsList`. `moonsList` is empty exactly when the source has no moons. Discovery date defaults to "Prehistoric" and discoverer to "Unknown", exactly when the source value is falsy (or already that text); otherwise both are copied. The mass is null exactly when the source mass is absent, and otherwise it carries the same value and exponent. |
| `ObjectDetail.TransformCopiesMeasurements` | src/components/ObjectDetail.jsx:28-58 | Identity, orbital and physical fields are copied unchanged, with no defaulting. |
| `ObjectDetail.FormatMass` | src/components/ObjectDetail.jsx:106-109 | A null mass renders as "Unknown". A present mass renders as text ending in " kg". |
| `ObjectDetail.FormatMassUnknownIff` | src/components/ObjectDetail.jsx:106-109 | `formatMass` gives "Unknown" exactly when the mass is null, whatever the number rendering. |
| `ObjectDetail.DetailMassUnknownIff` | src/components/ObjectDetail.jsx:38-41 | The detail page shows "Unknown" mass exactly when the API body has no mass. |
| `ObjectDetail.FallbacksNeverZero` | src/components/ObjectDetail.jsx:84-89 | The period, eccentricity and semimajor axis used are never 0. An eccentricity of exactly 0 becomes 0.01667. A period of 0 becomes 365. An axis of 0 becomes 149598000. |
| `ObjectDetail.ZeroEccentricityIsNotCircular` | src/components/ObjectDetail.jsx:87-89 | With eccentricity 0, Earth's axis and cosine 1, the first sample lies at 147.10420134 million km, not at 149.598. |
| `ObjectDetail.SampleAt` | src/components/ObjectDetail.jsx:87-95 | Sample i has time i·P/12, where P is the period with its 365-day fallback. Its distance in million km is the semimajor axis times 1 − e·cos(2πi/12), with Earth's fallbacks for the axis and e. Its temperature is 0 when `avgTemp` is falsy. |
| `ObjectDetail.SampleAtSpec` | src/components/ObjectDetail.jsx:91-95 | Sample i has time i·P/12, where P is the period with its 365-day fallback. For a positive P, times lie in [0, P). Temperature is 0 when `avgTemp` is falsy. Otherwise it lies in (avgTemp − 10, avgTemp] for a draw in [0, 1). |
| `ObjectDetail.SampleTimesIncrease` | src/components/ObjectDetail.jsx:92 | With a positive period, sample times grow strictly with the index. |
| `ObjectDetail.GenerateHistoricalData` | src/components/ObjectDetail.jsx:77-99 | The loop produces exactly 12 samples in index order, each the sample at its index. The first time is 0. Times are strictly increasing and below the period when it is positive. Every temperature is 0 when `avgTemp` is falsy. |
| `Consistency.RowAgreesWithDetail` | src/components/ObjectDetail.jsx:29-37 | For a listed body, the row is "planet" exactly when the detail type is "Planet", and "dwarf planet" exactly when it is "Dwarf Planet". Name, moons and discovery date agree between row and detail. The row's zero defaults are the detail's missing values. |

## Left out

- Network I/O is not modelled: the `fetch` calls, the `response.ok` check and the error strings built from failures.
- React state and effect wiring are not modelled. This includes the loading and error flags, and the missing guard against a stale detail response overwriting a newer one. These are UI lifecycle and asynchrony.
- JSX rendering and the Recharts components are not modelled. This includes the `typeof … === 'number'` display guards and the "Unknown" fallbacks in the detail markup. They are presentation.
- `About.jsx`, `Layout.jsx`, `NotFound.jsx` and `DetailView.jsx` are not part of this model. They are presentational or routing code only.
- `toFixed` and `toLocaleString` are not modelled, because float-to-string rounding is out of scope. `distanceFromSun`, `averageDiameter`, and the sample distance and temperature are the exact real values before formatting. The model does not capture that the source stores `distanceFromSun`, `averageDiameter` and the sample values as strings.
- JavaScript floating-point arithmetic, and NaN, are not modelled. Numbers are exact reals, and JSON cannot carry NaN.
- `Math.cos` is a parameter `cosTurn`, with `cosTurn(t)` standing for the cosine of `t` full turns. Trigonometry is not modelled.
- `Math.random` is a parameter `random`, which gives the draw for each sample index. Randomness is not modelled.
- JavaScript's number-to-string conversion in `formatMass` is a parameter `show`.
- Js.Lower: lowercases ASCII letters only, so Unicode case folding in `toLowerCase` is not modelled.
- Dashboard.SearchFilter: requires every row to have a name, because the source's `object.name.toLowerCase()` throws when `englishName` is missing. The crash itself is not modelled.
- The `typeof obj.diameter === 'number'` guards in the average and the diameter chart are not modelled separately, because a row's diameter is always a number here.
- Seqs.SortDesc: the sort is stable, like `Array.prototype.sort`, but stability is not proved. Only sortedness and permutation are stated.
- The contents of a `moons` entry and the inner `mass` fields are taken as given. Only the moon count and the presence of a mass are used.
