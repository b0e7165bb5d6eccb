# NYC transit travel-time heatmap — verified model of the data service

This project models the computational core of a React Native app that paints
estimated New York subway travel times around the user. The core is the
`TransitDataService` class. It covers:

- a cache with a live-data switch, which decides when a snapshot is rebuilt;
- three square sample lattices around a centre: estimated, mock and accessibility;
- the zoom-to-lattice-size table;
- a travel-time estimator built on a synthetic "nearby station";
- the station layer, which estimates every catalog station and keeps the
  fastest point per rounded location;
- the per-cell optimum of the accessibility heatmap (transit to a walkable
  station, then walk).

Around it are three small pure tables:

- the colour bands with their `#RRGGBB` to rgba conversion;
- the circle radius step function and one-circle-per-point mapping of the map layer;
- the screen's zoom-to-density table, heatmap-centre choice and zoom guard.

Modelling choices:

- Numbers are mathematical reals. Great-circle distance is a parameter
  `dist: (Coord, Coord) -> Km`, which may be any non-negative function.
- `Math.random()` values are `Unit` draws in [0, 1). The draws of the k-th
  estimate of a computation are `rand(k)`.
- Clock readings are integer milliseconds passed in by the caller.
- The station catalog is an input sequence.
- Operations that loop or mutate are methods, each proved equal to a
  specification function. The properties are lemmas about those functions.

Files (one module each):

- `types.dfy`: `TransitTypes`
- `estimator.dfy`: `TravelEstimator`
- `grid.dfy`: `TransitGrid`
- `accessibility.dfy`: `Accessibility`
- `reduction.dfy`: `StationReduction`
- `cache.dfy`: `TransitCache`
- `colors.dfy`: `ColorSchemes`
- `visualizer.dfy`: `TransitVisualizer`
- `app.dfy`: `TransitApp`

Observations the model makes explicit:

- **The accessibility heatmap ignores its 5 km set.**
  `calculateOptimalTravelTimeForPoint` receives the stations within 5 km but
  filters the whole catalog again at 1.5 km. A walkable station outside the
  5 km set therefore contributes the 60-minute default.
- **`|| 60` reads a stored 0 as missing.** Stored estimates are at least 3
  (`StationTimesBounds`), so this never happens (`StationTimesNeverDefault`).
- **The catalog has duplicate ids**, so the id-keyed memo keeps the estimate
  of the last station with each id (`StationTimesLastWriterWins`).
- **The Bronx band is only reached west of longitude -74.0.** The mock
  station lookup tests the Manhattan band (latitude above 40.7 and longitude
  above -74.0) first. Any point north of 40.8 and east of -74.0 is therefore
  placed in the Manhattan band (`BronxOnlyWestOfManhattanTest`).
- **The screen bypasses the cache.** `fetchTransitData` calls
  `getAccessibilityHeatmapData` or `getSubwayStationsData` directly, never
  `getTransitData`, so the cache is left as it was (`App.FetchTransitData`).
- **A negative travel time indexes before the start of a palette.**
  JavaScript reads that as `undefined`, and `getColorWithOpacity` would then
  throw. Both are modelled as `None`. Every estimate is at least 3 minutes, so
  this is not reached from the service.

## Model

| member | source | states |
|---|---|---|
| TransitTypes.Clamp | services/TransitDataService.ts:653 | the clamped value lies in [lo, hi]: it is x inside the range, lo below it, hi above it |
| TravelEstimator.BandOf | services/TransitDataService.ts:586-624 | Manhattan exactly when latitude > 40.7 and longitude > -74.0. Outer borough exactly when not Manhattan and latitude < 40.6. Bronx exactly when neither and latitude > 40.8. The default band exactly for the rest |
| TravelEstimator.BronxOnlyWestOfManhattanTest | services/TransitDataService.ts:586-614 | the Bronx band is chosen only for longitudes at or below -74.0 |
| TravelEstimator.NearbyStations | services/TransitDataService.ts:579-631 | exactly one station: the band's id and lines, each coordinate within half the band's jitter width (0.01, 0.02, 0.015) of the point, and exactly the point in the default band |
| TravelEstimator.CommonLines | services/TransitDataService.ts:645 | a line is common exactly when it is a line of both stations |
| TravelEstimator.TransferPenalty | services/TransitDataService.ts:644-648 | 5 minutes exactly when the stations share no line, 0 exactly when they share one |
| TravelEstimator.CalculateMTATravelTime | services/TransitDataService.ts:633-658 | whatever the noise, the result is in [3, 90] and between the clamped base minus 5 and the clamped base plus 5. With the base in [8, 85] it lies in [base - 5, base + 5) |
| TravelEstimator.MTATravelTime | services/TransitDataService.ts:560-577 | 60 when either station list is empty, otherwise the estimate between the two first stations; always in [3, 90] |
| TravelEstimator.EstimateTravelTime | services/TransitDataService.ts:560-577 | the point-to-point estimate through both mock station lookups is in [3, 90]. `EstimateNeverFallsBack` shows it is always the station-to-station estimate |
| TravelEstimator.EstimateNeverFallsBack | services/TransitDataService.ts:563-571 | the mock lookup always finds a station, so every estimate is the station-to-station estimate and the 60 fallback is never taken |
| TravelEstimator.MockTravelTime | services/TransitDataService.ts:697-711 | the mock cell time is in [3, 90] and within [-7, +8] minutes (clamped) of 2.5 min/km scaled by 0.7 (Manhattan) or 1.2 (outer boroughs) |
| TransitGrid.GridSize | services/TransitDataService.ts:498-508 | 50 for an absent or zero zoom; otherwise 100, 80, 60, 40, 25 or 15 by the thresholds 16, 14, 12, 10, 8 |
| TransitGrid.GridSizeMonotone | services/TransitDataService.ts:498-508 | from zoom 1 upwards a larger zoom never gives a smaller grid |
| TransitGrid.GridSizeZeroZoomIsDefault | services/TransitDataService.ts:500 | zoom 0 counts as absent (50), which breaks monotonicity at zoom 0 |
| TransitGrid.RowMajor | services/TransitDataService.ts:524-525 | cell (i, j) of an n-by-n lattice is number i·n + j < n², and that number gives back row i and column j |
| TransitGrid.LatticeWithinBox | services/TransitDataService.ts:519-527 | every lattice point lies in [c - r, c + r) on both axes |
| TransitGrid.CellOrder | services/TransitDataService.ts:524-527 | cell (i, j) comes before every cell in a later row or later in the same row: smaller latitude, or equal latitude and smaller longitude |
| TransitGrid.LatticeRowMajorOrder | services/TransitDataService.ts:524-527 | a later point has a greater latitude, or the same latitude and a greater longitude |
| TransitGrid.RowsAt | services/TransitDataService.ts:524-539 | the first m rows hold m·n points, and point i·n + j is cell (i, j) with the time of call i·n + j |
| TransitGrid.LatticePointAt | services/TransitDataService.ts:524-539 | point k of the lattice is at row k / n, column k % n, with the time of call k |
| TransitGrid.LatticePointsBounds | services/TransitDataService.ts:519-527 | every point is in the box, and every time is within any bounds the per-cell time obeys |
| TransitGrid.IndependentGridsShape | services/TransitDataService.ts:510-558 | the estimated and the mock lattice both have GridSize(zoom)² points, inside the 0.01 box, each with a time in [3, 90] |
| TransitGrid.MTARow | services/TransitDataService.ts:525-551 | the inner loop builds exactly row i of the estimated lattice |
| TransitGrid.MockRow | services/TransitDataService.ts:692-718 | the inner loop builds exactly row i of the mock lattice |
| TransitGrid.GetMTATransitData | services/TransitDataService.ts:510-558 | the nested loop builds exactly the row-major lattice of estimates from the user |
| TransitGrid.GetMockTransitData | services/TransitDataService.ts:676-725 | the nested loop builds exactly the row-major lattice of mock times |
| Accessibility.WalkingTime | services/TransitDataService.ts:938-942 | walking for the result at 0.083 km/min covers exactly the distance |
| Accessibility.FindNearbyStations | services/TransitDataService.ts:927-935 | a station is kept exactly when it is in the catalog and within the distance |
| Accessibility.FindNearbyStationsAppend | services/TransitDataService.ts:927-935 | the filter keeps catalog order: filtering a concatenation concatenates the filtered parts |
| Accessibility.StationTimesLastWriterWins | services/TransitDataService.ts:853-856 | the memo holds, for each id, the estimate of the last nearby station with that id |
| Accessibility.StationTimesKeys | services/TransitDataService.ts:853-856 | the memo's keys are exactly the ids of the nearby stations |
| Accessibility.StationTimesBounds | services/TransitDataService.ts:853-856 | every stored estimate is in [3, 90] |
| Accessibility.TransitTimeOrDefault | services/TransitDataService.ts:904 | the lookup gives the stored value when it is non-zero, and 60 when the id is missing or its stored value is 0 |
| Accessibility.StationTimesNeverDefault | services/TransitDataService.ts:904 | on the precomputed memo the 60-minute default is taken exactly for ids that are not stored |
| Accessibility.PrecomputeStationTimes | services/TransitDataService.ts:849-856 | the loop builds exactly the memo of the nearby stations |
| Accessibility.MinOf | services/TransitDataService.ts:899-917 | the running minimum is one of the route times and no route time is smaller |
| Accessibility.MinOfExtend | services/TransitDataService.ts:914-916 | one more step replaces the minimum only when the new route is strictly faster |
| Accessibility.OptimalTime | services/TransitDataService.ts:893-919 | the cell's time is in [3, 90], and it is 90 when no catalog station is within 1.5 km |
| Accessibility.OptimalTimeIsBestRoute | services/TransitDataService.ts:893-919 | with a walkable station, the time is the clamped route time through some walkable station, and no walkable station gives a faster clamped route |
| Accessibility.CalculateOptimalTravelTimeForPoint | services/TransitDataService.ts:886-924 | the loop over walkable stations computes exactly the optimal time (None standing for Infinity before the first route) |
| Accessibility.HeatmapShape | services/TransitDataService.ts:835-883 | the heatmap has gridDensity² points inside the 0.05 box, each with a time in [3, 90] |
| Accessibility.HeatmapRow | services/TransitDataService.ts:860-876 | the inner loop builds exactly row i of the heatmap lattice |
| Accessibility.GetAccessibilityHeatmapData | services/TransitDataService.ts:835-883 | the memo and the nested loop build exactly the heatmap lattice |
| StationReduction.Round | services/TransitDataService.ts:780 | `Math.round` gives the integer within half a unit of x, halves rounded up |
| StationReduction.Fastest | services/TransitDataService.ts:819-821 | the reduce returns a point of the group no slower than any other |
| StationReduction.FastestIsFirstMinimum | services/TransitDataService.ts:819-821 | ties go to the earliest point: the first point with the least time is the one kept |
| StationReduction.KeyOrderLength | services/TransitDataService.ts:782-784 | there are no more locations than points |
| StationReduction.KeyOrderDistinct | services/TransitDataService.ts:782-784 | the first-seen key order lists no location twice |
| StationReduction.KeyOrderMatchesGroups | services/TransitDataService.ts:782-790 | a location is in the key order exactly when it has a group, and no group is empty |
| StationReduction.GroupsAreFilters | services/TransitDataService.ts:782-790 | each group is exactly the points with that location, in catalog order |
| StationReduction.KeyOrderPrefix | services/TransitDataService.ts:782-784 | the locations of the first m stations come first in the order: locations are reported in first-seen order |
| StationReduction.KeyOrderComplete | services/TransitDataService.ts:779-784 | every station's location is in the key order |
| StationReduction.ReduceGroupsAt | services/TransitDataService.ts:815-824 | with every listed key present and non-empty, the second loop yields one point per key, the fastest of its group |
| StationReduction.ReducedAt | services/TransitDataService.ts:768-824 | point i of the output is the fastest point with the i-th first-seen location |
| StationReduction.ReducedIsGroupMinimum | services/TransitDataService.ts:768-824 | one point per distinct location, in first-seen order, each a station point of that location no slower than any other station there |
| StationReduction.ReducedKeepsEarliestOfFastest | services/TransitDataService.ts:816-823 | for each location the point kept is the earliest of its fastest points |
| StationReduction.DistinctKeysGroups | services/TransitDataService.ts:779-790 | with all locations distinct, every group is one point and the order is catalog order |
| StationReduction.DistinctKeysUnchanged | services/TransitDataService.ts:768-824 | with all locations distinct, the reduction returns the station points unchanged |
| StationReduction.ReducedSubset | services/TransitDataService.ts:815-824 | the reduction keeps only points it was given, and no more than it was given |
| StationReduction.SubwayStationsBounds | services/TransitDataService.ts:767-832 | at most one point per catalog station, each at a catalog station's location with a time in [3, 90] |
| StationReduction.PushPoint | services/TransitDataService.ts:782-790 | the point is appended to its key's group, which starts empty when the key is new. Only a new key joins the order, at its end. No other group changes. The map and the order hold the same keys, being one JavaScript Map |
| StationReduction.GroupStations | services/TransitDataService.ts:768-812 | the first loop builds exactly the group map and the first-seen key order of the station points |
| StationReduction.ReduceStationGroups | services/TransitDataService.ts:815-824 | the second loop builds exactly the per-key reduction, in key order |
| StationReduction.GetSubwayStationsData | services/TransitDataService.ts:767-832 | the grouping loop and the reduce loop build exactly the reduction of the station points |
| TransitCache.NeedsFetch | services/TransitDataService.ts:463-477 | frozen mode fetches exactly when no snapshot is held; live mode also when there is no fetch time or more than the interval has passed (strict) |
| TransitCache.NeedsFetchMonotone | services/TransitDataService.ts:475-477 | a snapshot stale at one time is stale at every later time |
| TransitCache.LiveReuseWindow | services/TransitDataService.ts:475-477 | a live snapshot fetched at t is reused exactly up to t + interval inclusive |
| TransitCache.FetchFreshData | services/TransitDataService.ts:490-496 | the mock lattice when mock data is on, otherwise the estimated lattice |
| TransitCache.TransitDataService.constructor | services/TransitDataService.ts:449-457 | mock data off, a 5-minute interval, live data on, nothing cached |
| TransitCache.TransitDataService.GetTransitData | services/TransitDataService.ts:459-488 | on a fetch it stores and returns the fresh snapshot, stamped now; otherwise it returns the stored snapshot and leaves every field unchanged. The interval and the live flag never change |
| TransitCache.TransitDataService.RefreshData | services/TransitDataService.ts:740-744 | always fetches, in either mode, and stamps now |
| TransitCache.TransitDataService.SetRefreshInterval | services/TransitDataService.ts:747-749 | the interval becomes minutes·60000 and the cache is untouched |
| TransitCache.TransitDataService.SetLiveDataEnabled | services/TransitDataService.ts:752-759 | only the live flag changes |
| TransitCache.TransitDataService.GetLiveDataEnabled | services/TransitDataService.ts:762-764 | returns the live flag |
| TransitCache.LiveRefreshScenario | services/TransitDataService.ts:474-487 | live: fetched at t0, the same snapshot at t0 + 3 min, a new fetch at t0 + 6 min |
| TransitCache.FrozenScenario | services/TransitDataService.ts:462-472 | frozen: the first snapshot is still served 100 minutes later, until refreshData |
| ColorSchemes.PalettesWellFormed | utils/ColorSchemes.ts:7-108 | five schemes of fourteen colours, each "#" followed by six upper-case hexadecimal digits |
| ColorSchemes.TimeIndex | utils/ColorSchemes.ts:112-115 | a non-negative time falls in band k with 5k ≤ t < 5k + 5, or in the last band from 5(len - 1) on. A time below 5(len - 1) stays out of the last band. A negative time gives a negative index |
| ColorSchemes.TimeIndexMonotone | utils/ColorSchemes.ts:112-115 | the band index never decreases with the time |
| ColorSchemes.GetColorForTravelTime | utils/ColorSchemes.ts:110-118 | undefined exactly for negative times, otherwise a "#RRGGBB" colour of the chosen scheme |
| ColorSchemes.ColorBands | utils/ColorSchemes.ts:110-118 | colour k for times in [5k, 5k + 5) with k < 13, the last colour from 65 minutes on |
| ColorSchemes.RemoveFirst | utils/ColorSchemes.ts:124 | without the character the string is unchanged, with it one character shorter |
| ColorSchemes.RemoveFirstAt | utils/ColorSchemes.ts:124 | `replace` drops only the first occurrence |
| ColorSchemes.HexPairRoundTrip | utils/ColorSchemes.ts:125-127 | parsing a formatted channel gives the channel back |
| ColorSchemes.ParseHexPair | utils/ColorSchemes.ts:125-127 | base-16 reading of two digits: the value is at most 255, its sixteens digit is the first character and its units digit the second |
| ColorSchemes.ParseHexPairRoundTrip | utils/ColorSchemes.ts:125-127 | formatting a parsed upper-case pair gives the pair back |
| ColorSchemes.ChannelsOf | utils/ColorSchemes.ts:123-127 | each channel read from a colour is in [0, 255] |
| ColorSchemes.ChannelsRoundTrip | utils/ColorSchemes.ts:123-129 | writing the three channels back in hexadecimal gives the colour they were read from |
| ColorSchemes.GetColorWithOpacity | utils/ColorSchemes.ts:120-130 | None exactly for negative times; otherwise channels in [0, 255] that spell the band colour, with the requested opacity |
| TransitVisualizer.RadiusForTravelTime | components/TransitVisualizer.tsx:25-33 | 150, 200, 250, 300, 350 or 400 m, exactly by the inclusive limits 10, 20, 30, 45, 60 |
| TransitVisualizer.RadiusMonotone | components/TransitVisualizer.tsx:25-33 | the radius never decreases with the time |
| TransitVisualizer.Circles | components/TransitVisualizer.tsx:37-48 | one circle per point |
| TransitVisualizer.CirclesMatchPoints | components/TransitVisualizer.tsx:37-48 | circle i has key i, point i's centre and radius, and fill and stroke of one colour at opacities 0.4 and 0.8 |
| TransitVisualizer.ChannelsDetermineColor | components/TransitVisualizer.tsx:45-46 | equal hexadecimal spellings mean equal channels |
| TransitApp.GridDensity | App.tsx:79-88 | 30, 40, 50 or 60, exactly by the inclusive limits 10, 12, 14 |
| TransitApp.GridDensityMonotone | App.tsx:79-88 | the density never decreases as the zoom grows |
| TransitApp.HeatmapCenter | App.tsx:91-97 | the recorded region's centre when there is one, else the device location |
| TransitApp.PlanFetch | App.tsx:67-108 | nothing without a location; the heatmap at HeatmapCenter and GridDensity in heatmap mode; otherwise the stations at the device location |
| TransitApp.StationsIgnoreRegion | App.tsx:104-107 | the stations request does not depend on the map region |
| TransitApp.App.constructor | App.tsx:24-33 | no location, no data, live on, stations mode, zoom 12, no region, an empty service |
| TransitApp.App.HandleRegionChange | App.tsx:117-127 | the zoom is set only when it differs, and the region is always recorded |
| TransitApp.App.FetchTransitData | App.tsx:67-115 | stores the service's answer to PlanFetch, passes the live flag on, and leaves the service's cache and refresh interval untouched |

## Left out

- Great-circle distance (`calculateDistance`) is floating-point trigonometry. Every distance is the parameter `dist`, which may be any non-negative function.
- Floating point as a whole: coordinates, times and steps are reals, with no rounding error and no NaN.
- TransitGrid.GridSize: the zoom is an integer. The source accepts any number, but no caller passes a fractional zoom.
- Step: with a zero grid size JavaScript gets an Infinity step; the model takes 0. No point is built in that case.
- `Math.random` is replaced by the draws `rand(k)` of the k-th estimate, each in [0, 1). The model does not fix the order in which one shared generator would be consumed across cells.
- The `catch` fallbacks are not modelled. These are the 60-minute returns of `getMTATravelTime`, `calculateMTATravelTime` and `calculateOptimalTravelTimeForPoint`, the empty station list of `getNearbyStations`, and the distance-based fallback points of the lattice and station loops. Nothing in the modelled code throws.
- `fetchMTAData`, axios and the feed URL tables are network I/O that nothing in the core calls.
- The literal station catalog is not transcribed. It is the input `catalog`.
- async/await, `console` logging and `new Date()` are left out. Clock readings and the snapshot stamp are integer inputs.
- StationReduction.KeyOf: the key is the pair of rounded integers rather than the text `"lat,lng"`. Distinct rounded pairs always print as distinct strings, so the two keys group the same stations.
- ColorSchemes.GetColorWithOpacity: returns the channels and opacity, not the text `rgba(r, g, b, o)`.
- The screen is not modelled, apart from the table, centre choice and zoom guard. That covers:
  - the one-second debounce and overlapping fetches;
  - the logarithmic zoom computation of `handleRegionChange` (the zoom comes in already computed);
  - location permission prompts and all rendering.
- `TransitDataService` methods that keep no state are module-level here. These are the lattice builders, the station layer and the heatmap. Only the cache controller is a class.
- The selector, legend and toggle components, and the two Python GeoJSON scripts, are outside the core.
