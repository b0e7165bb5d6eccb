/** The accessibility heatmap of TransitDataService
    (getAccessibilityHeatmapData): transit times to the stations near the
    centre are computed once and kept by station id, then every lattice cell
    takes the best route "transit to a walkable station, then walk"
    (calculateOptimalTravelTimeForPoint, findNearbyStations,
    calculateWalkingTime). */
module Accessibility {
  import opened TransitTypes
  import opened TravelEstimator
  import opened TransitGrid

  /** Half-width, in degrees, of the heatmap lattice. */
  const HEATMAP_RADIUS: real := 0.05
  /** Stations within this many km of the centre get a precomputed transit time. */
  const TRANSIT_SEARCH_KM: real := 5.0
  /** Stations within this many km of a cell can be walked to. */
  const WALKABLE_KM: real := 1.5
  /** Walking speed, km per minute (5 km/h). */
  const WALKING_KM_PER_MINUTE: real := 0.083
  /** The travel time of a cell with no walkable station. */
  const NO_WALKABLE_MINUTES: real := 90.0

  /** calculateWalkingTime: minutes to walk `km` at 0.083 km per minute; walking
      that long at that speed covers exactly `km`. */
  function WalkingTime(km: Km): (minutes: real)
    ensures minutes >= 0.0
    ensures minutes * WALKING_KM_PER_MINUTE == km
  {
    km / WALKING_KM_PER_MINUTE
  }

  /** findNearbyStations: the catalog stations within `maxKm` of `point`, in catalog order. */
  function FindNearbyStations(catalog: seq<Station>, point: Coord, maxKm: real, dist: Distance): (r: seq<Station>)
    ensures |r| <= |catalog|
    ensures forall s :: s in r <==> s in catalog && dist(point, At(s)) <= maxKm
  {
    if |catalog| == 0 then []
    else (if dist(point, At(catalog[0])) <= maxKm then [catalog[0]] else [])
         + FindNearbyStations(catalog[1..], point, maxKm, dist)
  }

  /** The filter keeps catalog order: filtering a concatenation is the
      concatenation of the filtered parts. */
  lemma {:induction false} FindNearbyStationsAppend(a: seq<Station>, b: seq<Station>, point: Coord, maxKm: real, dist: Distance)
    ensures FindNearbyStations(a + b, point, maxKm, dist)
            == FindNearbyStations(a, point, maxKm, dist) + FindNearbyStations(b, point, maxKm, dist)
  {
    if |a| > 0 {
      assert (a + b)[1..] == a[1..] + b;
      FindNearbyStationsAppend(a[1..], b, point, maxKm, dist);
    } else {
      assert a + b == b;
    }
  }

  /** The precomputed transit times (stationTransitTimes): station number m of
      `nearby` gets the estimate from the centre with draws rand(m); a later
      station with the same id overwrites an earlier one. */
  function StationTimes(center: Coord, nearby: seq<Station>, dist: Distance, rand: Random): (memo: map<string, real>)
  {
    if |nearby| == 0 then map[]
    else
      var last := |nearby| - 1;
      StationTimes(center, nearby[..last], dist, rand)[nearby[last].id := EstimateTravelTime(center, At(nearby[last]), dist, rand(last))]
  }

  /** The memo has exactly the ids of `nearby`, and each id holds the estimate
      of the LAST station with that id. */
  lemma {:induction false} StationTimesLastWriterWins(center: Coord, nearby: seq<Station>, dist: Distance, rand: Random, m: nat)
    requires m < |nearby|
    requires forall later :: m < later < |nearby| ==> nearby[later].id != nearby[m].id
    ensures nearby[m].id in StationTimes(center, nearby, dist, rand)
    ensures StationTimes(center, nearby, dist, rand)[nearby[m].id] == EstimateTravelTime(center, At(nearby[m]), dist, rand(m))
  {
    var last := |nearby| - 1;
    var prefix := nearby[..last];
    if m < last {
      assert prefix[m] == nearby[m];
      assert forall later :: m < later < |prefix| ==> prefix[later] == nearby[later];
      StationTimesLastWriterWins(center, prefix, dist, rand, m);
      assert nearby[last].id != nearby[m].id;
    }
  }

  lemma {:induction false} StationTimesKeys(center: Coord, nearby: seq<Station>, dist: Distance, rand: Random)
    ensures forall id :: id in StationTimes(center, nearby, dist, rand) <==> exists s :: s in nearby && s.id == id
  {
    if |nearby| > 0 {
      var last := |nearby| - 1;
      StationTimesKeys(center, nearby[..last], dist, rand);
      assert nearby == nearby[..last] + [nearby[last]];
    }
  }

  /** Every stored estimate lies in [3, 90]. */
  lemma {:induction false} StationTimesBounds(center: Coord, nearby: seq<Station>, dist: Distance, rand: Random, id: string)
    requires id in StationTimes(center, nearby, dist, rand)
    ensures MIN_MINUTES <= StationTimes(center, nearby, dist, rand)[id] <= MAX_MINUTES
  {
    var last := |nearby| - 1;
    if nearby[last].id != id {
      StationTimesBounds(center, nearby[..last], dist, rand, id);
    }
  }

  /** No stored estimate is 0, so the default is taken exactly for ids outside the memo. */
  lemma StationTimesNeverDefault(center: Coord, nearby: seq<Station>, dist: Distance, rand: Random, id: string)
    ensures var memo := StationTimes(center, nearby, dist, rand);
            id in memo ==> TransitTimeOrDefault(memo, id) == memo[id]
    ensures id !in StationTimes(center, nearby, dist, rand) ==>
              TransitTimeOrDefault(StationTimes(center, nearby, dist, rand), id) == FALLBACK_MINUTES
  {
    if id in StationTimes(center, nearby, dist, rand) {
      StationTimesBounds(center, nearby, dist, rand, id);
    }
  }

  /** The loop that fills stationTransitTimes. */
  method PrecomputeStationTimes(center: Coord, nearby: seq<Station>, dist: Distance, rand: Random)
    returns (memo: map<string, real>)
    ensures memo == StationTimes(center, nearby, dist, rand)
  {
    memo := map[];
    for m := 0 to |nearby|
      invariant memo == StationTimes(center, nearby[..m], dist, rand)
    {
      assert nearby[..m + 1][..m] == nearby[..m];
      memo := memo[nearby[m].id := EstimateTravelTime(center, At(nearby[m]), dist, rand(m))];
    }
    assert nearby[..|nearby|] == nearby;
  }

  /** The memo lookup with its 60-minute default: a missing id, and a stored 0
      (which JavaScript reads as false), both give 60 minutes. */
  function TransitTimeOrDefault(memo: map<string, real>, id: string): (t: real)
    ensures t == FALLBACK_MINUTES || (id in memo && t == memo[id])
    ensures id in memo && memo[id] != 0.0 ==> t == memo[id]
    ensures id !in memo || memo[id] == 0.0 ==> t == FALLBACK_MINUTES
  {
    if id in memo && memo[id] != 0.0 then memo[id] else FALLBACK_MINUTES
  }

  /** Transit to station s, then walk from s to the cell. */
  function RouteTime(s: Station, cell: Coord, memo: map<string, real>, dist: Distance): real
  {
    TransitTimeOrDefault(memo, s.id) + WalkingTime(dist(At(s), cell))
  }

  function RouteTimes(stations: seq<Station>, cell: Coord, memo: map<string, real>, dist: Distance): (r: seq<real>)
    ensures |r| == |stations|
  {
    seq(|stations|, k requires 0 <= k < |stations| => RouteTime(stations[k], cell, memo, dist))
  }

  /** The running minimum of the loop: each value replaces the best so far only
      when strictly smaller. It is a member of `xs` and no member is smaller. */
  function MinOf(xs: seq<real>): (m: real)
    requires |xs| > 0
    ensures m in xs
    ensures forall k :: 0 <= k < |xs| ==> m <= xs[k]
  {
    if |xs| == 1 then xs[0]
    else
      var best := MinOf(xs[..|xs| - 1]);
      if xs[|xs| - 1] < best then xs[|xs| - 1] else best
  }

  /** One more step of the running minimum. */
  lemma MinOfExtend(xs: seq<real>, k: nat)
    requires 0 < k < |xs|
    ensures MinOf(xs[..k + 1]) == if xs[k] < MinOf(xs[..k]) then xs[k] else MinOf(xs[..k])
  {
    assert xs[..k + 1][..k] == xs[..k];
  }

  /** calculateOptimalTravelTimeForPoint: 90 when no catalog station is within
      1.5 km of the cell, otherwise the best route through a walkable station,
      clamped to [3, 90]. */
  function OptimalTime(cell: Coord, catalog: seq<Station>, memo: map<string, real>, dist: Distance): (r: real)
    ensures MIN_MINUTES <= r <= MAX_MINUTES
    ensures FindNearbyStations(catalog, cell, WALKABLE_KM, dist) == [] ==> r == NO_WALKABLE_MINUTES
  {
    var walkable := FindNearbyStations(catalog, cell, WALKABLE_KM, dist);
    if |walkable| == 0 then NO_WALKABLE_MINUTES
    else Clamp(MIN_MINUTES, MAX_MINUTES, MinOf(RouteTimes(walkable, cell, memo, dist)))
  }

  /** With a walkable station, the cell's time is the clamped route time of one
      walkable catalog station, and no walkable catalog station offers a
      shorter clamped route. */
  lemma OptimalTimeIsBestRoute(cell: Coord, catalog: seq<Station>, memo: map<string, real>, dist: Distance)
    requires exists s :: s in catalog && dist(cell, At(s)) <= WALKABLE_KM
    ensures exists s :: s in catalog && dist(cell, At(s)) <= WALKABLE_KM &&
              OptimalTime(cell, catalog, memo, dist) == Clamp(MIN_MINUTES, MAX_MINUTES, RouteTime(s, cell, memo, dist))
    ensures forall s :: s in catalog && dist(cell, At(s)) <= WALKABLE_KM ==>
              OptimalTime(cell, catalog, memo, dist) <= Clamp(MIN_MINUTES, MAX_MINUTES, RouteTime(s, cell, memo, dist))
  {
    var walkable := FindNearbyStations(catalog, cell, WALKABLE_KM, dist);
    var s0 :| s0 in catalog && dist(cell, At(s0)) <= WALKABLE_KM;
    assert s0 in walkable;
    var routes := RouteTimes(walkable, cell, memo, dist);
    var m := MinOf(routes);
    var k :| 0 <= k < |routes| && routes[k] == m;
    assert walkable[k] in walkable;
    forall s | s in catalog && dist(cell, At(s)) <= WALKABLE_KM
      ensures OptimalTime(cell, catalog, memo, dist) <= Clamp(MIN_MINUTES, MAX_MINUTES, RouteTime(s, cell, memo, dist))
    {
      var j :| 0 <= j < |walkable| && walkable[j] == s;
      ClampMonotone(MIN_MINUTES, MAX_MINUTES, m, routes[j]);
    }
  }

  /** The loop of calculateOptimalTravelTimeForPoint. Like the source, it
      ignores `nearbyStations` and filters the whole catalog again; `best`
      starts as "Infinity" (None). */
  method CalculateOptimalTravelTimeForPoint(destination: Coord, catalog: seq<Station>, nearbyStations: seq<Station>,
                                            stationTransitTimes: map<string, real>, dist: Distance)
    returns (r: real)
    ensures r == OptimalTime(destination, catalog, stationTransitTimes, dist)
  {
    var walkableStations := FindNearbyStations(catalog, destination, WALKABLE_KM, dist);
    if |walkableStations| == 0 {
      return NO_WALKABLE_MINUTES;
    }
    ghost var routes := RouteTimes(walkableStations, destination, stationTransitTimes, dist);
    var bestTotalTime: Option<real> := None;
    for k := 0 to |walkableStations|
      invariant k == 0 <==> bestTotalTime == None
      invariant k > 0 ==> bestTotalTime == Some(MinOf(routes[..k]))
    {
      var station := walkableStations[k];
      var transitTime := TransitTimeOrDefault(stationTransitTimes, station.id);
      var walkingDistance := dist(At(station), destination);
      var walkingTime := WalkingTime(walkingDistance);
      var totalTime := transitTime + walkingTime;
      assert routes[k] == totalTime;
      if k > 0 {
        MinOfExtend(routes, k);
      }
      if bestTotalTime == None || totalTime < bestTotalTime.value {
        bestTotalTime := Some(totalTime);
      }
    }
    assert routes[..|walkableStations|] == routes;
    r := Clamp(MIN_MINUTES, MAX_MINUTES, bestTotalTime.value);
  }

  /** The per-cell travel time of the heatmap, given the precomputed times. */
  function OptimalTimes(catalog: seq<Station>, memo: map<string, real>, dist: Distance): (nat, Coord) -> real
  {
    (k: nat, p: Coord) => OptimalTime(p, catalog, memo, dist)
  }

  /** The snapshot getAccessibilityHeatmapData builds. */
  function HeatmapData(center: Coord, catalog: seq<Station>, dist: Distance, rand: Random, stamp: int, gridDensity: nat): TransitData
  {
    var memo := StationTimes(center, FindNearbyStations(catalog, center, TRANSIT_SEARCH_KM, dist), dist, rand);
    TransitData(LatticePoints(center, HEATMAP_RADIUS, gridDensity, OptimalTimes(catalog, memo, dist)), stamp)
  }

  /** The heatmap has gridDensity^2 points in the box of half-width 0.05
      around the centre, each with a time in [3, 90]. */
  lemma HeatmapShape(center: Coord, catalog: seq<Station>, dist: Distance, rand: Random, stamp: int, gridDensity: nat)
    ensures |HeatmapData(center, catalog, dist, rand, stamp, gridDensity).points| == gridDensity * gridDensity
    ensures forall q :: q in HeatmapData(center, catalog, dist, rand, stamp, gridDensity).points ==>
              center.latitude - HEATMAP_RADIUS <= q.latitude < center.latitude + HEATMAP_RADIUS &&
              center.longitude - HEATMAP_RADIUS <= q.longitude < center.longitude + HEATMAP_RADIUS &&
              MIN_MINUTES <= q.travelTime <= MAX_MINUTES
  {
    var memo := StationTimes(center, FindNearbyStations(catalog, center, TRANSIT_SEARCH_KM, dist), dist, rand);
    var timeAt := OptimalTimes(catalog, memo, dist);
    forall k: nat, p: Coord
      ensures MIN_MINUTES <= timeAt(k, p) <= MAX_MINUTES
    {
      var _ := OptimalTime(p, catalog, memo, dist);
    }
    LatticeLength(center, HEATMAP_RADIUS, gridDensity, timeAt);
    LatticePointsBounds(center, HEATMAP_RADIUS, gridDensity, timeAt, MIN_MINUTES, MAX_MINUTES);
  }

  /** One row of the lattice loop of getAccessibilityHeatmapData: the cells
      (i, 0) .. (i, n - 1), each with its optimal time. */
  method HeatmapRow(userLocation: Coord, catalog: seq<Station>, nearbyStations: seq<Station>,
                    stationTransitTimes: map<string, real>, dist: Distance, gridDensity: nat, i: nat)
    returns (row: seq<TransitPoint>)
    ensures row == Row(userLocation, HEATMAP_RADIUS, gridDensity, OptimalTimes(catalog, stationTransitTimes, dist), i)
  {
    ghost var spec := Row(userLocation, HEATMAP_RADIUS, gridDensity, OptimalTimes(catalog, stationTransitTimes, dist), i);
    row := [];
    for j := 0 to gridDensity
      invariant row == spec[..j]
    {
      assert spec[..j + 1] == spec[..j] + [spec[j]];
      // Cell (i, j): i steps north and j steps east of the lattice's south-west corner.
      var cell := CellCoord(userLocation, HEATMAP_RADIUS, gridDensity, i, j);
      var optimalTime := CalculateOptimalTravelTimeForPoint(cell, catalog, nearbyStations, stationTransitTimes, dist);
      row := row + [TransitPoint(cell.latitude, cell.longitude, optimalTime)];
    }
    assert spec[..gridDensity] == spec;
  }

  /** getAccessibilityHeatmapData: precompute the transit times to the stations
      within 5 km of the centre, then give every lattice cell its optimal time. */
  method GetAccessibilityHeatmapData(userLocation: Coord, catalog: seq<Station>, dist: Distance, rand: Random,
                                     stamp: int, gridDensity: nat := 50)
    returns (data: TransitData)
    ensures data == HeatmapData(userLocation, catalog, dist, rand, stamp, gridDensity)
  {
    var points: seq<TransitPoint> := [];
    var nearbyStations := FindNearbyStations(catalog, userLocation, TRANSIT_SEARCH_KM, dist);
    var stationTransitTimes := PrecomputeStationTimes(userLocation, nearbyStations, dist, rand);
    for i := 0 to gridDensity
      invariant points == Rows(userLocation, HEATMAP_RADIUS, gridDensity, OptimalTimes(catalog, stationTransitTimes, dist), i)
    {
      var row := HeatmapRow(userLocation, catalog, nearbyStations, stationTransitTimes, dist, gridDensity, i);
      points := points + row;
    }
    data := TransitData(points, stamp);
  }
}
