/** The travel-time estimator of TransitDataService: the mock nearby-station
    lookup (getNearbyStations), the station-to-station estimate
    (calculateMTATravelTime) and the point-to-point estimate (getMTATravelTime).
    Math.random() values come in as `Unit` draws. */
module TravelEstimator {
  import opened TransitTypes

  /** Minutes returned when either side has no nearby station. */
  const FALLBACK_MINUTES: real := 60.0
  /** Minutes added when the two stations share no line. */
  const TRANSFER_PENALTY: real := 5.0
  /** Minutes per kilometre between stations. */
  const MINUTES_PER_KM: real := 2.5
  const MIN_MINUTES: real := 3.0
  const MAX_MINUTES: real := 90.0

  /** The coarse geographic bands of getNearbyStations, checked in this order. */
  datatype Band = Manhattan | OuterBorough | Bronx | Elsewhere

  function BandOf(c: Coord): (b: Band)
    ensures b == Manhattan <==> c.latitude > 40.7 && c.longitude > -74.0
    ensures b == OuterBorough <==> !(c.latitude > 40.7 && c.longitude > -74.0) && c.latitude < 40.6
    ensures b == Bronx <==> !(c.latitude > 40.7 && c.longitude > -74.0) && c.latitude > 40.8
    ensures b == Elsewhere <==> !(c.latitude > 40.7 && c.longitude > -74.0) && 40.6 <= c.latitude <= 40.8
  {
    if c.latitude > 40.7 && c.longitude > -74.0 then Manhattan
    else if c.latitude < 40.6 then OuterBorough
    else if c.latitude > 40.8 then Bronx
    else Elsewhere
  }

  /** The Bronx band is checked after the Manhattan band, so it is chosen only
      west of longitude -74.0. */
  lemma BronxOnlyWestOfManhattanTest(c: Coord)
    requires BandOf(c) == Bronx
    ensures c.longitude <= -74.0
  {
  }

  /** Full width, in degrees, of the jitter added to the mock station's coordinates. */
  function JitterWidth(b: Band): real
  {
    match b
    case Manhattan => 0.01
    case OuterBorough => 0.02
    case Bronx => 0.015
    case Elsewhere => 0.0
  }

  function BandLines(b: Band): seq<string>
  {
    match b
    case Manhattan => ["A", "C", "E", "1", "2", "3"]
    case OuterBorough => ["L", "G", "M", "J", "Z"]
    case Bronx => ["4", "5", "6", "B", "D"]
    case Elsewhere => ["N", "Q", "R", "W"]
  }

  function BandStationId(b: Band): string
  {
    match b
    case Manhattan => "manhattan-station"
    case OuterBorough => "outer-borough-station"
    case Bronx => "bronx-station"
    case Elsewhere => "default-station"
  }

  function BandStationName(b: Band): string
  {
    match b
    case Manhattan => "Manhattan Station"
    case OuterBorough => "Outer Borough Station"
    case Bronx => "Bronx Station"
    case Elsewhere => "Default Station"
  }

  /** A coordinate moved by a uniform offset in [-width / 2, width / 2). */
  function Jittered(x: real, u: Unit, width: real): real
  {
    x + (u - 0.5) * width
  }

  /** getNearbyStations: exactly one synthetic station, chosen by band, within
      half the band's jitter width of the point on each axis. */
  function NearbyStations(c: Coord, j: Jitter): (r: seq<Station>)
    ensures |r| == 1
    ensures r[0].id == BandStationId(BandOf(c)) && r[0].lines == BandLines(BandOf(c))
    ensures -JitterWidth(BandOf(c)) / 2.0 <= r[0].latitude - c.latitude <= JitterWidth(BandOf(c)) / 2.0
    ensures -JitterWidth(BandOf(c)) / 2.0 <= r[0].longitude - c.longitude <= JitterWidth(BandOf(c)) / 2.0
    ensures BandOf(c) == Elsewhere ==> At(r[0]) == c
  {
    var b := BandOf(c);
    var w := JitterWidth(b);
    [Station(BandStationId(b), BandStationName(b),
             Jittered(c.latitude, j.dLat, w), Jittered(c.longitude, j.dLng, w),
             BandLines(b))]
  }

  /** The lines of the first station that the second station also serves, in
      the first station's order. */
  function CommonLines(a: seq<string>, b: seq<string>): (r: seq<string>)
    ensures |r| <= |a|
    ensures forall l :: l in r <==> l in a && l in b
  {
    if |a| == 0 then []
    else (if a[0] in b then [a[0]] else []) + CommonLines(a[1..], b)
  }

  /** The transfer penalty is charged exactly when no line of one station is a line of the other. */
  function TransferPenalty(a: seq<string>, b: seq<string>): (p: real)
    ensures p == TRANSFER_PENALTY <==> forall l :: l in a ==> l !in b
    ensures p == 0.0 <==> exists l :: l in a && l in b
  {
    var common := CommonLines(a, b);
    if |common| == 0 then TRANSFER_PENALTY
    else assert common[0] in common; 0.0
  }

  /** The estimate before noise and clamping: 2.5 minutes per km plus the transfer penalty. */
  function BaseMinutes(o: Station, d: Station, dist: Distance): real
  {
    dist(At(o), At(d)) * MINUTES_PER_KM + TransferPenalty(o.lines, d.lines)
  }

  /** calculateMTATravelTime: the base estimate plus noise Math.random()*10 - 5,
      clamped to [3, 90]. Whatever the noise, the result lies between the
      clamped base minus 5 and the clamped base plus 5. */
  function CalculateMTATravelTime(o: Station, d: Station, dist: Distance, noise: Unit): (r: real)
    ensures MIN_MINUTES <= r <= MAX_MINUTES
    ensures Clamp(MIN_MINUTES, MAX_MINUTES, BaseMinutes(o, d, dist) - 5.0) <= r
    ensures r <= Clamp(MIN_MINUTES, MAX_MINUTES, BaseMinutes(o, d, dist) + 5.0)
    ensures MIN_MINUTES + 5.0 <= BaseMinutes(o, d, dist) <= MAX_MINUTES - 5.0 ==>
              BaseMinutes(o, d, dist) - 5.0 <= r < BaseMinutes(o, d, dist) + 5.0
  {
    var t := BaseMinutes(o, d, dist) + (noise * 10.0 - 5.0);
    ClampMonotone(MIN_MINUTES, MAX_MINUTES, BaseMinutes(o, d, dist) - 5.0, t);
    ClampMonotone(MIN_MINUTES, MAX_MINUTES, t, BaseMinutes(o, d, dist) + 5.0);
    Clamp(MIN_MINUTES, MAX_MINUTES, t)
  }

  /** getMTATravelTime on the two nearby-station lists: 60 when either is empty,
      otherwise the estimate between the first station of each. */
  function MTATravelTime(origins: seq<Station>, dests: seq<Station>, dist: Distance, noise: Unit): (r: real)
    ensures |origins| == 0 || |dests| == 0 ==> r == FALLBACK_MINUTES
    ensures |origins| > 0 && |dests| > 0 ==> r == CalculateMTATravelTime(origins[0], dests[0], dist, noise)
    ensures MIN_MINUTES <= r <= MAX_MINUTES
  {
    if |origins| == 0 || |dests| == 0 then FALLBACK_MINUTES
    else CalculateMTATravelTime(origins[0], dests[0], dist, noise)
  }

  /** getMTATravelTime(origin, destination), with its draws. */
  function EstimateTravelTime(origin: Coord, dest: Coord, dist: Distance, d: Draws): (r: real)
    ensures MIN_MINUTES <= r <= MAX_MINUTES
  {
    MTATravelTime(NearbyStations(origin, d.origin), NearbyStations(dest, d.dest), dist, d.noise)
  }

  /** The mock lookup always finds a station, so the 60-minute fallback is never
      taken: every estimate is the station-to-station estimate of the two mock stations. */
  lemma EstimateNeverFallsBack(origin: Coord, dest: Coord, dist: Distance, d: Draws)
    ensures EstimateTravelTime(origin, dest, dist, d)
            == CalculateMTATravelTime(NearbyStations(origin, d.origin)[0], NearbyStations(dest, d.dest)[0], dist, d.noise)
  {
  }

  /** The travel time of one mock grid cell (getMockTransitData): 2.5 minutes per
      km from the user, scaled by 0.7 in the Manhattan band and 1.2 in the outer
      boroughs, plus noise Math.random()*15 - 7, clamped to [3, 90]. */
  function MockTravelTime(user: Coord, cell: Coord, dist: Distance, noise: Unit): (r: real)
    ensures MIN_MINUTES <= r <= MAX_MINUTES
    ensures var base := dist(user, cell) * MINUTES_PER_KM * MockBandFactor(cell);
            Clamp(MIN_MINUTES, MAX_MINUTES, base - 7.0) <= r <= Clamp(MIN_MINUTES, MAX_MINUTES, base + 8.0)
  {
    var base := dist(user, cell) * MINUTES_PER_KM * MockBandFactor(cell);
    var t := base + (noise * 15.0 - 7.0);
    ClampMonotone(MIN_MINUTES, MAX_MINUTES, base - 7.0, t);
    ClampMonotone(MIN_MINUTES, MAX_MINUTES, t, base + 8.0);
    Clamp(MIN_MINUTES, MAX_MINUTES, t)
  }

  function MockBandFactor(cell: Coord): real
  {
    match BandOf(cell)
    case Manhattan => 0.7
    case OuterBorough => 1.2
    case _ => 1.0
  }
}
