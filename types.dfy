/** The value types shared by the transit data service: coordinates, stations,
    travel-time points and snapshots, and the two abstractions that stand in for
    what the service computes with floating point or randomness (great-circle
    distance and Math.random). */
module TransitTypes {

  datatype Option<+T> = None | Some(value: T)

  /** A latitude/longitude pair in degrees. */
  datatype Coord = Coord(latitude: real, longitude: real)

  /** One catalog station; `lines` keeps the catalog's order. */
  datatype Station = Station(id: string, name: string, latitude: real, longitude: real, lines: seq<string>)

  /** A sample point with its estimated travel time in minutes. */
  datatype TransitPoint = TransitPoint(latitude: real, longitude: real, travelTime: real)

  /** One snapshot; `lastUpdated` is the clock reading (milliseconds) taken when it was built. */
  datatype TransitData = TransitData(points: seq<TransitPoint>, lastUpdated: int)

  /** A distance in kilometres. */
  type Km = r: real | r >= 0.0

  /** Great-circle distance, left abstract: any non-negative function of two points. */
  type Distance = (Coord, Coord) -> Km

  /** A value of Math.random(): in [0, 1). */
  type Unit = u: real | 0.0 <= u < 1.0

  /** The two Math.random() calls that jitter a mock station's latitude and longitude. */
  datatype Jitter = Jitter(dLat: Unit, dLng: Unit)

  /** Everything one travel-time estimate draws from Math.random(): the jitter of
      the origin's and of the destination's mock station, and the noise term.
      The mock grid uses only `noise`. */
  datatype Draws = Draws(origin: Jitter, dest: Jitter, noise: Unit)

  /** The random source: the draws of the n-th estimate of a computation. */
  type Random = nat -> Draws

  function At(s: Station): Coord
  {
    Coord(s.latitude, s.longitude)
  }

  function PointAt(p: TransitPoint): Coord
  {
    Coord(p.latitude, p.longitude)
  }

  /** x pulled into the range [lo, hi]: the nearer end when it lies outside. */
  function Clamp(lo: real, hi: real, x: real): (r: real)
    requires lo <= hi
    ensures lo <= r <= hi
    ensures lo <= x <= hi ==> r == x
    ensures x < lo ==> r == lo
    ensures hi < x ==> r == hi
  {
    if hi < x then hi else if x < lo then lo else x
  }

  lemma ClampMonotone(lo: real, hi: real, x: real, y: real)
    requires lo <= hi && x <= y
    ensures Clamp(lo, hi, x) <= Clamp(lo, hi, y)
  {
  }
}
