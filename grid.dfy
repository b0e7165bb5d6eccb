/** The square sample lattices of TransitDataService: the zoom-to-grid-size
    table (getGridSize), the lattice layout shared by the three builders, and
    the two builders whose cells are estimated independently
    (getMTATransitData, getMockTransitData). */
module TransitGrid {
  import opened TransitTypes
  import opened TravelEstimator

  /** Half-width, in degrees, of the lattice of getMTATransitData and getMockTransitData. */
  const SEARCH_RADIUS: real := 0.01

  /** getGridSize: 50 when the zoom is absent or 0 (`!zoomLevel`), otherwise a
      step function of the zoom level. */
  function GridSize(zoom: Option<int>): (n: nat)
    ensures n in {15, 25, 40, 50, 60, 80, 100}
    ensures zoom == None || zoom == Some(0) ==> n == 50
    ensures zoom.Some? && zoom.value != 0 ==>
              (zoom.value >= 16 ==> n == 100) &&
              (14 <= zoom.value < 16 ==> n == 80) &&
              (12 <= zoom.value < 14 ==> n == 60) &&
              (10 <= zoom.value < 12 ==> n == 40) &&
              (8 <= zoom.value < 10 ==> n == 25) &&
              (zoom.value < 8 ==> n == 15)
  {
    if zoom.None? || zoom.value == 0 then 50
    else if zoom.value >= 16 then 100
    else if zoom.value >= 14 then 80
    else if zoom.value >= 12 then 60
    else if zoom.value >= 10 then 40
    else if zoom.value >= 8 then 25
    else 15
  }

  /** From zoom 1 upwards a closer zoom never gives a coarser grid. */
  lemma GridSizeMonotone(z1: int, z2: int)
    requires 1 <= z1 <= z2
    ensures GridSize(Some(z1)) <= GridSize(Some(z2))
  {
  }

  /** Zoom 0 counts as absent, which breaks monotonicity below zoom 1. */
  lemma GridSizeZeroZoomIsDefault()
    ensures GridSize(Some(0)) == GridSize(None) == 50
    ensures GridSize(Some(1)) == 15 && GridSize(Some(-1)) == 15
  {
  }

  /** (radius * 2) / n: the spacing between neighbouring lattice points.
      With n = 0 JavaScript gets Infinity here, which no point then uses; the
      model takes 0. */
  function Step(radius: real, n: nat): real
  {
    if n == 0 then 0.0 else (radius * 2.0) / n as real
  }

  /** Lattice cell (i, j): row i along the latitude, column j along the longitude. */
  function CellCoord(c: Coord, radius: real, n: nat, i: nat, j: nat): Coord
  {
    Coord(c.latitude - radius + i as real * Step(radius, n),
          c.longitude - radius + j as real * Step(radius, n))
  }

  /** Point k of the lattice in row-major order: row k / n, column k % n. */
  function LatticeCoord(c: Coord, radius: real, n: nat, k: nat): Coord
    requires n > 0
  {
    CellCoord(c, radius, n, k / n, k % n)
  }

  lemma MulAtLeast(a: int, n: int)
    requires a >= 1 && n >= 0
    ensures a * n >= n
  {
    if a > 1 {
      MulAtLeast(a - 1, n);
      assert a * n == (a - 1) * n + n;
    }
  }

  lemma MulMonotone(a: int, b: int, n: int)
    requires a <= b && n >= 0
    ensures a * n <= b * n
  {
    if a < b {
      MulAtLeast(b - a, n);
      assert b * n == (b - a) * n + a * n;
    }
  }

  /** Euclidean division is determined by quotient and remainder. */
  lemma DivModUnique(k: int, n: int, q: int, r: int)
    requires n > 0 && 0 <= r < n && k == q * n + r
    ensures k / n == q && k % n == r
  {
    var q', r' := k / n, k % n;
    assert k == q' * n + r';
    assert (q - q') * n == r' - r;
    if q > q' {
      MulAtLeast(q - q', n);
    } else if q < q' {
      MulAtLeast(q' - q, n);
    }
  }

  /** Row-major numbering: cell (i, j) is number i * n + j, and every number
      below n * n is some cell. */
  lemma RowMajor(i: nat, j: nat, n: nat)
    requires i < n && j < n
    ensures i * n + j < n * n
    ensures (i * n + j) / n == i && (i * n + j) % n == j
  {
    MulMonotone(i, n - 1, n);
    assert (n - 1) * n == n * n - n;
    DivModUnique(i * n + j, n, i, j);
  }

  lemma RowBelowN(k: nat, n: nat)
    requires k < n * n
    ensures n > 0 && k / n < n
  {
    assert n != 0;
    var q := k / n;
    assert k == q * n + k % n;
    if q >= n {
      MulMonotone(n, q, n);
    }
  }

  lemma RealMulMonotone(a: real, b: real, s: real)
    requires a <= b && s >= 0.0
    ensures a * s <= b * s
  {
  }

  lemma IndexTimesStepBelowDiameter(i: nat, radius: real, n: nat)
    requires radius > 0.0 && i < n
    ensures 0.0 <= i as real * Step(radius, n) < radius * 2.0
  {
    var s := Step(radius, n);
    assert s * n as real == radius * 2.0;
    assert s > 0.0;
    RealMulMonotone(i as real, (n - 1) as real, s);
    assert (n - 1) as real * s == n as real * s - s;
  }

  /** Every lattice point lies in [c - r, c + r) on both axes. */
  lemma LatticeWithinBox(c: Coord, radius: real, n: nat, k: nat)
    requires radius > 0.0 && k < n * n
    ensures n > 0
    ensures c.latitude - radius <= LatticeCoord(c, radius, n, k).latitude < c.latitude + radius
    ensures c.longitude - radius <= LatticeCoord(c, radius, n, k).longitude < c.longitude + radius
  {
    RowBelowN(k, n);
    IndexTimesStepBelowDiameter(k / n, radius, n);
    IndexTimesStepBelowDiameter(k % n, radius, n);
  }

  /** Numbering order is row-major: a later number is in a later row, or in
      the same row and a later column. */
  lemma RowsNonDecreasing(k1: nat, k2: nat, n: nat)
    requires n > 0 && k1 < k2
    ensures k1 / n <= k2 / n
    ensures k1 / n == k2 / n ==> k1 % n < k2 % n
  {
    var q1, q2 := k1 / n, k2 / n;
    assert k1 == q1 * n + k1 % n && k2 == q2 * n + k2 % n;
    assert (q2 + 1) * n == q2 * n + n;
    MulCancelLess(q1, q2 + 1, n);
  }

  lemma MulCancelLess(a: int, b: int, n: int)
    requires n > 0 && a * n < b * n
    ensures a < b
  {
    if a >= b {
      MulMonotone(b, a, n);
    }
  }

  /** A cell in a later row, or later in the same row, has a greater
      latitude, or the same latitude and a greater longitude. */
  lemma CellOrder(c: Coord, radius: real, n: nat, i1: nat, j1: nat, i2: nat, j2: nat)
    requires radius > 0.0 && n > 0
    requires i1 < i2 || (i1 == i2 && j1 < j2)
    ensures var p1, p2 := CellCoord(c, radius, n, i1, j1), CellCoord(c, radius, n, i2, j2);
            p1.latitude < p2.latitude || (p1.latitude == p2.latitude && p1.longitude < p2.longitude)
  {
    var s := Step(radius, n);
    assert s > 0.0;
    if i1 == i2 {
      StrictRealMul(j1 as real, j2 as real, s);
    } else {
      StrictRealMul(i1 as real, i2 as real, s);
    }
  }

  /** Later points come later in row-major order: a strictly greater latitude,
      or the same latitude and a strictly greater longitude. */
  lemma LatticeRowMajorOrder(c: Coord, radius: real, n: nat, k1: nat, k2: nat)
    requires radius > 0.0 && n > 0 && k1 < k2
    ensures var p1, p2 := LatticeCoord(c, radius, n, k1), LatticeCoord(c, radius, n, k2);
            p1.latitude < p2.latitude || (p1.latitude == p2.latitude && p1.longitude < p2.longitude)
  {
    RowsNonDecreasing(k1, k2, n);
    var i1, j1, i2, j2 := k1 / n, k1 % n, k2 / n, k2 % n;
    CellOrder(c, radius, n, i1, j1, i2, j2);
  }

  lemma StrictRealMul(a: real, b: real, s: real)
    requires a < b && s > 0.0
    ensures a * s < b * s
  {
  }

  /** The point of lattice cell (i, j), with the travel time `timeAt` gives
      it; the cell is the (i * n + j)-th one computed. */
  function CellPoint(c: Coord, radius: real, n: nat, timeAt: (nat, Coord) -> real, i: nat, j: nat): TransitPoint
  {
    var p := CellCoord(c, radius, n, i, j);
    TransitPoint(p.latitude, p.longitude, timeAt(i * n + j, p))
  }

  /** Row i of the lattice: its n cells by increasing column. */
  function Row(c: Coord, radius: real, n: nat, timeAt: (nat, Coord) -> real, i: nat): (r: seq<TransitPoint>)
    ensures |r| == n
  {
    seq(n, j requires 0 <= j < n => CellPoint(c, radius, n, timeAt, i, j))
  }

  /** The first m rows, in order. */
  function Rows(c: Coord, radius: real, n: nat, timeAt: (nat, Coord) -> real, m: nat): seq<TransitPoint>
  {
    if m == 0 then [] else Rows(c, radius, n, timeAt, m - 1) + Row(c, radius, n, timeAt, m - 1)
  }

  /** The n * n points of an n-by-n lattice, row by row. */
  function LatticePoints(c: Coord, radius: real, n: nat, timeAt: (nat, Coord) -> real): seq<TransitPoint>
  {
    Rows(c, radius, n, timeAt, n)
  }

  lemma {:induction false} RowsAt(c: Coord, radius: real, n: nat, timeAt: (nat, Coord) -> real, m: nat, i: nat, j: nat)
    requires i < m && j < n
    ensures |Rows(c, radius, n, timeAt, m)| == m * n
    ensures i * n + j < m * n
    ensures Rows(c, radius, n, timeAt, m)[i * n + j] == CellPoint(c, radius, n, timeAt, i, j)
  {
    var prefix := Rows(c, radius, n, timeAt, m - 1);
    assert (m - 1) * n + n == m * n;
    if i == m - 1 {
      if m > 1 {
        RowsAt(c, radius, n, timeAt, m - 1, 0, 0);
      }
      assert |prefix| == i * n;
    } else {
      RowsAt(c, radius, n, timeAt, m - 1, i, j);
    }
  }

  /** An n-by-n lattice has n * n points; point k sits at LatticeCoord(k) and
      has the travel time `timeAt` gives call number k there. */
  lemma LatticePointAt(c: Coord, radius: real, n: nat, timeAt: (nat, Coord) -> real, k: nat)
    requires k < n * n
    ensures n > 0 && |LatticePoints(c, radius, n, timeAt)| == n * n
    ensures var p := LatticeCoord(c, radius, n, k);
            LatticePoints(c, radius, n, timeAt)[k] == TransitPoint(p.latitude, p.longitude, timeAt(k, p))
  {
    RowBelowN(k, n);
    var i, j := k / n, k % n;
    assert k == i * n + j;
    RowsAt(c, radius, n, timeAt, n, i, j);
  }

  /** Every point of an n-by-n lattice is numbered below n * n. */
  lemma LatticeLength(c: Coord, radius: real, n: nat, timeAt: (nat, Coord) -> real)
    ensures |LatticePoints(c, radius, n, timeAt)| == n * n
  {
    if n > 0 {
      RowsAt(c, radius, n, timeAt, n, 0, 0);
    }
  }

  /** The whole lattice lies in the box [c - r, c + r) on both axes, and the
      travel time of every point is within any bounds that hold for `timeAt`. */
  lemma LatticePointsBounds(c: Coord, radius: real, n: nat, timeAt: (nat, Coord) -> real, lo: real, hi: real)
    requires radius > 0.0
    requires forall k: nat, p: Coord :: lo <= timeAt(k, p) <= hi
    ensures forall q :: q in LatticePoints(c, radius, n, timeAt) ==>
              c.latitude - radius <= q.latitude < c.latitude + radius &&
              c.longitude - radius <= q.longitude < c.longitude + radius &&
              lo <= q.travelTime <= hi
  {
    var ps := LatticePoints(c, radius, n, timeAt);
    LatticeLength(c, radius, n, timeAt);
    forall q | q in ps
      ensures c.latitude - radius <= q.latitude < c.latitude + radius
      ensures c.longitude - radius <= q.longitude < c.longitude + radius
      ensures lo <= q.travelTime <= hi
    {
      var k :| 0 <= k < |ps| && ps[k] == q;
      LatticePointAt(c, radius, n, timeAt, k);
      LatticeWithinBox(c, radius, n, k);
    }
  }

  /** The per-cell travel time of getMTATransitData: the estimate from the user
      to the cell, with the draws of the cell's own call (cell number k). */
  function MTATimes(user: Coord, dist: Distance, rand: Random): (nat, Coord) -> real
  {
    (k: nat, p: Coord) => EstimateTravelTime(user, p, dist, rand(k))
  }

  /** The per-cell travel time of getMockTransitData. */
  function MockTimes(user: Coord, dist: Distance, rand: Random): (nat, Coord) -> real
  {
    (k: nat, p: Coord) => MockTravelTime(user, p, dist, rand(k).noise)
  }

  /** The snapshot getMTATransitData builds. */
  function MTATransitData(user: Coord, zoom: Option<int>, dist: Distance, rand: Random, stamp: int): TransitData
  {
    TransitData(LatticePoints(user, SEARCH_RADIUS, GridSize(zoom), MTATimes(user, dist, rand)), stamp)
  }

  /** The snapshot getMockTransitData builds. */
  function MockTransitData(user: Coord, zoom: Option<int>, dist: Distance, rand: Random, stamp: int): TransitData
  {
    TransitData(LatticePoints(user, SEARCH_RADIUS, GridSize(zoom), MockTimes(user, dist, rand)), stamp)
  }

  /** Both independent-cell builders give GridSize(zoom)^2 points, all in the
      box of half-width 0.01 around the user, all with a time in [3, 90]. */
  lemma IndependentGridsShape(user: Coord, zoom: Option<int>, dist: Distance, rand: Random, stamp: int)
    ensures var n := GridSize(zoom);
            |MTATransitData(user, zoom, dist, rand, stamp).points| == n * n &&
            |MockTransitData(user, zoom, dist, rand, stamp).points| == n * n
    ensures forall q :: q in MTATransitData(user, zoom, dist, rand, stamp).points ==>
              user.latitude - SEARCH_RADIUS <= q.latitude < user.latitude + SEARCH_RADIUS &&
              user.longitude - SEARCH_RADIUS <= q.longitude < user.longitude + SEARCH_RADIUS &&
              MIN_MINUTES <= q.travelTime <= MAX_MINUTES
    ensures forall q :: q in MockTransitData(user, zoom, dist, rand, stamp).points ==>
              user.latitude - SEARCH_RADIUS <= q.latitude < user.latitude + SEARCH_RADIUS &&
              user.longitude - SEARCH_RADIUS <= q.longitude < user.longitude + SEARCH_RADIUS &&
              MIN_MINUTES <= q.travelTime <= MAX_MINUTES
  {
    forall k: nat, p: Coord
      ensures MIN_MINUTES <= MTATimes(user, dist, rand)(k, p) <= MAX_MINUTES
      ensures MIN_MINUTES <= MockTimes(user, dist, rand)(k, p) <= MAX_MINUTES
    {
      var _ := EstimateTravelTime(user, p, dist, rand(k));
      var _ := MockTravelTime(user, p, dist, rand(k).noise);
    }
    LatticeLength(user, SEARCH_RADIUS, GridSize(zoom), MTATimes(user, dist, rand));
    LatticeLength(user, SEARCH_RADIUS, GridSize(zoom), MockTimes(user, dist, rand));
    LatticePointsBounds(user, SEARCH_RADIUS, GridSize(zoom), MTATimes(user, dist, rand), MIN_MINUTES, MAX_MINUTES);
    LatticePointsBounds(user, SEARCH_RADIUS, GridSize(zoom), MockTimes(user, dist, rand), MIN_MINUTES, MAX_MINUTES);
  }

  /** One row of getMTATransitData's loop: cells (i, 0) .. (i, n - 1), each
      with the estimate from the user. */
  method MTARow(user: Coord, gridSize: nat, dist: Distance, rand: Random, i: nat)
    returns (row: seq<TransitPoint>)
    ensures row == Row(user, SEARCH_RADIUS, gridSize, MTATimes(user, dist, rand), i)
  {
    ghost var spec := Row(user, SEARCH_RADIUS, gridSize, MTATimes(user, dist, rand), i);
    row := [];
    for j := 0 to gridSize
      invariant row == spec[..j]
    {
      assert spec[..j + 1] == spec[..j] + [spec[j]];
      // Cell (i, j): i steps north and j steps east of the lattice's south-west corner.
      var cell := CellCoord(user, SEARCH_RADIUS, gridSize, i, j);
      var travelTime := EstimateTravelTime(user, cell, dist, rand(i * gridSize + j));
      row := row + [TransitPoint(cell.latitude, cell.longitude, travelTime)];
    }
    assert spec[..gridSize] == spec;
  }

  /** getMTATransitData: for i, then j, below the grid size, estimates the
      travel time from the user to lattice cell (i, j) and appends the point. */
  method GetMTATransitData(user: Coord, zoom: Option<int>, dist: Distance, rand: Random, stamp: int)
    returns (data: TransitData)
    ensures data == MTATransitData(user, zoom, dist, rand, stamp)
  {
    var points: seq<TransitPoint> := [];
    var gridSize := GridSize(zoom);
    for i := 0 to gridSize
      invariant points == Rows(user, SEARCH_RADIUS, gridSize, MTATimes(user, dist, rand), i)
    {
      var row := MTARow(user, gridSize, dist, rand, i);
      points := points + row;
    }
    data := TransitData(points, stamp);
  }

  /** One row of getMockTransitData's loop, each cell with its mock travel time. */
  method MockRow(user: Coord, gridSize: nat, dist: Distance, rand: Random, i: nat)
    returns (row: seq<TransitPoint>)
    ensures row == Row(user, SEARCH_RADIUS, gridSize, MockTimes(user, dist, rand), i)
  {
    ghost var spec := Row(user, SEARCH_RADIUS, gridSize, MockTimes(user, dist, rand), i);
    row := [];
    for j := 0 to gridSize
      invariant row == spec[..j]
    {
      assert spec[..j + 1] == spec[..j] + [spec[j]];
      // Cell (i, j): i steps north and j steps east of the lattice's south-west corner.
      var cell := CellCoord(user, SEARCH_RADIUS, gridSize, i, j);
      var travelTime := MockTravelTime(user, cell, dist, rand(i * gridSize + j).noise);
      row := row + [TransitPoint(cell.latitude, cell.longitude, travelTime)];
    }
    assert spec[..gridSize] == spec;
  }

  /** getMockTransitData: the same lattice, each cell with its mock travel time. */
  method GetMockTransitData(user: Coord, zoom: Option<int>, dist: Distance, rand: Random, stamp: int)
    returns (data: TransitData)
    ensures data == MockTransitData(user, zoom, dist, rand, stamp)
  {
    var points: seq<TransitPoint> := [];
    var gridSize := GridSize(zoom);
    for i := 0 to gridSize
      invariant points == Rows(user, SEARCH_RADIUS, gridSize, MockTimes(user, dist, rand), i)
    {
      var row := MockRow(user, gridSize, dist, rand, i);
      points := points + row;
    }
    data := TransitData(points, stamp);
  }
}
