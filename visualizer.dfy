/** The map layer of the travel-time display (components/TransitVisualizer.tsx):
    one circle per transit point, sized by a step function of its travel time
    and coloured by its band. */
module TransitVisualizer {
  import opened TransitTypes
  import ColorSchemes

  /** Fill and stroke opacities of every circle. */
  const FILL_OPACITY: real := 0.4
  const STROKE_OPACITY: real := 0.8
  const STROKE_WIDTH: nat := 1

  /** One map circle; `key` is the point's index in the data. */
  datatype Circle = Circle(key: nat, center: Coord, radius: nat,
                           fillColor: Option<ColorSchemes.Rgba>,
                           strokeColor: Option<ColorSchemes.Rgba>,
                           strokeWidth: nat)

  /** getRadiusForTravelTime: metres, by travel-time band with inclusive upper
      limits 10, 20, 30, 45 and 60 minutes. */
  function RadiusForTravelTime(travelTime: real): (radius: nat)
    ensures radius in {150, 200, 250, 300, 350, 400}
    ensures radius == 150 <==> travelTime <= 10.0
    ensures radius == 200 <==> 10.0 < travelTime <= 20.0
    ensures radius == 250 <==> 20.0 < travelTime <= 30.0
    ensures radius == 300 <==> 30.0 < travelTime <= 45.0
    ensures radius == 350 <==> 45.0 < travelTime <= 60.0
    ensures radius == 400 <==> travelTime > 60.0
  {
    if travelTime <= 10.0 then 150
    else if travelTime <= 20.0 then 200
    else if travelTime <= 30.0 then 250
    else if travelTime <= 45.0 then 300
    else if travelTime <= 60.0 then 350
    else 400
  }

  /** A longer travel time never gets a smaller circle. */
  lemma RadiusMonotone(t1: real, t2: real)
    requires t1 <= t2
    ensures RadiusForTravelTime(t1) <= RadiusForTravelTime(t2)
  {
  }

  /** The circle drawn for point number `index`. */
  function CircleFor(point: TransitPoint, index: nat, schemeIndex: nat): Circle
    requires schemeIndex < |ColorSchemes.COLOR_SCHEMES|
  {
    Circle(index, PointAt(point), RadiusForTravelTime(point.travelTime),
           ColorSchemes.GetColorWithOpacity(point.travelTime, schemeIndex, FILL_OPACITY),
           ColorSchemes.GetColorWithOpacity(point.travelTime, schemeIndex, STROKE_OPACITY),
           STROKE_WIDTH)
  }

  /** transitData.points.map(...): one circle per point, in point order. */
  function Circles(points: seq<TransitPoint>, schemeIndex: nat): (circles: seq<Circle>)
    requires schemeIndex < |ColorSchemes.COLOR_SCHEMES|
    ensures |circles| == |points|
  {
    seq(|points|, i requires 0 <= i < |points| => CircleFor(points[i], i, schemeIndex))
  }

  /** Circle i belongs to point i: the same centre, the point's index as key,
      the radius of its travel time, and, for a non-negative time, fill and
      stroke in the same colour at opacities 0.4 and 0.8. */
  lemma CirclesMatchPoints(points: seq<TransitPoint>, schemeIndex: nat, i: nat)
    requires schemeIndex < |ColorSchemes.COLOR_SCHEMES| && i < |points|
    ensures var c := Circles(points, schemeIndex)[i];
            c.key == i && c.center == PointAt(points[i]) &&
            c.radius == RadiusForTravelTime(points[i].travelTime) &&
            (points[i].travelTime >= 0.0 ==>
               c.fillColor.Some? && c.strokeColor.Some? &&
               c.fillColor.value.opacity == FILL_OPACITY && c.strokeColor.value.opacity == STROKE_OPACITY &&
               c.fillColor.value.(opacity := 0.0) == c.strokeColor.value.(opacity := 0.0))
  {
    var t := points[i].travelTime;
    if t >= 0.0 {
      var fill := ColorSchemes.GetColorWithOpacity(t, schemeIndex, FILL_OPACITY).value;
      var stroke := ColorSchemes.GetColorWithOpacity(t, schemeIndex, STROKE_OPACITY).value;
      ChannelsDetermineColor(fill.r, fill.g, fill.b, stroke.r, stroke.g, stroke.b);
    }
  }

  /** Equal hexadecimal spellings mean equal channels. */
  lemma ChannelsDetermineColor(r1: nat, g1: nat, b1: nat, r2: nat, g2: nat, b2: nat)
    requires r1 <= 255 && g1 <= 255 && b1 <= 255 && r2 <= 255 && g2 <= 255 && b2 <= 255
    requires "#" + ColorSchemes.HexPair(r1) + ColorSchemes.HexPair(g1) + ColorSchemes.HexPair(b1)
             == "#" + ColorSchemes.HexPair(r2) + ColorSchemes.HexPair(g2) + ColorSchemes.HexPair(b2)
    ensures r1 == r2 && g1 == g2 && b1 == b2
  {
    var s1 := "#" + ColorSchemes.HexPair(r1) + ColorSchemes.HexPair(g1) + ColorSchemes.HexPair(b1);
    var s2 := "#" + ColorSchemes.HexPair(r2) + ColorSchemes.HexPair(g2) + ColorSchemes.HexPair(b2);
    assert ColorSchemes.HexPair(r1) == s1[1..3] == s2[1..3] == ColorSchemes.HexPair(r2);
    assert ColorSchemes.HexPair(g1) == s1[3..5] == s2[3..5] == ColorSchemes.HexPair(g2);
    assert ColorSchemes.HexPair(b1) == s1[5..7] == s2[5..7] == ColorSchemes.HexPair(b2);
    ColorSchemes.HexPairRoundTrip(r1);
    ColorSchemes.HexPairRoundTrip(r2);
    ColorSchemes.HexPairRoundTrip(g1);
    ColorSchemes.HexPairRoundTrip(g2);
    ColorSchemes.HexPairRoundTrip(b1);
    ColorSchemes.HexPairRoundTrip(b2);
  }
}
